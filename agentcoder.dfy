/** The agent itself (agents/agent_coder.py:109-153): generation and repair
    of detector scripts. Each entry point binds a template, hands the prompt
    to the language model and sanitises the reply; repair also counts the
    cycle on the code record it was given.

    The language model is an oracle: a total function from prompt to reply,
    where a failure stands for the exception `llm.invoke` raises. Nothing is
    assumed about what it answers. */
module AgentCoder {
  import opened Wrappers
  import opened Sanitizer
  import opened Prompts
  import opened Templates

  /** `llm.invoke(prompt).content`: the reply, or the reason the call failed. */
  type Llm = string -> Result<string, string>

  /** What an entry point can fail with: a template left with unbound
      placeholders (raised before the model is called), or a failed model call
      (propagated unchanged). */
  datatype AgentError = TemplateBinding(missing: set<string>) | ModelInvocation(reason: string)

  /** The record one repair cycle reads and updates (`CodeQuality`); the
      agent reads the first three fields and increments the counter. */
  class CodeQuality {
    var code: string
    var errorMessage: string
    var algorithm: string
    var reviewCount: nat

    constructor(code: string, errorMessage: string, algorithm: string, reviewCount: nat)
      ensures this.code == code && this.errorMessage == errorMessage
      ensures this.algorithm == algorithm && this.reviewCount == reviewCount
    {
      this.code := code;
      this.errorMessage := errorMessage;
      this.algorithm := algorithm;
      this.reviewCount := reviewCount;
    }
  }

  // ---------------------------------------------------------------------------
  // Bindings and prompts
  // ---------------------------------------------------------------------------

  /** The dictionary `generate_code` binds its template to; `parameters` is
      the already rendered `str(input_parameters)`. */
  function GenerationBindings(algorithm: string, dataPathTrain: string, dataPathTest: string,
                              algorithmDoc: string, parameters: string): (b: Bindings)
    ensures b.Keys == GenerationPlaceholders
    ensures b["algorithm"] == algorithm && b["algorithm_doc"] == algorithmDoc
    ensures b["data_path_train"] == dataPathTrain && b["data_path_test"] == dataPathTest
    ensures b["parameters"] == parameters
  {
    map["algorithm" := algorithm, "data_path_train" := dataPathTrain,
        "data_path_test" := dataPathTest, "algorithm_doc" := algorithmDoc,
        "parameters" := parameters]
  }

  /** The dictionary `revise_code` binds the repair template to. */
  function RepairBindings(code: string, errorMessage: string, algorithm: string,
                          algorithmDoc: string): (b: Bindings)
    ensures b.Keys == RepairPlaceholders
    ensures b["code"] == code && b["error_message"] == errorMessage
    ensures b["algorithm"] == algorithm && b["algorithm_doc"] == algorithmDoc
  {
    map["code" := code, "error_message" := errorMessage, "algorithm" := algorithm,
        "algorithm_doc" := algorithmDoc]
  }

  /** The generation prompt: the template chosen by the package name, bound to
      the request. Binding never fails, since the request supplies every
      placeholder either generation template has. */
  function GenerationPrompt(algorithm: string, dataPathTrain: string, dataPathTest: string,
                            algorithmDoc: string, parameters: string,
                            packageName: string): (r: Result<string, BindingError>)
    ensures r.Success?
  {
    SelectTemplatePlaceholders(packageName);
    Assemble(SelectTemplate(packageName),
             GenerationBindings(algorithm, dataPathTrain, dataPathTest, algorithmDoc, parameters))
  }

  /** The repair prompt: the repair template bound to the code record's fields
      and the documentation. Binding never fails. */
  function RepairPrompt(code: string, errorMessage: string, algorithm: string,
                        algorithmDoc: string): (r: Result<string, BindingError>)
    ensures r.Success?
  {
    FixPlaceholders();
    Assemble(FixTemplate, RepairBindings(code, errorMessage, algorithm, algorithmDoc))
  }

  // ---------------------------------------------------------------------------
  // Entry points
  // ---------------------------------------------------------------------------

  /** The shared tail of both entry points: a binding failure is raised without
      calling the model; otherwise the model is asked once, its failure is
      propagated, and its reply is returned sanitised. */
  function Complete(llm: Llm, prompt: Result<string, BindingError>): (r: Result<string, AgentError>)
    ensures prompt.Failure? ==> r == Failure(TemplateBinding(prompt.error.names))
    ensures prompt.Success? ==> (r.Success? <==> llm(prompt.value).Success?)
    ensures prompt.Success? && r.Failure? ==> r == Failure(ModelInvocation(llm(prompt.value).error))
    ensures r.Success? ==> prompt.Success? && r.value == Clean(llm(prompt.value).value)
    ensures r.Success? ==> !HasFence(r.value) && IsTrimmed(r.value)
  {
    match prompt
    case Failure(e) => Failure(TemplateBinding(e.names))
    case Success(text) =>
      match llm(text)
      case Failure(reason) => Failure(ModelInvocation(reason))
      case Success(reply) => Success(Clean(reply))
  }

  /** `generate_code`: the generation prompt, one model call, the sanitised
      reply. It fails only when the model call fails, with that call's error. */
  function GenerateCode(llm: Llm, algorithm: string, dataPathTrain: string, dataPathTest: string,
                        algorithmDoc: string, parameters: string,
                        packageName: string): (r: Result<string, AgentError>)
    ensures var reply := llm(GenerationPrompt(algorithm, dataPathTrain, dataPathTest,
                                              algorithmDoc, parameters, packageName).value);
            && (r.Success? <==> reply.Success?)
            && (r.Success? ==> r.value == Clean(reply.value))
            && (r.Failure? ==> r == Failure(ModelInvocation(reply.error)))
    ensures r.Success? ==> !HasFence(r.value) && IsTrimmed(r.value)
  {
    Complete(llm, GenerationPrompt(algorithm, dataPathTrain, dataPathTest, algorithmDoc,
                                   parameters, packageName))
  }

  /** `revise_code`: binds the repair template to the record's code, error
      message and algorithm, asks the model once and returns the sanitised
      reply. The counter is incremented after the model has answered, so a
      failed call leaves the record as it was; the other fields are never
      written (storing the new code is the caller's business). */
  method ReviseCode(llm: Llm, codeQuality: CodeQuality, algorithmDoc: string)
    returns (r: Result<string, AgentError>)
    modifies codeQuality
    ensures r == Complete(llm, RepairPrompt(old(codeQuality.code), old(codeQuality.errorMessage),
                                            old(codeQuality.algorithm), algorithmDoc))
    ensures codeQuality.code == old(codeQuality.code)
    ensures codeQuality.errorMessage == old(codeQuality.errorMessage)
    ensures codeQuality.algorithm == old(codeQuality.algorithm)
    ensures codeQuality.reviewCount == old(codeQuality.reviewCount) + (if r.Success? then 1 else 0)
  {
    var prompt := RepairPrompt(codeQuality.code, codeQuality.errorMessage,
                               codeQuality.algorithm, algorithmDoc);
    var fixed := llm(prompt.value);
    if fixed.Failure? {
      r := Failure(ModelInvocation(fixed.error));
      assert r == Complete(llm, prompt);
      return;
    }
    assert Complete(llm, prompt) == Success(Clean(fixed.value));
    codeQuality.reviewCount := codeQuality.reviewCount + 1;
    r := Success(Clean(fixed.value));
  }

  /** Repair cycles on one record, with a model that always answers: a record
      at 0 goes to 1, and one at 2 goes to 3 whatever its code says, each time
      returning fence-free code. */
  method RevisionScenario(llm: Llm, algorithmDoc: string, brokenCode: string)
    returns (first: nat, second: nat, firstCode: string)
    requires forall p :: llm(p).Success?
    ensures first == 1 && second == 3
    ensures !HasFence(firstCode) && IsTrimmed(firstCode)
  {
    var record := new CodeQuality(brokenCode, "ValueError: n_neighbors must be > 0", "KNN", 0);
    var r := ReviseCode(llm, record, algorithmDoc);
    first := record.reviewCount;
    firstCode := if r.Success? then r.value else "";
    var again := new CodeQuality(brokenCode, "ValueError: n_neighbors must be > 0", "KNN", 2);
    var s := ReviseCode(llm, again, algorithmDoc);
    second := again.reviewCount;
  }

  // ---------------------------------------------------------------------------
  // Lemmas
  // ---------------------------------------------------------------------------

  /** Each entry point binds exactly the placeholders of its templates: the
      generation dictionary lacks nothing either generation template needs and
      holds nothing else, and likewise the repair dictionary for the repair
      template. */
  lemma BindingsMatchTemplates(algorithm: string, dataPathTrain: string, dataPathTest: string,
                               algorithmDoc: string, parameters: string,
                               code: string, errorMessage: string)
    ensures GenerationBindings(algorithm, dataPathTrain, dataPathTest, algorithmDoc, parameters).Keys
            == Placeholders(PyodTemplate) == Placeholders(PygodTemplate)
    ensures RepairBindings(code, errorMessage, algorithm, algorithmDoc).Keys
            == Placeholders(FixTemplate)
  {
    PyodPlaceholders();
    PygodPlaceholders();
    FixPlaceholders();
  }

  /** The generation dictionary does not fit the repair template: the code and
      the error message are missing. */
  lemma RepairTemplateRejectsGenerationBindings(algorithm: string, dataPathTrain: string,
                                                dataPathTest: string, algorithmDoc: string,
                                                parameters: string)
    ensures Assemble(FixTemplate, GenerationBindings(algorithm, dataPathTrain, dataPathTest,
                                                     algorithmDoc, parameters))
            == Failure(MissingVariables({"code", "error_message"}))
  {
    FixPlaceholders();
    OnlyRepairNames();
  }

  /** The repair dictionary does not fit either generation template: both paths
      and the parameters are missing. */
  lemma GenerationTemplateRejectsRepairBindings(code: string, errorMessage: string, algorithm: string,
                                                algorithmDoc: string, packageName: string)
    ensures Assemble(SelectTemplate(packageName), RepairBindings(code, errorMessage, algorithm, algorithmDoc))
            == Failure(MissingVariables({"data_path_train", "data_path_test", "parameters"}))
  {
    SelectTemplatePlaceholders(packageName);
    OnlyGenerationNames();
  }

  /** The names only the repair template has. */
  lemma OnlyRepairNames()
    ensures RepairPlaceholders - GenerationPlaceholders == {"code", "error_message"}
  {
    assert "error_message"[0] != "algorithm_doc"[0];
  }

  /** The names only the generation templates have. */
  lemma OnlyGenerationNames()
    ensures GenerationPlaceholders - RepairPlaceholders == {"data_path_train", "data_path_test", "parameters"}
  {
    assert "data_path_train"[0] != "algorithm_doc"[0] && "data_path_test"[0] != "algorithm_doc"[0];
  }

  /** A binding failure is raised before the model is consulted: the outcome
      is the same whatever the model would have answered. */
  lemma MissingBindingSkipsModel(llm1: Llm, llm2: Llm, t: Template, b: Bindings)
    requires !(Placeholders(t) <= b.Keys)
    ensures Complete(llm1, Assemble(t, b)) == Complete(llm2, Assemble(t, b))
            == Failure(TemplateBinding(Placeholders(t) - b.Keys))
  {
  }

  /** Template selection as `generate_code` sees it: "pyod" yields the PyOD
      prompt, every other package name the PyGOD one, so all other names give
      the same result on the same request. */
  lemma GenerateCodeSelection(llm: Llm, algorithm: string, dataPathTrain: string, dataPathTest: string,
                              algorithmDoc: string, parameters: string, packageName: string)
    ensures GenerationPrompt(algorithm, dataPathTrain, dataPathTest, algorithmDoc, parameters, packageName)
            == Assemble(if packageName == "pyod" then PyodTemplate else PygodTemplate,
                        GenerationBindings(algorithm, dataPathTrain, dataPathTest, algorithmDoc, parameters))
    ensures packageName != "pyod" ==>
            GenerateCode(llm, algorithm, dataPathTrain, dataPathTest, algorithmDoc, parameters, packageName)
            == GenerateCode(llm, algorithm, dataPathTrain, dataPathTest, algorithmDoc, parameters, "pygod")
  {
    SelectTemplateIff(packageName);
  }

  /** The generation prompt contains the algorithm name, the documentation, both
      paths and the parameter string verbatim. */
  lemma GenerationPromptVerbatim(algorithm: string, dataPathTrain: string, dataPathTest: string,
                                 algorithmDoc: string, parameters: string, packageName: string)
    ensures var p := GenerationPrompt(algorithm, dataPathTrain, dataPathTest, algorithmDoc,
                                      parameters, packageName).value;
            IsInfix(algorithm, p) && IsInfix(algorithmDoc, p) && IsInfix(dataPathTrain, p)
            && IsInfix(dataPathTest, p) && IsInfix(parameters, p)
  {
    var t := SelectTemplate(packageName);
    var b := GenerationBindings(algorithm, dataPathTrain, dataPathTest, algorithmDoc, parameters);
    SelectTemplatePlaceholders(packageName);
    RenderContainsBinding(t, b, "algorithm");
    RenderContainsBinding(t, b, "algorithm_doc");
    RenderContainsBinding(t, b, "data_path_train");
    RenderContainsBinding(t, b, "data_path_test");
    RenderContainsBinding(t, b, "parameters");
  }

  /** The repair prompt contains the failing code, its error message, the
      algorithm name and the documentation verbatim. */
  lemma RepairPromptVerbatim(code: string, errorMessage: string, algorithm: string, algorithmDoc: string)
    ensures var p := RepairPrompt(code, errorMessage, algorithm, algorithmDoc).value;
            IsInfix(code, p) && IsInfix(errorMessage, p) && IsInfix(algorithm, p)
            && IsInfix(algorithmDoc, p)
  {
    var b := RepairBindings(code, errorMessage, algorithm, algorithmDoc);
    FixPlaceholders();
    RenderContainsBinding(FixTemplate, b, "code");
    RenderContainsBinding(FixTemplate, b, "error_message");
    RenderContainsBinding(FixTemplate, b, "algorithm");
    RenderContainsBinding(FixTemplate, b, "algorithm_doc");
  }

  /** Every segment of the selected template appears in the generation prompt
      in place: literals unchanged, each occurrence of a placeholder as the
      value bound to it. */
  lemma GenerationPromptSegments(algorithm: string, dataPathTrain: string, dataPathTest: string,
                                 algorithmDoc: string, parameters: string, packageName: string, i: int)
    requires 0 <= i < |SelectTemplate(packageName)|
    ensures var t := SelectTemplate(packageName);
            var b := GenerationBindings(algorithm, dataPathTrain, dataPathTest, algorithmDoc, parameters);
            && Placeholders(t[..i]) <= b.Keys && Placeholders(t[i + 1..]) <= b.Keys
            && (t[i].Hole? ==> t[i].name in b)
            && GenerationPrompt(algorithm, dataPathTrain, dataPathTest, algorithmDoc, parameters,
                                packageName).value
               == Render(t[..i], b) + Piece(t[i], b) + Render(t[i + 1..], b)
  {
    SelectTemplatePlaceholders(packageName);
    RenderSegment(SelectTemplate(packageName),
                  GenerationBindings(algorithm, dataPathTrain, dataPathTest, algorithmDoc, parameters), i);
  }

  /** A model that answers with one fenced block, tagged or not, around
      trimmed, fence-free code makes `generate_code` return exactly that code. */
  lemma GenerateCodeUnwrapsReply(llm: Llm, algorithm: string, dataPathTrain: string, dataPathTest: string,
                                 algorithmDoc: string, parameters: string, packageName: string,
                                 x: string, tagged: bool)
    requires !HasFence(x) && IsTrimmed(x)
    requires llm(GenerationPrompt(algorithm, dataPathTrain, dataPathTest, algorithmDoc, parameters,
                                  packageName).value)
             == Success((if tagged then "```python\n" else "```\n") + x + "\n```")
    ensures GenerateCode(llm, algorithm, dataPathTrain, dataPathTest, algorithmDoc, parameters, packageName)
            == Success(x)
  {
    if tagged {
      CleanUnwrapsPythonBlock(x);
    } else {
      CleanUnwrapsBareBlock(x);
    }
  }
}
