# A verified model of the OpenAD code-generation agent

This project models `AgentCoder`, the agent of the OpenAD anomaly-detection
pipeline that writes detector scripts (agents/agent_coder.py). The agent does
three things, and the model covers the deterministic core of each:

- **Prompt assembly.** `generate_code` picks the PyOD template for the
  package name `"pyod"` and the PyGOD template for any other name. It binds
  the template to the algorithm, its documentation, the train and test paths
  and the rendered parameters. `revise_code` binds the repair template to a
  `CodeQuality` record's code, error message and algorithm, together with the
  documentation. A template is a sequence of literal and placeholder segments
  (`Prompts`). The three templates are kept as data with their exact source
  text (`Templates`).
- **The model call.** The language model is an oracle parameter. It maps a
  prompt to a reply or to a failure, which stands for the exception
  `llm.invoke` raises. A binding problem is raised before the oracle is
  consulted. A failed call is propagated unchanged (`AgentCoder.Complete`).
- **Sanitising the reply.** `_clean` makes two regular-expression deletions,
  of "```(python)?" and then of "```", and finishes with `str.strip()`.
  `Sanitizer.RemoveFences` models both deletions as one left-to-right scan
  that deletes each leftmost, non-overlapping fence. The scan takes the
  optional tag as a parameter: "python" for the first pass and nothing for
  the second. `Sanitizer.Strip` uses exactly the character set of Python's
  `str.isspace`.

`revise_code` mutates its argument. It is modelled as a method on a
`CodeQuality` object. The method increments `reviewCount` only once the model
has answered and never writes the other fields.

The modules are `Wrappers` (the result type), `Sanitizer`, `Prompts`,
`Templates` and `AgentCoder`. Each lives in its own file.

One observation about the source: the second substitution never changes
anything. No three backticks survive the first pass for any input
(`Sanitizer.SecondPassRedundant`). This is redundancy, not a defect, so the
model keeps both passes.

## Model

| member | source | states |
|---|---|---|
| Sanitizer.RemoveFences | agents/agent_coder.py:152-153 | one substitution pass only deletes: its result is never longer than its input |
| Sanitizer.NoFenceSurvives | agents/agent_coder.py:152-153 | after a pass, with either pattern, the text contains no three consecutive backticks |
| Sanitizer.RemoveFencesFenceFree | agents/agent_coder.py:153 | a pass leaves a text without three consecutive backticks unchanged |
| Sanitizer.RemoveFencesAppend | agents/agent_coder.py:152-153 | a fence-free prefix that does not end in a backtick passes through a pass untouched, and the rest is scanned on its own |
| Sanitizer.RemoveFencesSubsequence | agents/agent_coder.py:152-153 | a pass yields a subsequence of its input: characters are deleted, never added or reordered |
| Sanitizer.RemoveFencesKeepsOtherChars | agents/agent_coder.py:152-153 | a pass keeps every occurrence of every character that is neither a backtick nor part of the tag |
| Sanitizer.LeadingSpace | agents/agent_coder.py:153 | counts the leading whitespace: every character before the count is whitespace, and the one at the count is not |
| Sanitizer.TrailingSpace | agents/agent_coder.py:153 | counts the trailing whitespace, in the same way from the end |
| Sanitizer.Strip | agents/agent_coder.py:153 | `str.strip()`: the result is an infix between whitespace-only borders, neither end of it is whitespace, and an already trimmed text is unchanged |
| Sanitizer.StripSurrounded | agents/agent_coder.py:153 | stripping whitespace-only borders from around a trimmed text gives back exactly that text |
| Sanitizer.StripKeepsOtherChars | agents/agent_coder.py:153 | stripping keeps every occurrence of every non-whitespace character |
| Sanitizer.Clean | agents/agent_coder.py:150-153 | `_clean`: the result has no three consecutive backticks and no surrounding whitespace |
| Sanitizer.SecondPassRedundant | agents/agent_coder.py:152-153 | the second substitution is the identity on the output of the first |
| Sanitizer.CleanIdempotent | agents/agent_coder.py:151-153 | cleaning a cleaned text changes nothing |
| Sanitizer.CleanSubsequence | agents/agent_coder.py:151-153 | the cleaned text is a subsequence of the raw reply and never longer |
| Sanitizer.CleanKeepsOtherChars | agents/agent_coder.py:151-153 | every occurrence of a character that is not a backtick, not in "python" and not whitespace survives cleaning |
| Sanitizer.CleanFenceFree | agents/agent_coder.py:151-153 | on a text without three consecutive backticks, cleaning is just stripping, so "python" is never deleted there |
| Sanitizer.CleanWithoutBackticks | agents/agent_coder.py:151-153 | on a text without any backtick, cleaning is just stripping |
| Sanitizer.CleanUnwrapsPythonBlock | agents/agent_coder.py:151-153 | a reply that is "```python", a newline, trimmed fence-free code, a newline and "```" cleans to exactly the code |
| Sanitizer.CleanUnwrapsBareBlock | agents/agent_coder.py:151-153 | the same for an untagged "```" block |
| Prompts.Interleave | agents/agent_coder.py:20-105 | a template string split at its n placeholders has 2n+1 segments |
| Prompts.Assemble | agents/agent_coder.py:125-131 | `PromptTemplate.invoke`: it succeeds exactly when every placeholder is bound; otherwise it fails and names exactly the unbound ones (never none); on success it is the rendering |
| Prompts.PlaceholdersAppend | agents/agent_coder.py:20-105 | the placeholders of two joined template parts are those of both parts |
| Prompts.RenderAppend | agents/agent_coder.py:125-131 | rendering two joined template parts concatenates their renderings |
| Prompts.RenderSegment | agents/agent_coder.py:125-131 | each segment is rendered in place: a literal unchanged, each occurrence of a placeholder as its bound value, between the renderings of what comes before and after |
| Prompts.RenderContainsSegment | agents/agent_coder.py:125-131 | the text of every segment, literal or bound value, occurs verbatim in the rendering |
| Prompts.PlaceholderHasSegment | agents/agent_coder.py:20-105 | every placeholder name occurs at some segment of the template |
| Prompts.PlaceholdersAreHoles | agents/agent_coder.py:20-105 | a name is a placeholder exactly when some segment is that placeholder |
| Prompts.RenderContainsBinding | agents/agent_coder.py:125-131 | the value bound to any placeholder occurs verbatim in the rendering |
| Prompts.RenderOnlyReadsPlaceholders | agents/agent_coder.py:125-131 | bindings that agree on the placeholders render identically, whatever else they hold |
| Prompts.InterleaveAt | agents/agent_coder.py:20-105 | in a split template string the even segments are the literal pieces and the odd ones the placeholders, in order |
| Prompts.InterleavePlaceholders | agents/agent_coder.py:20-105 | the placeholders of a split template string are exactly the names listed for it |
| Templates.PyodPlaceholders | agents/agent_coder.py:20-51 | `template_pyod` has exactly the placeholders algorithm, algorithm_doc, data_path_train, data_path_test and parameters |
| Templates.PygodPlaceholders | agents/agent_coder.py:53-84 | `template_pygod` has exactly the same five placeholders |
| Templates.FixPlaceholders | agents/agent_coder.py:87-105 | `template_fix` has exactly the placeholders code, error_message, algorithm and algorithm_doc |
| Templates.SelectTemplateIff | agents/agent_coder.py:123 | the PyOD template is chosen if and only if the package name is "pyod", and the PyGOD one if and only if it is not |
| Templates.SelectTemplatePlaceholders | agents/agent_coder.py:123 | whichever template is chosen, it has exactly the generation placeholders |
| AgentCoder.GenerationBindings | agents/agent_coder.py:125-131 | the generation dictionary has exactly the generation placeholders as keys, each bound to its request field |
| AgentCoder.RepairBindings | agents/agent_coder.py:138-143 | the repair dictionary has exactly the repair placeholders as keys, each bound to its field |
| AgentCoder.GenerationPrompt | agents/agent_coder.py:123-131 | binding the chosen template to a generation request never fails |
| AgentCoder.RepairPrompt | agents/agent_coder.py:137-144 | binding the repair template to a code record never fails |
| AgentCoder.Complete | agents/agent_coder.py:124-133 | a binding failure is reported without consulting the model; otherwise it succeeds exactly when the model does, propagates the model's error, and returns the model's reply cleaned, hence fence-free and trimmed |
| AgentCoder.GenerateCode | agents/agent_coder.py:114-133 | `generate_code` fails only with the model's error and exactly when the model fails; otherwise it returns the reply to the generation prompt cleaned, hence fence-free and trimmed |
| AgentCoder.ReviseCode | agents/agent_coder.py:136-147 | `revise_code` returns the cleaned reply to the repair prompt built from the record; it leaves code, error message and algorithm unchanged; the counter goes up by exactly one when the model answered and stays put when the call failed |
| AgentCoder.RevisionScenario | agents/agent_coder.py:136-147 | with a model that always answers, a record at 0 reaches 1 and a record at 2 reaches 3, and the returned code is fence-free and trimmed |
| AgentCoder.BindingsMatchTemplates | agents/agent_coder.py:125-143 | each entry point binds exactly its templates' placeholder set, no more and no less |
| AgentCoder.RepairTemplateRejectsGenerationBindings | agents/agent_coder.py:87-105 | the repair template bound to a generation request fails, missing exactly code and error_message |
| AgentCoder.GenerationTemplateRejectsRepairBindings | agents/agent_coder.py:20-84 | either generation template bound to a repair request fails, missing exactly both paths and parameters |
| AgentCoder.MissingBindingSkipsModel | agents/agent_coder.py:124-131 | when a placeholder is unbound, the outcome is that binding error whatever the model would answer |
| AgentCoder.GenerateCodeSelection | agents/agent_coder.py:123 | the generation prompt uses the PyOD template exactly for "pyod", and every other package name behaves like "pygod" |
| AgentCoder.GenerationPromptVerbatim | agents/agent_coder.py:125-131 | the generation prompt contains the algorithm, the documentation, both paths and the parameter string verbatim |
| AgentCoder.RepairPromptVerbatim | agents/agent_coder.py:138-143 | the repair prompt contains the code, the error message, the algorithm and the documentation verbatim |
| AgentCoder.GenerationPromptSegments | agents/agent_coder.py:123-131 | every segment of the chosen template sits in place in the generation prompt: literals unchanged, each placeholder occurrence as its value |
| AgentCoder.GenerateCodeUnwrapsReply | agents/agent_coder.py:124-133 | a reply that is one fenced block (tagged or not) around trimmed fence-free code makes the result exactly that code |

## Left out

- The language model (agents/agent_coder.py:18, 124, 137) is a parameter of type `string -> Result<string, string>`. Nothing is assumed about its replies. It is a function, so one model value answers a given prompt the same way every time. Sampling nondeterminism, the network and time-outs are not modelled. A time-out is covered only as one more failure.
- Setting the API key and importing `Config` (agents/agent_coder.py:14-15) is process configuration, so it is not modelled.
- The imports the shown logic never uses are not modelled: `subprocess`, `FileLock`, `json`, `datetime` and `OpenAI`.
- The `__main__` block (agents/agent_coder.py:155-178) calls selector and documentation agents that are not part of this model.
- `str(input_parameters)` (agents/agent_coder.py:130) is Python's rendering of a dictionary. It is taken as an opaque string argument.
- The natural-language meaning of the templates is not modelled, since it is instructions to the model that this file never checks. The templates are kept as literal text only.
- Regular expressions are not modelled in general. Only the two fixed patterns of `_clean` are. Whitespace is Python's `str.isspace` set, written out character by character.
- entity/code_quality.py is not part of this model. `AgentCoder.CodeQuality` holds only the four fields the agent reads or writes.
- The no-argument `AgentCoder.__init__` (agents/agent_coder.py:110-111) holds no state. The model has no agent object, and both entry points are members of the `AgentCoder` module.
- A non-empty error message is not a precondition of `AgentCoder.ReviseCode`, because `revise_code` never checks it.
- After n successful calls starting from c, the counter is c + n. This follows from the per-call postcondition of `AgentCoder.ReviseCode`. The source has no loop, so the model has none either. `AgentCoder.RevisionScenario` shows 0 to 1 and 2 to 3.
- Python exceptions are modelled as `Failure` results. An exception raised by `.content` or by the prompt object is part of the model's failure.
