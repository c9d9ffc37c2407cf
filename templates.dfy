/** The template registry: the three prompt templates of
    agents/agent_coder.py as segment data, and the choice between the two
    generation templates (agents/agent_coder.py:123). Each template is its
    source string split at the placeholders; the literal pieces are the
    source's text exactly, including the leading and trailing line breaks. */
module Templates {
  import opened Prompts

  /** The placeholders of both generation templates. */
  const GenerationPlaceholders: set<string> :=
    {"algorithm", "algorithm_doc", "data_path_train", "data_path_test", "parameters"}

  /** The placeholders of the repair template. */
  const RepairPlaceholders: set<string> := {"code", "error_message", "algorithm", "algorithm_doc"}

  /** The k-th literal piece of `template_pyod` (agents/agent_coder.py:20-51). */
  function PyodText(k: nat): string
    requires k < 9
  {
    match k
    case 0 =>
      "\n"
      + "You " + "are " + "an " + "expert " + "Python " + "developer " + "with " + "deep " + "experience " + "in " + "anomaly " + "detection " + "libraries. " + "Your " + "task " + "is " + "to:\n"
      + "\n"
      + "1. " + "Use " + "the " + "provided " + "official " + "documentation " + "content " + "for " + "`"
    case 1 =>
      "` " + "to " + "understand " + "how " + "to " + "use " + "the " + "specified " + "algorithm " + "class, " + "including " + "initialization, " + "training, " + "and " + "prediction " + "methods.\n"
      + "2. " + "Write " + "only " + "executable " + "Python " + "code " + "for " + "anomaly " + "detection " + "using " + "PyOD " + "and " + "do " + "not " + "include " + "any " + "explanations " + "or " + "descriptions.\n"
      + "3. " + "Base " + "your " + "code " + "strictly " + "on " + "the " + "following " + "official " + "documentation " + "excerpt:\n"
      + "\n"
      + "--- " + "BEGIN " + "DOCUMENTATION " + "---\n"
    case 2 =>
      "\n"
      + "--- " + "END " + "DOCUMENTATION " + "---\n"
      + "\n"
      + "4. " + "The " + "code " + "should:\n"
      + "   " + "(1) " + "import " + "sys, " + "os " + "and " + "include " + "command " + "`sys.path.append" + "(os.path.abspath" + "(os.path.join(os" + ".path.dirname(__" + "file__), " + "'..')))` " + "in " + "the " + "head\n"
      + "   " + "(2) " + "import " + "DataLoader " + "using " + "following " + "commend " + "`from " + "data_loader.data" + "_loader " + "import " + "DataLoader` " + "after " + "(1)\n"
      + "   " + "(3) " + "Initialize " + "DataLoader " + "using " + "statement " + "`dataloader_train " + "= " + "DataLoader(filepath " + "= "
    case 3 =>
      ", " + "store_script=True, " + "store_path " + "= " + "'train_data_load" + "er.py')` " + "& " + "`dataloader_test " + "= " + "DataLoader(filepath " + "= "
    case 4 =>
      ", " + "store_script=True, " + "store_path " + "= " + "'test_data_loade" + "r.py')`\n"
      + "   " + "(4) " + "Use " + "the " + "statement " + "`X_train, " + "y_train " + "= " + "dataloader_train" + ".load_data(split" + "_data=False)` " + "& " + "`X_test, " + "y_test " + "= " + "dataloader_train" + ".load_data(split" + "_data=False)` " + "to " + "generate " + "variables " + "X_train, " + "y_train, " + "X_test, " + "y_test; \n"
      + "   " + "(5) " + "Initialize " + "the " + "specified " + "algorithm " + "`"
    case 5 =>
      "` " + "strictly " + "following " + "the " + "provided " + "documentation " + "and " + "train " + "the " + "model " + "with " + "`X_train`\n"
      + "   " + "(6) " + "Determine " + "whether " + "the " + "following " + "parameters " + "`"
    case 6 =>
      "` " + "apply " + "to " + "this " + "initialization " + "function " + "and, " + "if " + "so, " + "add " + "their " + "values " + "\U{200B}to " + "the " + "function.\n"
      + "   " + "(7) " + "Use " + "`.decision_scores_` " + "on " + "`X_train` " + "for " + "training " + "outlier " + "scores\n"
      + "       " + "Use " + "`.decision_funct" + "ion(X_test)` " + "for " + "test " + "outlier " + "scores\n"
      + "       " + "Calculate " + "AUROC " + "(Area " + "Under " + "the " + "Receiver " + "Operating " + "Characteristic " + "Curve) " + "and " + "AUPRC " + "(Area " + "Under " + "the " + "Precision-Recall " + "Curve) " + "based " + "on " + "given " + "data\n"
      + "   " + "(8) " + "Using " + "variables " + "to " + "record " + "the " + "AUROC " + "& " + "AUPRC " + "and " + "print " + "them " + "out " + "in " + "following " + "format:\n"
      + "       " + "AUROC:\\s*(\\d+.\\d+)\n"
      + "       " + "AUPRC:\\s*(\\d+.\\d+)\n"
      + "   " + "(9) " + "Using " + "variables " + "to " + "record " + "prediction " + "failed " + "data " + "and " + "print " + "these " + "points " + "out " + "with " + "true " + "label " + "in " + "following " + "format:\n"
      + "       " + "`Failed " + "prediction " + "at " + "point " + "[xx,xx,xx...] " + "with " + "true " + "label " + "xx` " + "Use " + "`.tolist()` " + "to " + "convert " + "point " + "to " + "be " + "an " + "array.\n"
      + "                " + "     \n"
      + "\n"
      + "IMPORTANT: \n"
      + "- " + "Strictly " + "follow " + "steps " + "(2)-(8) " + "to " + "load " + "the " + "data " + "from " + "`"
    case 7 =>
      "` " + "& "
    case _ =>
      ".\n"
      + "- " + "Do " + "NOT " + "input " + "optional " + "or " + "incorrect " + "parameters.\n"
  }

  /** The placeholders of `template_pyod`, in order of occurrence. */
  const PyodHoles: seq<string> := ["algorithm", "algorithm_doc", "data_path_train", "data_path_test", "algorithm", "parameters", "data_path_train", "data_path_test"]

  /** The literal pieces of `template_pyod`, in order. */
  function PyodTexts(): seq<string> { seq(9, k requires 0 <= k < 9 => PyodText(k)) }

  /** `template_pyod`. */
  const PyodTemplate: Template := Interleave(PyodTexts(), PyodHoles)

  /** The k-th literal piece of `template_pygod` (agents/agent_coder.py:53-84). */
  function PygodText(k: nat): string
    requires k < 10
  {
    match k
    case 0 =>
      "\n"
      + "You " + "are " + "an " + "expert " + "Python " + "developer " + "with " + "deep " + "experience " + "in " + "anomaly " + "detection " + "libraries. " + "Your " + "task " + "is " + "to:\n"
      + "\n"
      + "1. " + "Use " + "the " + "provided " + "official " + "documentation " + "content " + "for " + "`"
    case 1 =>
      "` " + "to " + "understand " + "how " + "to " + "use " + "the " + "specified " + "algorithm " + "class, " + "including " + "initialization, " + "training, " + "and " + "prediction " + "methods.\n"
      + "2. " + "Write " + "only " + "executable " + "Python " + "code " + "for " + "anomaly " + "detection " + "using " + "PyGOD " + "and " + "do " + "not " + "include " + "any " + "explanations " + "or " + "descriptions.\n"
      + "3. " + "Base " + "your " + "code " + "strictly " + "on " + "the " + "following " + "official " + "documentation " + "excerpt:\n"
      + "\n"
      + "--- " + "BEGIN " + "DOCUMENTATION " + "---\n"
    case 2 =>
      "\n"
      + "--- " + "END " + "DOCUMENTATION " + "---\n"
      + "\n"
      + "4. " + "The " + "code " + "should:\n"
      + "   " + "(1) " + "Import " + "sys, " + "os, " + "torch, " + "and " + "include " + "the " + "command " + "`sys.path.append" + "(os.path.abspath" + "(os.path.join(os" + ".path.dirname(__" + "file__), " + "'..')))`&`from " + "pygod.detector " + "import "
    case 3 =>
      "`\n"
      + "   " + "(2) " + "Load " + "training " + "and " + "test " + "data " + "using " + "`torch.load` " + "with " + "parameter " + "`weights_only=Fa" + "lse` " + "from " + "the " + "file " + "paths " + "`"
    case 4 =>
      "` " + "and " + "`"
    case 5 =>
      "` " + "respectively.\n"
      + "   " + "(3) " + "Convert " + "labels " + "in " + "the " + "loaded " + "data " + "by " + "executing:\n"
      + "       " + "`train_data.y " + "= " + "(train_data.y " + "!= " + "0).long()`\n"
      + "       " + "`test_data.y " + "= " + "(test_data.y " + "!= " + "0).long()`\n"
      + "   " + "(4) " + "Initialize " + "the " + "specified " + "algorithm " + "`"
    case 6 =>
      "` " + "with " + "the " + "provided " + "parameters " + "`"
    case 7 =>
      "` " + "(if " + "applicable) " + "strictly " + "following " + "the " + "documentation " + "excerpt.\n"
      + "   " + "(5) " + "Train " + "the " + "model " + "using " + "`model.fit(train" + "_data)`.\n"
      + "   " + "(6) " + "Predict " + "on " + "the " + "test " + "data " + "using " + "`pred, " + "score " + "= " + "model.predict(te" + "st_data, " + "return_score=Tru" + "e)`.\n"
      + "   " + "(7) " + "Extract " + "the " + "true " + "labels " + "and " + "corresponding " + "scores " + "using " + "the " + "test " + "mask:\n"
      + "       " + "`true_labels " + "= " + "test_data.y[test" + "_data.test_mask]`\n"
      + "       " + "`score " + "= " + "score[test_data." + "test_mask]`\n"
      + "   " + "(8) " + "Calculate " + "AUROC " + "using " + "`roc_auc_score` " + "and " + "AUPRC " + "using " + "`average_precisi" + "on_score` " + "from " + "sklearn.metrics.\n"
      + "   " + "(9) " + "Print " + "the " + "AUROC " + "and " + "AUPRC " + "in " + "the " + "following " + "format:\n"
      + "       " + "AUROC:\\s*(\\d+.\\d+)\n"
      + "       " + "AUPRC:\\s*(\\d+.\\d+)\n"
      + "\n"
      + "IMPORTANT:\n"
      + "- " + "Strictly " + "follow " + "steps " + "(2)-(9) " + "to " + "load " + "the " + "data " + "from " + "`"
    case 8 =>
      "` " + "and " + "`"
    case _ =>
      "`.\n"
      + "- " + "Do " + "NOT " + "include " + "any " + "additional " + "or " + "incorrect " + "parameters.\n"
  }

  /** The placeholders of `template_pygod`, in order of occurrence. */
  const PygodHoles: seq<string> := ["algorithm", "algorithm_doc", "algorithm", "data_path_train", "data_path_test", "algorithm", "parameters", "data_path_train", "data_path_test"]

  /** The literal pieces of `template_pygod`, in order. */
  function PygodTexts(): seq<string> { seq(10, k requires 0 <= k < 10 => PygodText(k)) }

  /** `template_pygod`. */
  const PygodTemplate: Template := Interleave(PygodTexts(), PygodHoles)

  /** The k-th literal piece of `template_fix` (agents/agent_coder.py:87-105). */
  function FixText(k: nat): string
    requires k < 5
  {
    match k
    case 0 =>
      "\n"
      + "You " + "are " + "an " + "expert " + "Python " + "developer " + "with " + "deep " + "experience " + "in " + "anomaly " + "detection " + "libraries.\n"
      + "\n"
      + "Here " + "is " + "the " + "original " + "code " + "that " + "raised " + "an " + "error:\n"
      + "--- " + "Original " + "Code " + "---\n"
    case 1 =>
      "\n"
      + "\n"
      + "--- " + "Error " + "Message " + "---\n"
    case 2 =>
      "\n"
      + "\n"
      + "Official " + "documentation " + "for " + "`"
    case 3 =>
      "`:\n"
      + "--- " + "BEGIN " + "DOCUMENTATION " + "---\n"
    case _ =>
      "\n"
      + "--- " + "END " + "DOCUMENTATION " + "---\n"
      + "\n"
      + "Task:\n"
      + "1. " + "Analyse " + "the " + "error " + "and " + "fix " + "it " + "strictly " + "according " + "to " + "the " + "doc.\n"
      + "2. " + "Output " + "**executable** " + "Python " + "ONLY, " + "no " + "comments/explana" + "tions.\n"
  }

  /** The placeholders of `template_fix`, in order of occurrence. */
  const FixHoles: seq<string> := ["code", "error_message", "algorithm", "algorithm_doc"]

  /** The literal pieces of `template_fix`, in order. */
  function FixTexts(): seq<string> { seq(5, k requires 0 <= k < 5 => FixText(k)) }

  /** `template_fix`. */
  const FixTemplate: Template := Interleave(FixTexts(), FixHoles)
  /** The template for `package_name`: the PyOD one for exactly "pyod", the
      PyGOD one for anything else. */
  function SelectTemplate(packageName: string): Template {
    if packageName == "pyod" then PyodTemplate else PygodTemplate
  }

  /** The PyOD template has exactly the placeholders generation binds. */
  lemma PyodPlaceholders()
    ensures Placeholders(PyodTemplate) == GenerationPlaceholders
  {
    InterleavePlaceholders(PyodTexts(), PyodHoles);
  }

  /** The PyGOD template has exactly the placeholders generation binds. */
  lemma PygodPlaceholders()
    ensures Placeholders(PygodTemplate) == GenerationPlaceholders
  {
    InterleavePlaceholders(PygodTexts(), PygodHoles);
  }

  /** The repair template has exactly the placeholders repair binds. */
  lemma FixPlaceholders()
    ensures Placeholders(FixTemplate) == RepairPlaceholders
  {
    InterleavePlaceholders(FixTexts(), FixHoles);
  }

  /** Exactly "pyod" selects the PyOD template; every other name the PyGOD one. */
  lemma SelectTemplateIff(packageName: string)
    ensures SelectTemplate(packageName) == PyodTemplate <==> packageName == "pyod"
    ensures SelectTemplate(packageName) == PygodTemplate <==> packageName != "pyod"
  {
    assert |PyodTemplate| != |PygodTemplate|;
  }

  /** Whatever the package name, the selected template has exactly the
      placeholders generation binds. */
  lemma SelectTemplatePlaceholders(packageName: string)
    ensures Placeholders(SelectTemplate(packageName)) == GenerationPlaceholders
  {
    PyodPlaceholders();
    PygodPlaceholders();
  }
}
