/** The records the loop passes between its steps: the task, the hypothesis,
    the feedback, the experiment that the runner fills in place, and the
    trace of past attempts. */
module Experiment {
  import opened Wrappers

  // ---------------------------------------------------------------------
  // FHETask
  // ---------------------------------------------------------------------

  const TaskName: string := "eval_implementation"

  /** What `get_task_information` puts before the plan. */
  const TaskHeader: string := "FHE eval() implementation\nAlgorithm Plan:\n"

  /** One eval() implementation task; its plan is fixed at construction. */
  datatype FHETask = FHETask(algorithmPlan: string) {
    function Name(): string {
      TaskName
    }

    function Description(): string {
      algorithmPlan
    }

    /** `get_task_information`: the fixed header, then the plan verbatim. */
    function TaskInformation(): (r: string)
      ensures |r| == |TaskHeader| + |algorithmPlan|
      ensures r[..|TaskHeader|] == TaskHeader
      ensures r[|TaskHeader|..] == algorithmPlan
    {
      TaskHeader + algorithmPlan
    }
  }

  /** Every task is named `eval_implementation` and described by its plan. */
  lemma TaskFields(plan: string)
    ensures FHETask(plan).Name() == "eval_implementation"
    ensures FHETask(plan).Description() == plan
  {
  }

  /** The task information determines the plan: two tasks have the same
      information exactly when they have the same plan. */
  lemma TaskInformationInjective(a: FHETask, b: FHETask)
    ensures a.TaskInformation() == b.TaskInformation() <==> a == b
  {
    if a.TaskInformation() == b.TaskInformation() {
      assert a.algorithmPlan == a.TaskInformation()[|TaskHeader|..];
    }
  }

  // ---------------------------------------------------------------------
  // Hypothesis, feedback and exceptions
  // ---------------------------------------------------------------------

  /** A proposed algorithm plan (`FHEHypothesis`): the plan, the full
      reasoning and its short form. */
  datatype FHEHypothesis = FHEHypothesis(algorithm: string, reason: string, conciseReason: string)

  /** `ExperimentFeedback`: the explanation and whether the attempt passed. */
  datatype Feedback = Feedback(reason: string, decision: bool)

  /** The exceptions a step can raise: `CoderError` from the coder, a
      `ValueError` from a malformed accuracy number. */
  datatype Raised = CoderError(message: string) | ValueError(message: string)

  // ---------------------------------------------------------------------
  // FHEExperiment
  // ---------------------------------------------------------------------

  /** The fields the runner writes and the evaluator reads. */
  datatype RunState = RunState(
    dockerOutput: string,
    buildSuccess: bool,
    runSuccess: bool,
    accuracy: Option<real>,
    errorMessage: string)

  /** The state of an experiment no run has touched yet. */
  const FreshRunState: RunState := RunState("", false, false, None, "")

  /** One experiment: its task, its hypothesis, the files of its workspace
      and the results of the Docker run, which the runner updates in
      place. */
  class FHEExperiment {
    var subTasks: seq<FHETask>
    var hypothesis: Option<FHEHypothesis>
    var fileDict: map<string, string>
    var dockerOutput: string
    var buildSuccess: bool
    var runSuccess: bool
    var accuracy: Option<real>
    var errorMessage: string

    /** A new experiment has an empty workspace and neither built nor ran. */
    constructor (tasks: seq<FHETask>, hypothesis: Option<FHEHypothesis>)
      ensures subTasks == tasks && this.hypothesis == hypothesis
      ensures fileDict == map[]
      ensures State() == FreshRunState
    {
      subTasks := tasks;
      this.hypothesis := hypothesis;
      fileDict := map[];
      dockerOutput := "";
      buildSuccess := false;
      runSuccess := false;
      accuracy := None;
      errorMessage := "";
    }

    /** The run results as one value. */
    function State(): RunState
      reads this
    {
      RunState(dockerOutput, buildSuccess, runSuccess, accuracy, errorMessage)
    }

    /** `inject_files` for one file: the workspace now maps `name` to
        `content`, and nothing else changes. */
    method InjectFile(name: string, content: string)
      modifies this
      ensures fileDict == old(fileDict)[name := content]
      ensures State() == old(State())
      ensures subTasks == old(subTasks) && hypothesis == old(hypothesis)
    {
      fileDict := fileDict[name := content];
    }
  }

  // ---------------------------------------------------------------------
  // Trace
  // ---------------------------------------------------------------------

  /** The history of attempts: pairs of experiment and feedback, with one
      parent entry per attempt. */
  class Trace {
    var hist: seq<(FHEExperiment, Feedback)>
    var dagParent: seq<seq<nat>>

    /** Every attempt has its parent entry. */
    predicate Valid()
      reads this
    {
      |hist| == |dagParent|
    }

    constructor ()
      ensures hist == [] && dagParent == []
      ensures Valid()
    {
      hist := [];
      dagParent := [];
    }
  }

  /** What the history shows of one attempt: its hypothesis and its
      feedback. */
  datatype AttemptView = AttemptView(hypothesis: Option<FHEHypothesis>, feedback: Feedback)

  /** The objects a history refers to. */
  function HistObjects(hist: seq<(FHEExperiment, Feedback)>): set<object> {
    set k | 0 <= k < |hist| :: hist[k].0
  }

  /** The hypotheses and feedbacks of a history, read from its
      experiments. */
  function Views(hist: seq<(FHEExperiment, Feedback)>): (r: seq<AttemptView>)
    reads HistObjects(hist)
    ensures |r| == |hist|
    ensures forall k :: 0 <= k < |hist| ==> r[k] == AttemptView(hist[k].0.hypothesis, hist[k].1)
  {
    seq(|hist|, k requires 0 <= k < |hist| reads HistObjects(hist) => AttemptView(hist[k].0.hypothesis, hist[k].1))
  }
}
