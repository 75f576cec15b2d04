/** The agent loop's settings and the bodies of its `feedback` and
    `record` steps. */
module Loop {
  import opened Wrappers
  import opened Experiment
  import opened Evaluator
  import opened Scenario

  // ---------------------------------------------------------------------
  // FHEPropSetting and main's overrides
  // ---------------------------------------------------------------------

  const DefaultBuildTimeout: int := 600
  const DefaultRunTimeout: int := 600
  const DefaultMaxLoops: int := 20

  /** The settings as one value. */
  datatype SettingValues = SettingValues(
    challengeDir: string,
    buildTimeout: int,
    runTimeout: int,
    maxLoops: int,
    accuracyThreshold: real)

  /** The settings before anything overrides them. */
  const Defaults: SettingValues :=
    SettingValues("", DefaultBuildTimeout, DefaultRunTimeout, DefaultMaxLoops, DefaultAccuracyThreshold)

  /** The command-line options of `main` that touch the settings. */
  datatype CommandLine = CommandLine(
    challengeDir: string,
    buildTimeout: int,
    runTimeout: int,
    accuracyThreshold: real)

  /** `main` called with no options. */
  const NoOptions: CommandLine := CommandLine("", DefaultBuildTimeout, DefaultRunTimeout, DefaultAccuracyThreshold)

  /** The settings after `main`'s overrides: an option replaces a setting
      only when it differs from the option's default. */
  function Overridden(s: SettingValues, cli: CommandLine): SettingValues {
    SettingValues(
      if cli.challengeDir != "" then cli.challengeDir else s.challengeDir,
      if cli.buildTimeout != DefaultBuildTimeout then cli.buildTimeout else s.buildTimeout,
      if cli.runTimeout != DefaultRunTimeout then cli.runTimeout else s.runTimeout,
      s.maxLoops,
      if cli.accuracyThreshold != DefaultAccuracyThreshold then cli.accuracyThreshold else s.accuracyThreshold)
  }

  /** An option left at its default never overrides a setting, even one
      the environment moved away from the default; the loop limit is never
      touched. */
  lemma OverrideRule(s: SettingValues, cli: CommandLine)
    ensures var r := Overridden(s, cli);
      && (cli.challengeDir != "" ==> r.challengeDir == cli.challengeDir)
      && (cli.challengeDir == "" ==> r.challengeDir == s.challengeDir)
      && (r.buildTimeout == s.buildTimeout || r.buildTimeout == cli.buildTimeout != DefaultBuildTimeout)
      && (r.runTimeout == s.runTimeout || r.runTimeout == cli.runTimeout != DefaultRunTimeout)
      && (r.accuracyThreshold == s.accuracyThreshold || r.accuracyThreshold == cli.accuracyThreshold != DefaultAccuracyThreshold)
      && (cli.buildTimeout == DefaultBuildTimeout ==> r.buildTimeout == s.buildTimeout)
      && (cli.runTimeout == DefaultRunTimeout ==> r.runTimeout == s.runTimeout)
      && (cli.accuracyThreshold == DefaultAccuracyThreshold ==> r.accuracyThreshold == s.accuracyThreshold)
      && r.maxLoops == s.maxLoops
  {
  }

  /** No options leave the settings as they are, and applying the same
      options twice is applying them once. */
  lemma OverrideIdempotent(s: SettingValues, cli: CommandLine)
    ensures Overridden(s, NoOptions) == s
    ensures Overridden(Overridden(s, cli), cli) == Overridden(s, cli)
  {
  }

  /** `main` refuses to start exactly when neither the command line nor the
      settings name a challenge directory. */
  lemma LaunchGuard(s: SettingValues, cli: CommandLine)
    ensures Overridden(s, cli).challengeDir == "" <==> cli.challengeDir == "" && s.challengeDir == ""
  {
  }

  /** The global settings object that `main` updates in place. */
  class FHEPropSetting {
    var challengeDir: string
    var buildTimeout: int
    var runTimeout: int
    var maxLoops: int
    var accuracyThreshold: real

    constructor ()
      ensures Values() == Defaults
    {
      challengeDir := "";
      buildTimeout := DefaultBuildTimeout;
      runTimeout := DefaultRunTimeout;
      maxLoops := DefaultMaxLoops;
      accuracyThreshold := DefaultAccuracyThreshold;
    }

    function Values(): SettingValues
      reads this
    {
      SettingValues(challengeDir, buildTimeout, runTimeout, maxLoops, accuracyThreshold)
    }

    /** The start of `main`: apply the options, then insist on a challenge
        directory. */
    method ApplyCommandLine(cli: CommandLine) returns (r: Outcome<Raised>)
      modifies this
      ensures Values() == Overridden(old(Values()), cli)
      ensures r.Fail? <==> challengeDir == ""
      ensures r.Fail? ==> r.error == ValueError(MissingDirMessage)
    {
      if cli.challengeDir != "" {
        challengeDir := cli.challengeDir;
      }
      if cli.buildTimeout != DefaultBuildTimeout {
        buildTimeout := cli.buildTimeout;
      }
      if cli.runTimeout != DefaultRunTimeout {
        runTimeout := cli.runTimeout;
      }
      if cli.accuracyThreshold != DefaultAccuracyThreshold {
        accuracyThreshold := cli.accuracyThreshold;
      }
      if challengeDir == "" {
        return Fail(ValueError(MissingDirMessage));
      }
      return Pass;
    }
  }

  const MissingDirMessage: string :=
    "Please specify --challenge-dir or set FHE_CHALLENGE_DIR environment variable.\n"
    + "Example: rdagent fhe_challenge --challenge-dir ../fhe_challenge/white_box/openfhe/challenge_max"
  const UnsetDirMessage: string := "FHEPropSetting.challenge_dir must be set before creating FHERDLoop"

  // ---------------------------------------------------------------------
  // The step outputs and the choice of experiment
  // ---------------------------------------------------------------------

  /** What the earlier steps of one iteration left behind: the exception
      that cut the iteration short, if any, and each step's result. */
  datatype StepOutputs = StepOutputs(
    exception: Option<Raised>,
    directExpGen: Option<FHEExperiment>,
    coding: Option<FHEExperiment>,
    running: Option<FHEExperiment>,
    feedback: Option<Feedback>)

  /** The experiment `record` keeps: the latest step's, falling back to
      the proposal only when an exception cut the iteration short. */
  function SelectExperiment(out: StepOutputs): Option<FHEExperiment> {
    if out.running.Some? then out.running
    else if out.coding.Some? then out.coding
    else if out.exception.Some? then out.directExpGen
    else None
  }

  /** An experiment is kept whenever a step that counts produced one, and
      the most advanced one wins. */
  lemma SelectExperimentPreference(out: StepOutputs)
    ensures var r := SelectExperiment(out);
      && (r.Some? <==> out.running.Some? || out.coding.Some? || (out.exception.Some? && out.directExpGen.Some?))
      && (out.running.Some? ==> r == out.running)
      && (out.running.None? && out.coding.Some? ==> r == out.coding)
      && (r.Some? ==> r == out.running || r == out.coding || r == out.directExpGen)
      && (out.exception.None? && out.running.None? && out.coding.None? ==> r.None?)
  {
  }

  // ---------------------------------------------------------------------
  // The feedback step
  // ---------------------------------------------------------------------

  /** The `feedback` step as a value: the exception's own feedback when
      one was raised, the evaluator's verdict on the run otherwise. */
  function StepFeedback(exception: Option<Raised>, run: Option<RunState>, threshold: real, sota: Option<real>,
                        fromException: Raised -> Feedback): Feedback
    requires exception.None? ==> run.Some?
  {
    if exception.Some? then fromException(exception.value)
    else GenerateFeedback(run.value, threshold, sota)
  }

  /** After an exception the evaluator is not consulted: the run, the
      threshold and the best accuracy so far make no difference. */
  lemma ExceptionBypassesEvaluator(e: Raised, run: Option<RunState>, run': Option<RunState>, threshold: real,
                                   threshold': real, sota: Option<real>, sota': Option<real>,
                                   fromException: Raised -> Feedback)
    ensures StepFeedback(Some(e), run, threshold, sota, fromException)
         == StepFeedback(Some(e), run', threshold', sota', fromException)
  {
  }

  /** Without an exception the step passes exactly when the run built, ran
      and reached the threshold. */
  lemma StepFeedbackDecision(run: RunState, threshold: real, sota: Option<real>, fromException: Raised -> Feedback)
    ensures StepFeedback(None, Some(run), threshold, sota, fromException).decision
      <==> run.buildSuccess && run.runSuccess && run.accuracy.Some? && run.accuracy.value >= threshold
  {
  }

  // ---------------------------------------------------------------------
  // FHERDLoop
  // ---------------------------------------------------------------------

  /** Every attempt in the trace is a root of the attempt graph. */
  predicate AllRoots(trace: Trace)
    reads trace
  {
    forall k :: 0 <= k < |trace.dagParent| ==> trace.dagParent[k] == []
  }

  /** The loop: its scenario, the evaluator's threshold and the trace it
      grows. */
  class FHERDLoop {
    const scen: FHEScenario
    const threshold: real
    const trace: Trace

    constructor (scen: FHEScenario, threshold: real)
      ensures this.scen == scen && this.threshold == threshold
      ensures fresh(trace) && trace.hist == [] && trace.dagParent == []
    {
      this.scen := scen;
      this.threshold := threshold;
      trace := new Trace();
    }

    /** `FHERDLoop.__init__`: refuses a setting without a challenge
        directory, and otherwise starts from an empty trace. `scen` is the
        scenario read from that directory. */
    static method New(setting: FHEPropSetting, scen: FHEScenario) returns (r: Result<FHERDLoop, Raised>)
      ensures r.Failure? <==> setting.challengeDir == ""
      ensures r.Failure? ==> r.error == ValueError(UnsetDirMessage)
      ensures r.Success? ==> fresh(r.value) && fresh(r.value.trace)
      ensures r.Success? ==> r.value.trace.hist == [] && r.value.trace.Valid() && AllRoots(r.value.trace)
      ensures r.Success? ==> r.value.threshold == setting.accuracyThreshold && r.value.scen == scen
    {
      if setting.challengeDir == "" {
        return Failure(ValueError(UnsetDirMessage));
      }
      var loop := new FHERDLoop(scen, setting.accuracyThreshold);
      return Success(loop);
    }

    /** The `feedback` step. `sota` is the accuracy of the trace's best
        experiment, if it has one; `fromException` turns an exception into
        feedback. */
    method FeedbackStep(out: StepOutputs, sota: Option<real>, fromException: Raised -> Feedback) returns (fb: Feedback)
      requires out.exception.None? ==> out.running.Some?
      ensures out.exception.Some? ==> fb == fromException(out.exception.value)
      ensures out.exception.None? ==> fb == StepFeedback(None, Some(out.running.value.State()), threshold, sota, fromException)
      ensures out.exception.None? ==>
        (fb.decision <==> out.running.value.buildSuccess && out.running.value.runSuccess
                          && out.running.value.accuracy.Some? && out.running.value.accuracy.value >= threshold)
    {
      if out.exception.Some? {
        fb := fromException(out.exception.value);
      } else {
        var exp := out.running.value;
        fb := GenerateFeedback(exp.State(), threshold, sota);
      }
    }

    /** The `record` step: the chosen experiment and its feedback join the
        history, with an empty parent entry beside them; without an
        experiment the trace is left alone. */
    method Record(out: StepOutputs)
      requires out.feedback.Some?
      modifies trace
      ensures var exp := SelectExperiment(out);
        && (exp.Some? ==> trace.hist == old(trace.hist) + [(exp.value, out.feedback.value)])
        && (exp.Some? ==> trace.dagParent == old(trace.dagParent) + [[]])
        && (exp.None? ==> trace.hist == old(trace.hist) && trace.dagParent == old(trace.dagParent))
      ensures |trace.hist| - |trace.dagParent| == old(|trace.hist| - |trace.dagParent|)
      ensures old(trace.Valid()) ==> trace.Valid()
      ensures old(AllRoots(trace)) ==> AllRoots(trace)
    {
      var exp: Option<FHEExperiment>;
      if out.exception.Some? {
        exp := if out.running.Some? then out.running
               else if out.coding.Some? then out.coding
               else out.directExpGen;
      } else {
        exp := if out.running.Some? then out.running else out.coding;
      }
      var fb := out.feedback.value;
      if exp.Some? {
        trace.hist := trace.hist + [(exp.value, fb)];
        trace.dagParent := trace.dagParent + [[]];
      }
    }
  }
}
