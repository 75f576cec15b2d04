/** The run summary: one pass over the logged messages of a run,
    collecting the loop count, the passes, the best accuracy and the
    per-loop results. */
module Summary {
  import opened Wrappers
  import opened Text
  import opened Experiment

  // ---------------------------------------------------------------------
  // Logged messages
  // ---------------------------------------------------------------------

  /** What a logged message carries, by the type the summary checks for:
      the settings dictionary, a hypothesis, a run experiment, a feedback,
      or anything else. */
  datatype Content =
    | Settings(fields: map<string, string>)
    | Plan(hypothesis: FHEHypothesis)
    | Ran(run: RunState)
    | Judged(feedback: Feedback)
    | Other

  /** A logged message: its tag, the loop id read from the tag, and its
      content. */
  datatype Message = Message(tag: string, loopId: Option<nat>, content: Content)

  const SettingsTag: string := "FHE_SETTINGS"
  const PlanStep: string := "direct_exp_gen"
  const PlanTag: string := "hypothesis"
  const RunStep: string := "running"
  const RunTag: string := "run_experiment"
  const FeedbackTag: string := "feedback"
  const EvolvingTag: string := "evolving"
  const DirKey: string := "challenge_dir"
  const TypeKey: string := "challenge_type"
  const UnknownType: string := "unknown"
  const PlanPreview: nat := 300

  predicate IsSettings(m: Message) {
    m.tag != "" && Contains(m.tag, SettingsTag) && m.content.Settings?
  }

  predicate IsPlan(m: Message) {
    m.tag != "" && m.loopId.Some? && Contains(m.tag, PlanStep) && Contains(m.tag, PlanTag) && m.content.Plan?
  }

  predicate IsRun(m: Message) {
    m.tag != "" && m.loopId.Some? && Contains(m.tag, RunStep) && Contains(m.tag, RunTag) && m.content.Ran?
  }

  predicate IsVerdict(m: Message) {
    m.tag != "" && m.loopId.Some? && Contains(m.tag, FeedbackTag) && !Contains(m.tag, EvolvingTag) && m.content.Judged?
  }

  /** A verdict that passed. */
  predicate Passes(m: Message) {
    IsVerdict(m) && m.content.feedback.decision
  }

  // ---------------------------------------------------------------------
  // _summarize_one_run
  // ---------------------------------------------------------------------

  /** The running state of the pass over the messages. */
  datatype RunSummary = RunSummary(
    loopNum: nat,
    passNum: nat,
    bestAccuracy: Option<real>,
    challengeName: Option<string>,
    challengeType: Option<string>,
    accuracies: map<nat, Option<real>>,
    buildOk: map<nat, bool>,
    runOk: map<nat, bool>,
    decisions: map<nat, bool>,
    algorithms: map<nat, string>)

  const Start: RunSummary := RunSummary(0, 0, None, None, None, map[], map[], map[], map[], map[])

  function Max(a: nat, b: nat): nat {
    if a < b then b else a
  }

  /** The better of the best accuracy so far and a new one. */
  function Better(best: Option<real>, acc: Option<real>): Option<real> {
    if acc.None? then best
    else if best.None? || acc.value > best.value then acc
    else best
  }

  /** `x or None` for a string. */
  function NonEmpty(x: string): Option<string> {
    if x == "" then None else Some(x)
  }

  /** `d.get(key, default)` */
  function Get(d: map<string, string>, key: string, default: string): string {
    if key in d then d[key] else default
  }

  /** The effect of one message, field by field. The message kinds
      exclude one another, so at most one of the fields past the loop
      count changes. */
  function Step(s: RunSummary, m: Message): RunSummary {
    RunSummary(
      LoopNumAfter(s.loopNum, m),
      PassNumAfter(s.passNum, m),
      BestAfter(s.bestAccuracy, m),
      if IsSettings(m) then NonEmpty(PathName(Get(m.content.fields, DirKey, ""))) else s.challengeName,
      if IsSettings(m) then (if TypeKey in m.content.fields then Some(m.content.fields[TypeKey]) else None) else s.challengeType,
      if IsRun(m) then s.accuracies[m.loopId.value := m.content.run.accuracy] else s.accuracies,
      if IsRun(m) then s.buildOk[m.loopId.value := m.content.run.buildSuccess] else s.buildOk,
      if IsRun(m) then s.runOk[m.loopId.value := m.content.run.runSuccess] else s.runOk,
      if IsVerdict(m) then s.decisions[m.loopId.value := m.content.feedback.decision] else s.decisions,
      if IsPlan(m) then s.algorithms[m.loopId.value := Take(m.content.hypothesis.algorithm, PlanPreview)] else s.algorithms)
  }

  /** Every message with a loop id raises the loop count past it. */
  function LoopNumAfter(n: nat, m: Message): nat {
    if m.loopId.Some? then Max(m.loopId.value + 1, n) else n
  }

  function PassNumAfter(n: nat, m: Message): nat {
    if Passes(m) then n + 1 else n
  }

  function BestAfter(best: Option<real>, m: Message): Option<real> {
    if IsRun(m) then Better(best, m.content.run.accuracy) else best
  }

  /** The state after the first `n` messages. */
  function Fold(msgs: seq<Message>, n: nat): RunSummary
    requires n <= |msgs|
  {
    if n == 0 then Start else Step(Fold(msgs, n - 1), msgs[n - 1])
  }

  /** The summary a run reports. */
  datatype RunReport = RunReport(
    challengeName: string,
    challengeType: string,
    loopNum: nat,
    passNum: nat,
    bestAccuracy: Option<real>,
    accuracies: map<nat, Option<real>>,
    buildOk: map<nat, bool>,
    runOk: map<nat, bool>,
    decisions: map<nat, bool>,
    algorithms: map<nat, string>)

  /** `x or fallback` for an optional string. */
  function OrElse(x: Option<string>, fallback: string): string {
    if x.Some? && x.value != "" then x.value else fallback
  }

  /** The returned dictionary: the collected state, with the run
      directory's name and "unknown" standing in for a missing challenge
      name and type. */
  function Report(s: RunSummary, runName: string): (r: RunReport)
    ensures r.challengeName == (if s.challengeName.Some? && s.challengeName.value != "" then s.challengeName.value else runName)
    ensures r.challengeType == (if s.challengeType.Some? && s.challengeType.value != "" then s.challengeType.value else UnknownType)
    ensures r.challengeName != "" || runName == ""
  {
    RunReport(OrElse(s.challengeName, runName), OrElse(s.challengeType, UnknownType), s.loopNum, s.passNum,
              s.bestAccuracy, s.accuracies, s.buildOk, s.runOk, s.decisions, s.algorithms)
  }

  /** One message's work in `_summarize_one_run`'s loop. */
  method Absorb(s: RunSummary, m: Message) returns (r: RunSummary)
    ensures r == Step(s, m)
  {
    r := s;
    if m.loopId.Some? {
      r := r.(loopNum := Max(m.loopId.value + 1, r.loopNum));
    }
    if m.tag == "" {
      return;
    }
    match m.content {
      case Settings(fields) =>
        if Contains(m.tag, SettingsTag) {
          r := r.(challengeName := NonEmpty(PathName(Get(fields, DirKey, ""))),
                  challengeType := if TypeKey in fields then Some(fields[TypeKey]) else None);
        }
      case Plan(h) =>
        if m.loopId.Some? && Contains(m.tag, PlanStep) && Contains(m.tag, PlanTag) {
          r := r.(algorithms := r.algorithms[m.loopId.value := Take(h.algorithm, PlanPreview)]);
        }
      case Ran(run) =>
        if m.loopId.Some? && Contains(m.tag, RunStep) && Contains(m.tag, RunTag) {
          var l := m.loopId.value;
          r := r.(accuracies := r.accuracies[l := run.accuracy], buildOk := r.buildOk[l := run.buildSuccess],
                  runOk := r.runOk[l := run.runSuccess]);
          if run.accuracy.Some? {
            if r.bestAccuracy.None? || run.accuracy.value > r.bestAccuracy.value {
              r := r.(bestAccuracy := run.accuracy);
            }
          }
        }
      case Judged(fb) =>
        if m.loopId.Some? && Contains(m.tag, FeedbackTag) && !Contains(m.tag, EvolvingTag) {
          r := r.(decisions := r.decisions[m.loopId.value := fb.decision]);
          if fb.decision {
            r := r.(passNum := r.passNum + 1);
          }
        }
      case Other =>
    }
  }

  /** `_summarize_one_run`: one pass over the run's messages. `runName`
      is the name of the run's directory. */
  method SummarizeOneRun(msgs: seq<Message>, runName: string) returns (r: RunReport)
    ensures r == Report(Fold(msgs, |msgs|), runName)
  {
    var s := Start;
    for i := 0 to |msgs|
      invariant s == Fold(msgs, i)
    {
      s := Absorb(s, msgs[i]);
    }
    r := Report(s, runName);
  }

  /** `_print_summary`'s verdict on a run. */
  function Solved(r: RunReport): bool {
    r.passNum > 0
  }

  // ---------------------------------------------------------------------
  // What the pass computes
  // ---------------------------------------------------------------------

  /** The loop count is one more than the largest loop id of any message,
      or 0 when no message has one. */
  lemma {:induction false} LoopNumIsMaxPlusOne(msgs: seq<Message>, n: nat)
    requires n <= |msgs|
    ensures var num := Fold(msgs, n).loopNum;
      && (forall k :: 0 <= k < n && msgs[k].loopId.Some? ==> msgs[k].loopId.value < num)
      && (num == 0 <==> forall k :: 0 <= k < n ==> msgs[k].loopId.None?)
      && (num > 0 ==> exists k :: 0 <= k < n && msgs[k].loopId == Some(num - 1))
  {
    if n > 0 {
      LoopNumIsMaxPlusOne(msgs, n - 1);
      var num := Fold(msgs, n).loopNum;
      var prev := Fold(msgs, n - 1).loopNum;
      if msgs[n - 1].loopId.Some? && msgs[n - 1].loopId.value + 1 >= prev {
        assert msgs[n - 1].loopId == Some(num - 1);
      } else if prev > 0 {
        var k :| 0 <= k < n - 1 && msgs[k].loopId == Some(prev - 1);
        assert msgs[k].loopId == Some(num - 1);
      }
    }
  }

  /** The best accuracy is the largest accuracy any run message reports,
      or None when none reports one. */
  lemma {:induction false} BestAccuracyIsMax(msgs: seq<Message>, n: nat)
    requires n <= |msgs|
    ensures var best := Fold(msgs, n).bestAccuracy;
      && (best.None? <==> forall k :: 0 <= k < n && IsRun(msgs[k]) ==> msgs[k].content.run.accuracy.None?)
      && (best.Some? ==> forall k :: 0 <= k < n && IsRun(msgs[k]) && msgs[k].content.run.accuracy.Some? ==>
                           msgs[k].content.run.accuracy.value <= best.value)
      && (best.Some? ==> exists k :: 0 <= k < n && IsRun(msgs[k]) && msgs[k].content.run.accuracy == best)
  {
    if n > 0 {
      BestAccuracyIsMax(msgs, n - 1);
      var best := Fold(msgs, n).bestAccuracy;
      var prev := Fold(msgs, n - 1).bestAccuracy;
      if best != prev {
        assert best == msgs[n - 1].content.run.accuracy;
      } else if prev.Some? {
        var k :| 0 <= k < n - 1 && IsRun(msgs[k]) && msgs[k].content.run.accuracy == prev;
        assert IsRun(msgs[k]) && msgs[k].content.run.accuracy == best;
      }
    }
  }

  /** The indices of the passing verdicts among the first `n` messages. */
  function PassingAt(msgs: seq<Message>, n: nat): set<nat>
    requires n <= |msgs|
  {
    set k: nat | k < n && Passes(msgs[k])
  }

  /** One more message adds its own index when it passes. */
  lemma PassingAtStep(msgs: seq<Message>, n: nat)
    requires 0 < n <= |msgs|
    ensures |PassingAt(msgs, n)| == if Passes(msgs[n - 1]) then |PassingAt(msgs, n - 1)| + 1 else |PassingAt(msgs, n - 1)|
  {
    if Passes(msgs[n - 1]) {
      assert PassingAt(msgs, n) == PassingAt(msgs, n - 1) + {n - 1};
    } else {
      assert PassingAt(msgs, n) == PassingAt(msgs, n - 1);
    }
  }

  /** The pass count is the number of passing verdicts. */
  lemma {:induction false} PassNumCounts(msgs: seq<Message>, n: nat)
    requires n <= |msgs|
    ensures Fold(msgs, n).passNum == |PassingAt(msgs, n)|
  {
    if n > 0 {
      PassNumCounts(msgs, n - 1);
      PassingAtStep(msgs, n);
      assert Fold(msgs, n).passNum == PassNumAfter(Fold(msgs, n - 1).passNum, msgs[n - 1]);
    }
  }

  /** The pass count is 0 exactly when no verdict passed. */
  lemma {:induction false} NoPassesNoCount(msgs: seq<Message>, n: nat)
    requires n <= |msgs|
    ensures Fold(msgs, n).passNum == 0 <==> forall k :: 0 <= k < n ==> !Passes(msgs[k])
  {
    if n > 0 {
      NoPassesNoCount(msgs, n - 1);
      assert Fold(msgs, n).passNum == PassNumAfter(Fold(msgs, n - 1).passNum, msgs[n - 1]);
    }
  }

  /** A run is reported solved exactly when some verdict passed. */
  lemma SolvedIffPassed(msgs: seq<Message>, runName: string)
    ensures Solved(Report(Fold(msgs, |msgs|), runName)) <==> exists k :: 0 <= k < |msgs| && Passes(msgs[k])
  {
    NoPassesNoCount(msgs, |msgs|);
    var s := Fold(msgs, |msgs|);
    assert Report(s, runName).passNum == s.passNum;
  }

  /** Which messages are verdicts for loop `l`. */
  function VerdictsFor(msgs: seq<Message>, l: nat): (r: seq<bool>)
    ensures |r| == |msgs|
  {
    seq(|msgs|, k requires 0 <= k < |msgs| => IsVerdict(msgs[k]) && msgs[k].loopId == Some(l))
  }

  /** The verdict recorded for a loop is that of the last verdict message
      for it, and there is none when no verdict names the loop. */
  lemma {:induction false} DecisionLastWins(msgs: seq<Message>, n: nat, l: nat)
    requires n <= |msgs|
    ensures var ds := Fold(msgs, n).decisions;
      var last := LastSet(VerdictsFor(msgs, l), n);
      && (l in ds <==> last.Some?)
      && (l in ds ==> ds[l] == msgs[last.value].content.feedback.decision)
  {
    if n > 0 {
      DecisionLastWins(msgs, n - 1, l);
    }
  }

  /** Which messages are runs for loop `l`. */
  function RunsFor(msgs: seq<Message>, l: nat): (r: seq<bool>)
    ensures |r| == |msgs|
  {
    seq(|msgs|, k requires 0 <= k < |msgs| => IsRun(msgs[k]) && msgs[k].loopId == Some(l))
  }

  /** The accuracy recorded for a loop is that of the last run message
      for it, None included, and there is none when no run names the
      loop. */
  lemma {:induction false} AccuracyLastWins(msgs: seq<Message>, n: nat, l: nat)
    requires n <= |msgs|
    ensures var acc := Fold(msgs, n).accuracies;
      var last := LastSet(RunsFor(msgs, l), n);
      && (l in acc <==> last.Some?)
      && (l in acc ==> acc[l] == msgs[last.value].content.run.accuracy)
  {
    if n > 0 {
      AccuracyLastWins(msgs, n - 1, l);
    }
  }

  /** Without a settings message the report falls back to the run
      directory's name and an unknown type. */
  lemma {:induction false} NoSettingsFallback(msgs: seq<Message>, n: nat, runName: string)
    requires n <= |msgs|
    requires forall k :: 0 <= k < n ==> !IsSettings(msgs[k])
    ensures Fold(msgs, n).challengeName.None? && Fold(msgs, n).challengeType.None?
    ensures Report(Fold(msgs, n), runName).challengeName == runName
    ensures Report(Fold(msgs, n), runName).challengeType == UnknownType
  {
    if n > 0 {
      NoSettingsFallback(msgs, n - 1, runName);
    }
  }
}
