/** The evaluator: turns the run results of an experiment into feedback,
    a textual explanation and a pass/fail decision. */
module Evaluator {
  import opened Wrappers
  import opened Text
  import opened Experiment

  /** Passing means at least 80% of the slots within tolerance. */
  const DefaultAccuracyThreshold: real := 0.8

  const BuildFailedHeader: string := "Build failed.\n\n"
  const RuntimeErrorHeader: string := "Runtime error.\n\n"
  const UnparsedHeader: string := "Run succeeded but accuracy could not be parsed.\n\n"
  const ErrorLabel: string := "Error:\n"
  const Gap: string := "\n\n"
  const ShortTailLabel: string := "Docker output (last 1000 chars):\n"
  const LongTailLabel: string := "Docker output (last 2000 chars):\n"
  const AccuracyLabel: string := "Accuracy: "
  const ThresholdLabel: string := "Threshold: "
  const StatusLabel: string := "Status: "
  const SotaLabel: string := "\n\nPrevious best accuracy: "

  /** How much of the error message and of the Docker output a reason
      quotes. */
  const ErrorExcerpt: nat := 2000
  const ShortTail: nat := 1000
  const LongTail: nat := 2000

  /** The body of a build or runtime failure: the start of the error
      message and the end of the Docker output. */
  function FailureBody(s: RunState): string {
    ErrorLabel + Take(s.errorMessage, ErrorExcerpt) + Gap + ShortTailLabel + TakeLast(s.dockerOutput, ShortTail)
  }

  /** The body when the run succeeded but no accuracy was found. */
  function UnparsedBody(s: RunState): string {
    ShortTailLabel + TakeLast(s.dockerOutput, ShortTail)
  }

  function Verdict(passed: bool): string {
    if passed then "PASSED" else "FAILED"
  }

  /** `f" ({x * 100:.e}%)"` */
  function AsPercent(x: real, e: nat): string {
    " (" + FormatFixed(x * 100.0, e) + "%)"
  }

  /** The three status lines: accuracy, threshold and verdict. */
  function StatusLines(accuracy: real, threshold: real): string {
    AccuracyLabel + FormatFixed(accuracy, 4) + Figures(accuracy, threshold) + StatusLine(accuracy >= threshold)
  }

  /** The accuracy as a percentage, then the threshold line. */
  function Figures(accuracy: real, threshold: real): string {
    AsPercent(accuracy, 1) + "\n" + ThresholdLabel + FormatFixed(threshold, 2) + AsPercent(threshold, 0) + "\n"
  }

  function StatusLine(passed: bool): string {
    StatusLabel + Verdict(passed) + Gap
  }

  /** What follows the status lines: the end of the output, then the
      note on the best accuracy. */
  function AccuracyTail(s: RunState, sota: Option<real>): string {
    LongTailLabel + TakeLast(s.dockerOutput, LongTail) + SotaNote(sota)
  }

  /** The note on the best accuracy so far, when the best experiment has
      one. */
  function SotaNote(sota: Option<real>): string {
    if sota.Some? then SotaLabel + FormatFixed(sota.value, 4) else ""
  }

  /** `generate_feedback`: a failed build, then a failed run, then a
      missing accuracy each give a failing decision with their own
      explanation; otherwise the decision is whether the accuracy reaches
      the threshold. `sota` is the accuracy of the best experiment so far,
      if it has one. */
  function GenerateFeedback(s: RunState, threshold: real, sota: Option<real>): (r: Feedback)
    ensures r.decision <==> s.buildSuccess && s.runSuccess && s.accuracy.Some? && s.accuracy.value >= threshold
  {
    if !s.buildSuccess then Feedback(BuildFailedHeader + FailureBody(s), false)
    else if !s.runSuccess then Feedback(RuntimeErrorHeader + FailureBody(s), false)
    else if s.accuracy.None? then Feedback(UnparsedHeader + UnparsedBody(s), false)
    else
      var a := s.accuracy.value;
      Feedback(StatusLines(a, threshold) + AccuracyTail(s, sota), a >= threshold)
  }

  lemma StartsWithConcat(a: string, b: string)
    ensures StartsWith(a + b, a)
  {
    assert (a + b)[..|a|] == a;
  }

  lemma EndsWithConcat(a: string, b: string)
    ensures EndsWith(a + b, b)
  {
    assert (a + b)[|a + b| - |b|..] == b;
  }

  lemma PrefixOfPrefix(h: string, x: string, y: string)
    requires StartsWith(x, h)
    ensures StartsWith(x + y, h)
  {
    assert (x + y)[..|h|] == x[..|h|];
  }

  /** Each kind of outcome opens its explanation with its own header: a
      failed build, a failed run, a missing accuracy, or the accuracy
      itself to four decimals. */
  lemma FeedbackHeader(s: RunState, threshold: real, sota: Option<real>)
    ensures var reason := GenerateFeedback(s, threshold, sota).reason;
      && (!s.buildSuccess ==> StartsWith(reason, BuildFailedHeader))
      && (s.buildSuccess && !s.runSuccess ==> StartsWith(reason, RuntimeErrorHeader))
      && (s.buildSuccess && s.runSuccess && s.accuracy.None? ==> StartsWith(reason, UnparsedHeader))
      && (s.buildSuccess && s.runSuccess && s.accuracy.Some? ==>
            StartsWith(reason, AccuracyLabel + FormatFixed(s.accuracy.value, 4)))
  {
    if !s.buildSuccess {
      StartsWithConcat(BuildFailedHeader, FailureBody(s));
    } else if !s.runSuccess {
      StartsWithConcat(RuntimeErrorHeader, FailureBody(s));
    } else if s.accuracy.None? {
      StartsWithConcat(UnparsedHeader, UnparsedBody(s));
    } else {
      var a := s.accuracy.value;
      var head := AccuracyLabel + FormatFixed(a, 4);
      StartsWithConcat(head, Figures(a, threshold));
      PrefixOfPrefix(head, head + Figures(a, threshold), StatusLine(a >= threshold));
      PrefixOfPrefix(head, StatusLines(a, threshold), AccuracyTail(s, sota));
    }
  }

  /** The status lines end with the verdict, which is PASSED exactly when
      the accuracy reaches the threshold. */
  lemma StatusVerdict(accuracy: real, threshold: real)
    ensures EndsWith(StatusLines(accuracy, threshold), StatusLabel + Verdict(accuracy >= threshold) + Gap)
    ensures Verdict(accuracy >= threshold) == "PASSED" <==> accuracy >= threshold
  {
    EndsWithConcat(AccuracyLabel + FormatFixed(accuracy, 4) + Figures(accuracy, threshold), StatusLine(accuracy >= threshold));
    assert "FAILED"[0] != "PASSED"[0];
  }

  /** With an accuracy, the explanation ends with the best accuracy so
      far exactly when the best experiment has one. */
  lemma FeedbackSotaNote(s: RunState, threshold: real, sota: Option<real>)
    requires s.buildSuccess && s.runSuccess && s.accuracy.Some?
    ensures var reason := GenerateFeedback(s, threshold, sota).reason;
      && (sota.Some? ==> EndsWith(reason, SotaLabel + FormatFixed(sota.value, 4)))
      && (sota.None? ==> EndsWith(reason, TakeLast(s.dockerOutput, LongTail)))
  {
    var front := StatusLines(s.accuracy.value, threshold) + LongTailLabel;
    var tail := TakeLast(s.dockerOutput, LongTail);
    var note := SotaNote(sota);
    AccuracyReason(s, threshold, sota, front, tail, note);
    if sota.Some? {
      EndsWithConcat(front + tail, note);
    } else {
      assert (front + tail) + note == front + tail;
      EndsWithConcat(front, tail);
    }
  }

  /** With an accuracy, the explanation is the status lines and the tail
      label, the output's tail, and the note. */
  lemma AccuracyReason(s: RunState, threshold: real, sota: Option<real>, front: string, tail: string, note: string)
    requires s.buildSuccess && s.runSuccess && s.accuracy.Some?
    requires front == StatusLines(s.accuracy.value, threshold) + LongTailLabel
    requires tail == TakeLast(s.dockerOutput, LongTail) && note == SotaNote(sota)
    ensures GenerateFeedback(s, threshold, sota).reason == (front + tail) + note
  {
    var status := StatusLines(s.accuracy.value, threshold);
    var x := LongTailLabel + tail;
    assert GenerateFeedback(s, threshold, sota).reason == status + (x + note);
    ConcatAssoc(status, x, note);
    ConcatAssoc(status, LongTailLabel, tail);
  }

  /** The last `m` characters of the last `n` are the last `m`, for
      `m <= n`. */
  lemma TakeLastTwice(x: string, m: nat, n: nat)
    requires m <= n
    ensures TakeLast(TakeLast(x, n), m) == TakeLast(x, m)
  {
  }

  /** The explanation quotes only the first 2000 characters of the error
      message and the last 2000 of the Docker output: two runs that agree
      there and on the outcome get the same feedback, however long their
      output. */
  lemma FeedbackSeesOnlyExcerpts(s: RunState, s': RunState, threshold: real, sota: Option<real>)
    requires s.buildSuccess == s'.buildSuccess && s.runSuccess == s'.runSuccess && s.accuracy == s'.accuracy
    requires Take(s.errorMessage, ErrorExcerpt) == Take(s'.errorMessage, ErrorExcerpt)
    requires TakeLast(s.dockerOutput, LongTail) == TakeLast(s'.dockerOutput, LongTail)
    ensures GenerateFeedback(s, threshold, sota) == GenerateFeedback(s', threshold, sota)
  {
    TakeLastTwice(s.dockerOutput, ShortTail, LongTail);
    TakeLastTwice(s'.dockerOutput, ShortTail, LongTail);
  }

  /** A failure's explanation has a bounded size, whatever the length of
      the error message and of the output. */
  lemma FailureReasonBounded(s: RunState, threshold: real, sota: Option<real>)
    requires !s.buildSuccess || !s.runSuccess || s.accuracy.None?
    ensures |GenerateFeedback(s, threshold, sota).reason|
      <= |UnparsedHeader| + |ErrorLabel| + ErrorExcerpt + |Gap| + |ShortTailLabel| + ShortTail
  {
  }
}
