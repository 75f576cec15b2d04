/** The research step: wraps the model's proposed plan into a hypothesis
    and a fresh experiment, and summarizes past attempts and the template
    files for the proposal prompt. */
module Proposal {
  import opened Wrappers
  import opened Text
  import opened Experiment

  // ---------------------------------------------------------------------
  // FHEHypothesis
  // ---------------------------------------------------------------------

  const ConciseLength: nat := 200
  const ReasoningLength: nat := 500
  const PlanLabel: string := "Algorithm Plan:\n"

  /** `FHEHypothesis(algorithm, reasoning)`: the short reason is the start
      of the reasoning, at most 200 characters. */
  function NewHypothesis(algorithm: string, reasoning: string): (h: FHEHypothesis)
    ensures h.algorithm == algorithm && h.reason == reasoning
    ensures StartsWith(reasoning, h.conciseReason)
    ensures |h.conciseReason| == if |reasoning| < ConciseLength then |reasoning| else ConciseLength
  {
    FHEHypothesis(algorithm, reasoning, Take(reasoning, ConciseLength))
  }

  /** `str(hypothesis)`: a fixed label, then the plan verbatim. */
  function HypothesisText(h: FHEHypothesis): (r: string)
    ensures StartsWith(r, PlanLabel)
    ensures r[|PlanLabel|..] == h.algorithm
  {
    assert (PlanLabel + h.algorithm)[..|PlanLabel|] == PlanLabel;
    PlanLabel + h.algorithm
  }

  // ---------------------------------------------------------------------
  // gen
  // ---------------------------------------------------------------------

  /** The end of `gen`: the stripped response is both the only task's plan
      and the hypothesis; the reasoning is its first 500 characters. */
  method Gen(response: string) returns (exp: FHEExperiment)
    ensures fresh(exp)
    ensures exp.subTasks == [FHETask(Strip(response))]
    ensures exp.hypothesis == Some(NewHypothesis(Strip(response), Take(Strip(response), ReasoningLength)))
    ensures exp.fileDict == map[] && exp.State() == FreshRunState
  {
    var algorithm := Strip(response);
    var reasoning := Take(algorithm, ReasoningLength);
    var hyp := NewHypothesis(algorithm, reasoning);
    exp := new FHEExperiment([FHETask(algorithm)], Some(hyp));
  }

  /** The plan that `gen` hands on has no surrounding whitespace, the task
      describes exactly the hypothesis' plan, and the short reason is the
      first 200 characters of the plan. */
  lemma GeneratedHypothesis(response: string)
    ensures var plan := Strip(response);
      var h := NewHypothesis(plan, Take(plan, ReasoningLength));
      && Strip(plan) == plan
      && FHETask(plan).Description() == h.algorithm
      && h.conciseReason == Take(plan, ConciseLength)
  {
    StripIdempotent(response);
  }

  // ---------------------------------------------------------------------
  // _build_history
  // ---------------------------------------------------------------------

  const HistoryWindow: nat := 3
  const PlanPreview: nat := 300
  const FeedbackPreview: nat := 600

  const NoAttempts: string := "No previous attempts."
  const AttemptLabel: string := "\n### Attempt "
  const PreviewLabel: string := "Algorithm (preview): "
  const Ellipsis: string := "..."
  const ResultLabel: string := "Result: "
  const FeedbackLabel: string := "Feedback: "

  /** `len(hist[-3:])` */
  function Window(n: nat): nat {
    if n < HistoryWindow then n else HistoryWindow
  }

  function ResultWord(decision: bool): string {
    if decision then "SUCCESS" else "FAILED"
  }

  /** The lines one attempt contributes, under its attempt number. */
  function AttemptLines(number: nat, v: AttemptView): seq<string> {
    [AttemptLabel + NatToString(number)]
    + (if v.hypothesis.Some? then [PreviewLabel + Take(v.hypothesis.value.algorithm, PlanPreview) + Ellipsis] else [])
    + [ResultLabel + ResultWord(v.feedback.decision), FeedbackLabel + Take(v.feedback.reason, FeedbackPreview)]
  }

  /** The lines of the recent attempts up to attempt `k`; attempt `k` is
      `views[k - 1]`. */
  function HistoryLines(views: seq<AttemptView>, k: nat): seq<string>
    requires |views| - Window(|views|) <= k <= |views|
    decreases k
  {
    if k == |views| - Window(|views|) then []
    else HistoryLines(views, k - 1) + AttemptLines(k, views[k - 1])
  }

  /** `_build_history` as a value. */
  function History(views: seq<AttemptView>): string {
    if views == [] then NoAttempts else Join(HistoryLines(views, |views|), "\n")
  }

  /** The attempt headers among some lines, in order. */
  function Headers(lines: seq<string>): seq<string> {
    if lines == [] then []
    else Headers(lines[..|lines| - 1]) + (if StartsWith(lines[|lines| - 1], AttemptLabel) then [lines[|lines| - 1]] else [])
  }

  lemma {:induction false} HeadersAppend(a: seq<string>, b: seq<string>)
    ensures Headers(a + b) == Headers(a) + Headers(b)
    decreases |b|
  {
    if b != [] {
      var b' := b[..|b| - 1];
      assert (a + b)[..|a + b| - 1] == a + b';
      var last := b[|b| - 1];
      var x := if StartsWith(last, AttemptLabel) then [last] else [];
      assert (a + b)[|a + b| - 1] == last;
      assert Headers(a + b) == Headers(a + b') + x;
      assert Headers(b) == Headers(b') + x;
      HeadersAppend(a, b');
    } else {
      assert a + b == a;
    }
  }

  /** A line that opens with a label not starting a new line is no header. */
  lemma NotHeaderLine(name: string, rest: string)
    requires |name| > 0 && name[0] != '\n'
    ensures !StartsWith(name + rest, AttemptLabel)
  {
    assert (name + rest)[0] == name[0];
    assert AttemptLabel[0] == '\n';
  }

  /** Lines none of which is a header have no headers. */
  lemma {:induction false} NoHeaders(lines: seq<string>)
    requires forall k :: 0 <= k < |lines| ==> !StartsWith(lines[k], AttemptLabel)
    ensures Headers(lines) == []
    decreases |lines|
  {
    if lines != [] {
      NoHeaders(lines[..|lines| - 1]);
    }
  }

  /** Of an attempt's lines, only the first is a header. */
  lemma AttemptHeaders(number: nat, v: AttemptView)
    ensures Headers(AttemptLines(number, v)) == [AttemptLabel + NatToString(number)]
  {
    var header := [AttemptLabel + NatToString(number)];
    var preview := if v.hypothesis.Some? then [PreviewLabel + Take(v.hypothesis.value.algorithm, PlanPreview) + Ellipsis] else [];
    var tail := [ResultLabel + ResultWord(v.feedback.decision), FeedbackLabel + Take(v.feedback.reason, FeedbackPreview)];
    var rest := preview + tail;
    assert AttemptLines(number, v) == header + rest;
    assert (AttemptLabel + NatToString(number))[..|AttemptLabel|] == AttemptLabel;
    assert Headers(header) == header by {
      assert header[..0] == [];
    }
    forall k | 0 <= k < |rest|
      ensures !StartsWith(rest[k], AttemptLabel)
    {
      if k < |preview| {
        NotHeaderLine(PreviewLabel, rest[k][|PreviewLabel|..]);
      } else if k == |preview| {
        NotHeaderLine(ResultLabel, rest[k][|ResultLabel|..]);
      } else {
        NotHeaderLine(FeedbackLabel, rest[k][|FeedbackLabel|..]);
      }
    }
    NoHeaders(rest);
    HeadersAppend(header, rest);
  }

  /** The headers of attempts `from + 1` to `k`, in order. */
  function Numbered(from: nat, k: nat): seq<string>
    requires from <= k
    decreases k
  {
    if k == from then [] else Numbered(from, k - 1) + [AttemptLabel + NatToString(k)]
  }

  lemma {:induction false} NumberedAt(from: nat, k: nat)
    requires from <= k
    ensures |Numbered(from, k)| == k - from
    ensures forall i :: 0 <= i < k - from ==> Numbered(from, k)[i] == AttemptLabel + NatToString(from + i + 1)
    decreases k
  {
    if k > from {
      NumberedAt(from, k - 1);
    }
  }

  /** The headers of the recent attempts up to attempt `k` number them
      consecutively from the first shown attempt. */
  lemma {:induction false} HistoryHeaders(views: seq<AttemptView>, k: nat)
    requires |views| - Window(|views|) <= k <= |views|
    ensures Headers(HistoryLines(views, k)) == Numbered(|views| - Window(|views|), k)
    decreases k
  {
    if k > |views| - Window(|views|) {
      HistoryHeaders(views, k - 1);
      HeadersAppend(HistoryLines(views, k - 1), AttemptLines(k, views[k - 1]));
      AttemptHeaders(k, views[k - 1]);
    }
  }

  /** `_build_history` shows the last three attempts at most, in order,
      numbered consecutively up to the number of attempts so far. */
  lemma HistoryShowsLastAttempts(views: seq<AttemptView>)
    ensures var hs := Headers(HistoryLines(views, |views|));
      && |hs| == Window(|views|) <= HistoryWindow
      && (forall i :: 0 <= i < |hs| ==> hs[i] == AttemptLabel + NatToString(|views| - |hs| + i + 1))
      && (views != [] ==> hs[|hs| - 1] == AttemptLabel + NatToString(|views|))
  {
    var from := |views| - Window(|views|);
    HistoryHeaders(views, |views|);
    NumberedAt(from, |views|);
    var hs := Headers(HistoryLines(views, |views|));
    assert |hs| == |views| - from;
    if views != [] {
      assert hs[|hs| - 1] == AttemptLabel + NatToString(from + (|hs| - 1) + 1);
    }
  }

  /** An empty history says so; any other opens with its first header. */
  lemma HistoryOpening(views: seq<AttemptView>)
    ensures views == [] <==> History(views) == NoAttempts
    ensures views != [] ==> StartsWith(History(views), AttemptLabel)
  {
    if views != [] {
      var lines := HistoryLines(views, |views|);
      assert StartsWith(lines[0], AttemptLabel) by {
        HistoryStartsWithHeader(views, |views|);
      }
      JoinStartsWithFirst(lines, "\n");
      assert History(views)[..|AttemptLabel|] == lines[0][..|AttemptLabel|];
      assert History(views)[0] == '\n' != NoAttempts[0];
    }
  }

  /** The recent lines, when there are any, open with a header. */
  lemma {:induction false} HistoryStartsWithHeader(views: seq<AttemptView>, k: nat)
    requires |views| - Window(|views|) < k <= |views|
    ensures HistoryLines(views, k) != []
    ensures StartsWith(HistoryLines(views, k)[0], AttemptLabel)
    decreases k
  {
    var prev := HistoryLines(views, k - 1);
    var mine := AttemptLines(k, views[k - 1]);
    if k - 1 > |views| - Window(|views|) {
      HistoryStartsWithHeader(views, k - 1);
      assert (prev + mine)[0] == prev[0];
    } else {
      assert (prev + mine)[0] == mine[0];
      assert (AttemptLabel + NatToString(k))[..|AttemptLabel|] == AttemptLabel;
    }
  }

  /** An attempt is reported a success exactly when its feedback says so;
      the previews are cut to 300 and 600 characters. */
  lemma AttemptLinesReport(number: nat, v: AttemptView)
    ensures ResultLabel + "SUCCESS" in AttemptLines(number, v) <==> v.feedback.decision
    ensures var lines := AttemptLines(number, v);
      && |lines| == (if v.hypothesis.Some? then 4 else 3)
      && lines[|lines| - 1] == FeedbackLabel + Take(v.feedback.reason, FeedbackPreview)
      && |Take(v.feedback.reason, FeedbackPreview)| <= FeedbackPreview
      && (v.hypothesis.Some? ==>
            lines[1] == PreviewLabel + Take(v.hypothesis.value.algorithm, PlanPreview) + Ellipsis
            && StartsWith(v.hypothesis.value.algorithm, Take(v.hypothesis.value.algorithm, PlanPreview)))
  {
    var lines := AttemptLines(number, v);
    var success := ResultLabel + "SUCCESS";
    assert success[0] == 'R' && success[8] == 'S';
    assert lines[0][0] == '\n';
    assert lines[|lines| - 1][0] == 'F';
    if v.hypothesis.Some? {
      assert lines[1][0] == 'A';
    }
    var result := lines[|lines| - 2];
    assert result == ResultLabel + ResultWord(v.feedback.decision);
    if !v.feedback.decision {
      assert result[8] == 'F';
      assert success !in lines;
    }
  }

  /** The lines of one attempt, appended to those before it. */
  method AppendAttempt(lines: seq<string>, number: nat, hypothesis: Option<FHEHypothesis>, fb: Feedback)
    returns (r: seq<string>)
    ensures r == lines + AttemptLines(number, AttemptView(hypothesis, fb))
  {
    r := lines + [AttemptLabel + NatToString(number)];
    if hypothesis.Some? {
      r := r + [PreviewLabel + Take(hypothesis.value.algorithm, PlanPreview) + Ellipsis];
    }
    r := r + [ResultLabel + ResultWord(fb.decision), FeedbackLabel + Take(fb.reason, FeedbackPreview)];
  }

  /** `_build_history`: the last three attempts of the trace, each with
      its number, plan preview, result and feedback preview. */
  method BuildHistory(trace: Trace) returns (r: string)
    ensures r == History(Views(trace.hist))
  {
    var hist := trace.hist;
    if |hist| == 0 {
      assert Views(hist) == [];
      assert NoAttempts == History(Views(trace.hist));
      return NoAttempts;
    }
    ghost var views := Views(hist);
    var start := |hist| - Window(|hist|);
    var lines: seq<string> := [];
    var k := start;
    while k < |hist|
      invariant start <= k <= |hist|
      invariant lines == HistoryLines(views, k)
    {
      var (exp, fb) := hist[k];
      assert views[k] == AttemptView(exp.hypothesis, fb);
      lines := AppendAttempt(lines, k + 1, exp.hypothesis, fb);
      k := k + 1;
    }
    assert |views| == |hist| && views != [];
    assert lines == HistoryLines(views, |views|);
    r := Join(lines, "\n");
    assert r == History(views);
    assert views == Views(trace.hist);
  }

  // ---------------------------------------------------------------------
  // _format_template_summary
  // ---------------------------------------------------------------------

  const NoTemplates: string := "  (no template files found)"
  const FileBullet: string := "- "
  const NameSep: string := ": "
  const CharsSuffix: string := " chars"

  /** The line for one template file: its name and its length. */
  function TemplateLine(name: string, content: string): string {
    FileBullet + name + NameSep + NatToString(|content|) + CharsSuffix
  }

  /** The lines of the first `n` template files, in order. */
  function TemplateLines(files: seq<(string, string)>, n: nat): seq<string>
    requires n <= |files|
  {
    if n == 0 then [] else TemplateLines(files, n - 1) + [TemplateLine(files[n - 1].0, files[n - 1].1)]
  }

  /** `_format_template_summary` as a value. */
  function TemplateSummary(files: seq<(string, string)>): string {
    if files == [] then NoTemplates else Join(TemplateLines(files, |files|), "\n")
  }

  /** One line per template file, in order. */
  lemma {:induction false} TemplateLinesAt(files: seq<(string, string)>, n: nat)
    requires n <= |files|
    ensures |TemplateLines(files, n)| == n
    ensures forall k :: 0 <= k < n ==> TemplateLines(files, n)[k] == TemplateLine(files[k].0, files[k].1)
  {
    if n > 0 {
      TemplateLinesAt(files, n - 1);
    }
  }

  /** The number a template line shows reads back as the file's length. */
  lemma TemplateLineLength(name: string, content: string)
    ensures var line := TemplateLine(name, content);
      var from := |FileBullet + name + NameSep|;
      var to := |line| - |CharsSuffix|;
      && from < to
      && (forall k :: from <= k < to ==> IsDigit(line[k]))
      && DigitsValue(line[from..to]) == |content|
  {
    var digits := NatToString(|content|);
    var line := TemplateLine(name, content);
    var from := |FileBullet + name + NameSep|;
    assert line[from..|line| - |CharsSuffix|] == digits;
    NatToStringRoundTrip(|content|);
  }

  /** The fallback line appears exactly when there are no templates. */
  lemma TemplateSummaryFallback(files: seq<(string, string)>)
    ensures TemplateSummary(files) == NoTemplates <==> files == []
  {
    if files != [] {
      var lines := TemplateLines(files, |files|);
      TemplateLinesAt(files, |files|);
      TemplateLineOpens(files[0].0, files[0].1);
      JoinStartsWithFirst(lines, "\n");
      var summary := TemplateSummary(files);
      assert summary[..|lines[0]|] == lines[0];
      assert summary[0] == '-';
    }
  }

  /** A template line opens with its bullet. */
  lemma TemplateLineOpens(name: string, content: string)
    ensures |TemplateLine(name, content)| > 0 && TemplateLine(name, content)[0] == '-'
  {
  }

  /** `_format_template_summary`: one line per template file, in the
      order the scenario lists them. */
  method FormatTemplateSummary(files: seq<(string, string)>) returns (r: string)
    ensures r == TemplateSummary(files)
  {
    var lines: seq<string> := [];
    var i := 0;
    while i < |files|
      invariant i <= |files|
      invariant lines == TemplateLines(files, i)
    {
      var (name, content) := files[i];
      lines := lines + [FileBullet + name + NameSep + NatToString(|content|) + CharsSuffix];
      i := i + 1;
    }
    if lines == [] {
      r := NoTemplates;
    } else {
      r := Join(lines, "\n");
    }
  }
}
