/** The runner (`FHERunner`): it lays the generated files over the challenge
    files, runs Docker, and records build and run success, the output, the
    error message and the accuracy in the experiment. Docker itself is an
    oracle: each command's outcome is an input. */
module Runner {
  import opened Wrappers
  import opened Text
  import opened Experiment

  // ---------------------------------------------------------------------
  // `_docker_run`
  // ---------------------------------------------------------------------

  /** What a Docker command did: it finished with an exit code, it ran past
      its timeout, or starting it raised an exception with a message. */
  datatype DockerResult =
    | Completed(stdout: string, stderr: string, returnCode: int)
    | TimedOut
    | Crashed(message: string)

  const TimeoutPrefix: string := "Docker command timed out after "

  /** `_docker_run`: the combined output and the exit code; a timeout or an
      exception is reported as exit code 1 and never raised. */
  function DockerRun(res: DockerResult, timeout: int): (string, int) {
    match res
    case Completed(out, err, code) => (out + err, code)
    case TimedOut => (TimeoutPrefix + IntToString(timeout) + "s", 1)
    case Crashed(msg) => (msg, 1)
  }

  /** Exit code 0 only comes from a command that finished with 0; a timeout
      names its limit in seconds. */
  lemma DockerRunContract(res: DockerResult, timeout: int)
    ensures DockerRun(res, timeout).1 == 0 <==> res.Completed? && res.returnCode == 0
    ensures res.TimedOut? ==>
      StartsWith(DockerRun(res, timeout).0, TimeoutPrefix)
      && DockerRun(res, timeout).0[|TimeoutPrefix|..] == IntToString(timeout) + "s"
  {
    if res.TimedOut? {
      var s := TimeoutPrefix + IntToString(timeout) + "s";
      assert s[..|TimeoutPrefix|] == TimeoutPrefix;
      assert s[|TimeoutPrefix|..] == IntToString(timeout) + "s";
    }
  }

  // ---------------------------------------------------------------------
  // The text parsers
  // ---------------------------------------------------------------------

  /** Every character is a digit or a dot. */
  predicate DecimalToken(tok: string) {
    forall k :: 0 <= k < |tok| ==> IsDigitOrDot(tok[k])
  }

  /** `\s*([0-9.]+)` from index `j`: the token, when there is one. */
  function NumberAfter(s: string, j: nat): (r: Option<string>)
    requires j <= |s|
    ensures r.Some? ==> r.value != [] && DecimalToken(r.value)
  {
    var a := Span(s, j, IsSpace);
    var b := Span(s, a, IsDigitOrDot);
    if a < b then
      assert forall k :: 0 <= k < b - a ==> s[a..b][k] == s[a + k];
      Some(s[a..b])
    else None
  }

  /** `Accuracy:\s*([0-9.]+)` matched at index `i`: group 1. */
  function AccuracyAt(s: string, i: nat): (r: Option<string>)
    ensures r.Some? ==> r.value != [] && DecimalToken(r.value)
  {
    if OccursAt(s, "Accuracy:", i) then NumberAfter(s, i + 9) else None
  }

  /** `[Aa]ccuracy:\s*([0-9.]+)` matched at index `i`: group 1. */
  function AnyCaseAccuracyAt(s: string, i: nat): (r: Option<string>)
    ensures r.Some? ==> r.value != [] && DecimalToken(r.value)
  {
    if i < |s| && (s[i] == 'A' || s[i] == 'a') && OccursAt(s, "ccuracy:", i + 1) then NumberAfter(s, i + 9)
    else None
  }

  /** The value of the digits `s[a..b]`. */
  function DigitRun(s: string, a: nat, b: nat): nat
    requires a <= b <= |s|
    requires forall k :: a <= k < b ==> IsDigit(s[k])
  {
    assert forall k :: 0 <= k < b - a ==> s[a..b][k] == s[a + k];
    DigitsValue(s[a..b])
  }

  /** `Slots passed:\s*(\d+)/(\d+)` matched at index `i`: both groups as
      numbers. The digit runs are greedy and a digit is never `/`, so there
      is nothing to backtrack into. */
  function SlotsAt(s: string, i: nat): Option<(nat, nat)> {
    if !OccursAt(s, "Slots passed:", i) then None
    else
      var a := Span(s, i + 13, IsSpace);
      var b := Span(s, a, IsDigit);
      if a < b && b < |s| && s[b] == '/' then
        var c := Span(s, b + 1, IsDigit);
        if b + 1 < c then Some((DigitRun(s, a, b), DigitRun(s, b + 1, c))) else None
      else None
  }

  /** The `ValueError` `float()` raises on a malformed token. */
  function FloatError(tok: string): Raised {
    ValueError("could not convert string to float: '" + tok + "'")
  }

  /** `float(tok)` for a `[0-9.]+` token. */
  function Float(tok: string): (r: Result<real, Raised>)
    requires DecimalToken(tok)
    ensures r.Success? ==> 0.0 <= r.value
    ensures r.Failure? ==> r.error == FloatError(tok)
  {
    var v := ParseDecimal(tok);
    if v.Some? then Success(v.value) else Failure(FloatError(tok))
  }

  /** The first `Accuracy:` token of a text. */
  function FirstAccuracy(s: string): (r: Option<(nat, string)>)
    ensures r.Some? ==> AccuracyAt(s, r.value.0) == Some(r.value.1)
  {
    Leftmost(|s|, 0, i => AccuracyAt(s, i))
  }

  /** The first `Slots passed:` counts of a text. */
  function FirstSlots(s: string): Option<(nat, (nat, nat))> {
    Leftmost(|s|, 0, i => SlotsAt(s, i))
  }

  /** `_parse_accuracy_black_box`: the first `Accuracy:` number; without
      one, passed over total from the first `Slots passed:` line when the
      total is positive; otherwise `None`. A malformed number raises. */
  function ParseAccuracyBlackBox(output: string): (r: Result<Option<real>, Raised>)
    ensures r.Success? && r.value.Some? ==> 0.0 <= r.value.value
  {
    var acc := FirstAccuracy(output);
    if acc.Some? then
      var f := Float(acc.value.1);
      if f.Failure? then Failure(f.error) else Success(Some(f.value))
    else
      var slots := FirstSlots(output);
      if slots.Some? && slots.value.1.1 > 0 then
        Success(Some(slots.value.1.0 as real / slots.value.1.1 as real))
      else Success(None)
  }

  /** The first `Accuracy:` or `accuracy:` token of a text. */
  function FirstAnyCaseAccuracy(s: string): (r: Option<(nat, string)>)
    ensures r.Some? ==> AnyCaseAccuracyAt(s, r.value.0) == Some(r.value.1)
  {
    Leftmost(|s|, 0, i => AnyCaseAccuracyAt(s, i))
  }

  /** `_parse_accuracy_from_output`: the first `[Aa]ccuracy:` number, or
      `None`; a malformed number raises. */
  function ParseAccuracyFromOutput(output: string): (r: Result<Option<real>, Raised>)
    ensures r.Success? && r.value.Some? ==> 0.0 <= r.value.value
  {
    var acc := FirstAnyCaseAccuracy(output);
    if acc.Some? then
      var f := Float(acc.value.1);
      if f.Failure? then Failure(f.error) else Success(Some(f.value))
    else Success(None)
  }

  /** A text with no `A` holds no `Accuracy:` label. */
  lemma NoAccuracyWithoutA(s: string)
    requires 'A' !in s
    ensures FirstAccuracy(s).None?
  {
    forall i: nat | i <= |s| ensures AccuracyAt(s, i).None? {
      NoLabelWithout(s, "Accuracy:", i);
    }
  }

  /** The digits of a number, read back after a label ending at `j` and one
      space. */
  lemma NumberAfterLabel(s: string, j: nat, n: nat)
    requires j + 1 <= |s| && s[j] == ' ' && s[j + 1..] == NatToString(n)
    ensures NumberAfter(s, j) == Some(NatToString(n))
    ensures Float(NatToString(n)) == Success(n as real)
  {
    var d := NatToString(n);
    assert s[j + 1] == d[0];
    assert IsDigit(s[j + 1]);
    assert Span(s, j + 1, IsSpace) == j + 1;
    assert Span(s, j, IsSpace) == j + 1;
    forall k | j + 1 <= k < |s| ensures IsDigitOrDot(s[k]) {
      assert s[k] == d[k - j - 1];
    }
    SpanToEnd(s, j + 1, IsDigitOrDot);
    assert s[j + 1..|s|] == d;
    NatToStringRoundTrip(n);
  }

  lemma DigitsHaveNoLetters(n: nat)
    ensures 'A' !in NatToString(n) && 'S' !in NatToString(n) && '/' !in NatToString(n)
  {
    var d := NatToString(n);
    assert forall k :: 0 <= k < |d| ==> IsDigit(d[k]);
  }

  /** A run that holds up to the end of the text reaches it. */
  lemma {:induction false} SpanToEnd(s: string, i: nat, p: char -> bool)
    requires i <= |s|
    requires forall k :: i <= k < |s| ==> p(s[k])
    ensures Span(s, i, p) == |s|
    decreases |s| - i
  {
    if i < |s| {
      SpanToEnd(s, i + 1, p);
    }
  }

  /** The verifier's `Accuracy: N` line is read back as N. */
  lemma AccuracyLineParsed(n: nat)
    ensures ParseAccuracyBlackBox("Accuracy: " + NatToString(n)) == Success(Some(n as real))
    ensures ParseAccuracyFromOutput("Accuracy: " + NatToString(n)) == Success(Some(n as real))
  {
    var s := "Accuracy: " + NatToString(n);
    assert s[..9] == "Accuracy:";
    assert s[10..] == NatToString(n);
    NumberAfterLabel(s, 9, n);
    assert AccuracyAt(s, 0) == Some(NatToString(n));
    assert AnyCaseAccuracyAt(s, 0) == Some(NatToString(n));
  }

  /** Only the white-box fallback accepts a lower-case label. */
  lemma LowerCaseLabel(n: nat)
    ensures ParseAccuracyBlackBox("accuracy: " + NatToString(n)) == Success(None)
    ensures ParseAccuracyFromOutput("accuracy: " + NatToString(n)) == Success(Some(n as real))
  {
    var s := "accuracy: " + NatToString(n);
    assert s[1..9] == "ccuracy:";
    assert s[10..] == NatToString(n);
    NumberAfterLabel(s, 9, n);
    assert AnyCaseAccuracyAt(s, 0) == Some(NatToString(n));
    DigitsHaveNoLetters(n);
    assert 'A' !in s && 'S' !in s;
    NoAccuracyWithoutA(s);
    NoSlotsWithoutS(s);
  }

  /** A text with no `S` holds no `Slots passed:` label. */
  lemma NoSlotsWithoutS(s: string)
    requires 'S' !in s
    ensures FirstSlots(s).None?
  {
    forall i: nat | i <= |s| ensures SlotsAt(s, i).None? {
      NoLabelWithout(s, "Slots passed:", i);
    }
  }

  /** A label cannot occur in a text that lacks its first character. */
  lemma NoLabelWithout(s: string, name: string, i: nat)
    requires name != [] && name[0] !in s
    ensures !OccursAt(s, name, i)
  {
    if i + |name| <= |s| {
      assert s[i..i + |name|][0] == s[i];
    }
  }

  /** The verifier's `Slots passed: X/Y` line gives X/Y when Y is positive
      and no accuracy when Y is 0. */
  lemma SlotsLineParsed(x: nat, y: nat)
    ensures ParseAccuracyBlackBox("Slots passed: " + NatToString(x) + "/" + NatToString(y))
      == Success(if y > 0 then Some(x as real / y as real) else None)
  {
    var dx := NatToString(x);
    var dy := NatToString(y);
    var s := "Slots passed: " + dx + "/" + dy;
    DigitsHaveNoLetters(x);
    DigitsHaveNoLetters(y);
    assert 'A' !in s;
    NoAccuracyWithoutA(s);
    SlotsLineParts(dx, dy);
    SlotsAtStart(s, dx, dy);
    NatToStringRoundTrip(x);
    NatToStringRoundTrip(y);
    SlotsOnly(s, x, y);
  }

  /** A text without an `Accuracy:` number that opens with a
      `Slots passed:` line is scored by that line. */
  lemma SlotsOnly(s: string, x: nat, y: nat)
    requires FirstAccuracy(s).None? && SlotsAt(s, 0) == Some((x, y))
    ensures ParseAccuracyBlackBox(s) == Success(if y > 0 then Some(x as real / y as real) else None)
  {
    assert FirstSlots(s) == Some((0, (x, y)));
  }

  lemma SlotsLineParts(dx: string, dy: string)
    ensures var s := "Slots passed: " + dx + "/" + dy;
      && s[..13] == "Slots passed:" && s[13] == ' '
      && s[14..14 + |dx|] == dx && s[14 + |dx|] == '/' && s[15 + |dx|..] == dy
  {
  }

  /** The counts of a `Slots passed:` line at the start of a text. */
  lemma SlotsAtStart(s: string, dx: string, dy: string)
    requires dx != [] && dy != []
    requires forall k :: 0 <= k < |dx| ==> IsDigit(dx[k])
    requires forall k :: 0 <= k < |dy| ==> IsDigit(dy[k])
    requires |s| == 15 + |dx| + |dy|
    requires s[..13] == "Slots passed:" && s[13] == ' '
    requires s[14..14 + |dx|] == dx && s[14 + |dx|] == '/' && s[15 + |dx|..] == dy
    ensures SlotsAt(s, 0) == Some((DigitsValue(dx), DigitsValue(dy)))
  {
    var b := 14 + |dx|;
    assert s[14] == dx[0];
    assert Span(s, 13, IsSpace) == 14;
    forall k | 14 <= k < b ensures IsDigit(s[k]) {
      assert s[k] == dx[k - 14];
    }
    SpanUpTo(s, 14, b, IsDigit);
    forall k | b + 1 <= k < |s| ensures IsDigit(s[k]) {
      assert s[k] == dy[k - b - 1];
    }
    SpanToEnd(s, b + 1, IsDigit);
    assert s[b + 1..|s|] == dy;
  }

  /** A run that holds up to a character where it fails stops there. */
  lemma {:induction false} SpanUpTo(s: string, i: nat, b: nat, p: char -> bool)
    requires i <= b < |s| && !p(s[b])
    requires forall k :: i <= k < b ==> p(s[k])
    ensures Span(s, i, p) == b
    decreases b - i
  {
    if i < b {
      SpanUpTo(s, i + 1, b, p);
    }
  }

  /** A number followed by a sentence-ending dot is one malformed token:
      `float("0.95.")` raises, and the run is aborted with it. */
  lemma TrailingDotRaises()
    ensures ParseAccuracyBlackBox("Accuracy: 0.95.") == Failure(FloatError("0.95."))
  {
    var s := "Accuracy: 0.95.";
    assert s[..9] == "Accuracy:";
    assert s[9] == ' ' && s[10] == '0';
    assert s[10..|s|] == "0.95.";
    assert Span(s, 10, IsDigitOrDot) == |s| by {
      SpanToEnd(s, 10, IsDigitOrDot);
    }
    assert Span(s, 9, IsSpace) == 10;
    assert AccuracyAt(s, 0) == Some("0.95.");
    assert "0.95."[1..] == ".95.";
    assert FirstOccurrence("0.95.", ".", 0) == Some(1);
    assert FirstOccurrence(".95.", ".", 0) == Some(0);
    var t := "95.";
    assert t[0..1][0] == '9' && t[1..2][0] == '5' && t[2..3] == ".";
    FirstOccurrenceAt("95.", ".", 0, 2);
    assert ParseDecimal("0.95.").None?;
  }

  // ---------------------------------------------------------------------
  // White-box slot accuracy over the decoded `result.json`
  // ---------------------------------------------------------------------

  /** A decoded JSON value. Object members are kept in document order. */
  datatype Json =
    | JNull
    | JBool(b: bool)
    | JNum(n: real)
    | JStr(s: string)
    | JArr(items: seq<Json>)
    | JObj(fields: seq<(string, Json)>)

  /** The value `json.loads` keeps for a key: the last one written. */
  function Lookup(fields: seq<(string, Json)>, key: string, default: Json): Json {
    if fields == [] then default
    else if fields[|fields| - 1].0 == key then fields[|fields| - 1].1
    else Lookup(fields[..|fields| - 1], key, default)
  }

  /** The keys of an object, each once, in order of first appearance. */
  function KeyOrder(fields: seq<(string, Json)>): seq<string> {
    if fields == [] then []
    else
      var ks := KeyOrder(fields[..|fields| - 1]);
      if fields[|fields| - 1].0 in ks then ks else ks + [fields[|fields| - 1].0]
  }

  /** What `for x in value` visits: the items of a list, the characters of
      a string, the keys of an object; `None` for the `TypeError` of
      anything else. */
  function Items(j: Json): Option<seq<Json>> {
    match j
    case JArr(items) => Some(items)
    case JStr(s) => Some(Chars(s))
    case JObj(fields) => Some(Keys(fields))
    case _ => None
  }

  /** The one-character strings of a string, in order. */
  function Chars(s: string): seq<Json> {
    seq(|s|, k requires 0 <= k < |s| => JStr([s[k]]))
  }

  /** The keys of an object as strings, in order of first appearance. */
  function Keys(fields: seq<(string, Json)>): seq<Json> {
    var ks := KeyOrder(fields);
    seq(|ks|, k requires 0 <= k < |ks| => JStr(ks[k]))
  }

  /** `float(value)`: numbers as they are, booleans as 0 and 1, strings by
      `parse`; `None` for the error anything else raises. */
  function ToFloat(j: Json, parse: string -> Option<real>): Option<real> {
    match j
    case JNum(x) => Some(x)
    case JBool(b) => Some(if b then 1.0 else 0.0)
    case JStr(s) => parse(s)
    case _ => None
  }

  /** A threshold as `<=` sees it: numbers and booleans compare, anything
      else raises `TypeError`. */
  function AsNumber(j: Json): Option<real> {
    match j
    case JNum(x) => Some(x)
    case JBool(b) => Some(if b then 1.0 else 0.0)
    case _ => None
  }

  function Abs(x: real): real {
    if x < 0.0 then -x else x
  }

  /** The keys of `result.json`. */
  const TestcasesKey: string := "testcases"
  const RunsKey: string := "runs"
  const ResultKey: string := "result"
  const ExpectedKey: string := "expected_output"
  const ThresholdKey: string := "error_threshold"

  /** Slots counted and slots within the threshold. */
  datatype Tally = Tally(total: nat, correct: nat)

  const NoSlots: Tally := Tally(0, 0)

  /** The sum of two counts; `None`, an exception, absorbs everything. */
  function Plus(a: Option<Tally>, b: Option<Tally>): Option<Tally> {
    if a.Some? && b.Some? then Some(Tally(a.value.total + b.value.total, a.value.correct + b.value.correct))
    else None
  }

  predicate Sane(t: Option<Tally>) {
    t.Some? ==> t.value.correct <= t.value.total
  }

  /** Whether one (result, expected) pair is within `thresh`. */
  function PairCorrect(r: Json, e: Json, thresh: Json, parse: string -> Option<real>): Option<bool> {
    var fr := ToFloat(r, parse);
    var fe := ToFloat(e, parse);
    var t := AsNumber(thresh);
    if fr.Some? && fe.Some? && t.Some? then Some(Abs(fr.value - fe.value) <= t.value) else None
  }

  /** The counts over the first `n` pairs of `zip(rs, es)`. */
  function PairsTally(rs: seq<Json>, es: seq<Json>, thresh: Json, parse: string -> Option<real>, n: nat): (r: Option<Tally>)
    requires n <= |rs| && n <= |es|
    ensures Sane(r)
    ensures r.Some? ==> r.value.total == n
  {
    if n == 0 then Some(NoSlots)
    else
      var c := PairCorrect(rs[n - 1], es[n - 1], thresh, parse);
      Plus(PairsTally(rs, es, thresh, parse, n - 1),
           if c.None? then None else Some(Tally(1, if c.value then 1 else 0)))
  }

  function Min(a: nat, b: nat): nat {
    if a <= b then a else b
  }

  /** The counts of one run: its own threshold when it has one, else
      `fallback`; its `result` and `expected_output` default to empty. */
  function RunTally(run: Json, fallback: Json, parse: string -> Option<real>): (r: Option<Tally>)
    ensures Sane(r)
  {
    if !run.JObj? then None
    else
      var rs := Items(Lookup(run.fields, ResultKey, JArr([])));
      var es := Items(Lookup(run.fields, ExpectedKey, JArr([])));
      if rs.None? || es.None? then None
      else PairsTally(rs.value, es.value, Lookup(run.fields, ThresholdKey, fallback), parse, Min(|rs.value|, |es.value|))
  }

  /** The counts over the first `n` runs of a testcase. */
  function RunsTally(runs: seq<Json>, fallback: Json, parse: string -> Option<real>, n: nat): (r: Option<Tally>)
    requires n <= |runs|
    ensures Sane(r)
  {
    if n == 0 then Some(NoSlots)
    else Plus(RunsTally(runs, fallback, parse, n - 1), RunTally(runs[n - 1], fallback, parse))
  }

  const DefaultErrorThreshold: real := 0.01

  /** The counts of one testcase, whose threshold defaults to 0.01. */
  function TestcaseTally(tc: Json, parse: string -> Option<real>): (r: Option<Tally>)
    ensures Sane(r)
  {
    if !tc.JObj? then None
    else
      var rs := Items(Lookup(tc.fields, RunsKey, JArr([])));
      if rs.None? then None
      else RunsTally(rs.value, Lookup(tc.fields, ThresholdKey, JNum(DefaultErrorThreshold)), parse, |rs.value|)
  }

  /** The counts over the first `n` testcases. */
  function TestcasesTally(tcs: seq<Json>, parse: string -> Option<real>, n: nat): (r: Option<Tally>)
    requires n <= |tcs|
    ensures Sane(r)
  {
    if n == 0 then Some(NoSlots)
    else Plus(TestcasesTally(tcs, parse, n - 1), TestcaseTally(tcs[n - 1], parse))
  }

  /** The slot counts of a decoded `result.json`, `None` when any step
      raises. */
  function ResultTally(data: Json, parse: string -> Option<real>): (r: Option<Tally>)
    ensures Sane(r)
  {
    if !data.JObj? then None
    else
      var items := Items(Lookup(data.fields, TestcasesKey, JArr([])));
      if items.None? then None else TestcasesTally(items.value, parse, |items.value|)
  }

  /** `_parse_accuracy_white_box` as a value: correct over total slots;
      `None` when the file did not decode, any step raised, or no slot was
      counted. */
  function SlotAccuracy(data: Option<Json>, parse: string -> Option<real>): Option<real> {
    if data.None? then None
    else
      var t := ResultTally(data.value, parse);
      if t.Some? && t.value.total > 0 then Some(t.value.correct as real / t.value.total as real) else None
  }

  /** The slot accuracy is a fraction: between 0 and 1. */
  lemma SlotAccuracyBounds(data: Option<Json>, parse: string -> Option<real>)
    ensures SlotAccuracy(data, parse).Some? ==>
      0.0 <= SlotAccuracy(data, parse).value <= 1.0
  {
    if SlotAccuracy(data, parse).Some? {
      var t := ResultTally(data.value, parse);
      assert Sane(t);
      FractionBounds(t.value.correct, t.value.total);
    }
  }

  /** A count of correct slots out of a positive total is a fraction. */
  lemma FractionBounds(correct: nat, total: nat)
    requires correct <= total && total > 0
    ensures 0.0 <= correct as real / total as real <= 1.0
  {
    assert correct as real / total as real <= total as real / total as real;
  }

  /** `zip` stops at the shorter list: a run counts as many slots as its
      shorter list has items. */
  lemma RunCountsZip(run: Json, fallback: Json, parse: string -> Option<real>)
    requires RunTally(run, fallback, parse).Some?
    ensures var rs := Items(Lookup(run.fields, ResultKey, JArr([]))).value;
      var es := Items(Lookup(run.fields, ExpectedKey, JArr([]))).value;
      RunTally(run, fallback, parse).value.total == Min(|rs|, |es|)
  {
  }

  /** The threshold cascade: the run's own `error_threshold`, else the
      testcase's, else 0.01. */
  lemma ThresholdCascade(run: seq<(string, Json)>, testcase: seq<(string, Json)>)
    ensures var fallback := Lookup(testcase, ThresholdKey, JNum(DefaultErrorThreshold));
      var used := Lookup(run, ThresholdKey, fallback);
      && (HasKey(run, ThresholdKey) ==> used == Lookup(run, ThresholdKey, JNull))
      && (!HasKey(run, ThresholdKey) && HasKey(testcase, ThresholdKey) ==>
            used == Lookup(testcase, ThresholdKey, JNull))
      && (!HasKey(run, ThresholdKey) && !HasKey(testcase, ThresholdKey) ==>
            used == JNum(DefaultErrorThreshold))
  {
    LookupDefault(run, ThresholdKey, Lookup(testcase, ThresholdKey, JNum(DefaultErrorThreshold)), JNull);
    LookupDefault(testcase, ThresholdKey, JNum(DefaultErrorThreshold), JNull);
  }

  predicate HasKey(fields: seq<(string, Json)>, key: string) {
    exists k :: 0 <= k < |fields| && fields[k].0 == key
  }

  /** The default matters exactly when the key is absent. */
  lemma {:induction false} LookupDefault(fields: seq<(string, Json)>, key: string, d1: Json, d2: Json)
    ensures HasKey(fields, key) ==> Lookup(fields, key, d1) == Lookup(fields, key, d2)
    ensures !HasKey(fields, key) ==> Lookup(fields, key, d1) == d1
  {
    if fields != [] {
      var init := fields[..|fields| - 1];
      LookupDefault(init, key, d1, d2);
      if fields[|fields| - 1].0 != key {
        if HasKey(fields, key) {
          var k :| 0 <= k < |fields| && fields[k].0 == key;
          assert init[k].0 == key;
        }
        if HasKey(init, key) {
          var k :| 0 <= k < |init| && init[k].0 == key;
          assert fields[k].0 == key;
        }
      }
    }
  }

  /** Once a prefix of the testcases raised, the whole count is `None`. */
  lemma {:induction false} TestcasesNoneSticks(tcs: seq<Json>, parse: string -> Option<real>, i: nat, n: nat)
    requires i <= n <= |tcs|
    requires TestcasesTally(tcs, parse, i).None?
    ensures TestcasesTally(tcs, parse, n).None?
    decreases n - i
  {
    if i < n {
      TestcasesNoneSticks(tcs, parse, i + 1, n);
    }
  }

  /** Once a prefix of the runs raised, the testcase's count is `None`. */
  lemma {:induction false} RunsNoneSticks(runs: seq<Json>, fallback: Json, parse: string -> Option<real>, j: nat, n: nat)
    requires j <= n <= |runs|
    requires RunsTally(runs, fallback, parse, j).None?
    ensures RunsTally(runs, fallback, parse, n).None?
    decreases n - j
  {
    if j < n {
      RunsNoneSticks(runs, fallback, parse, j + 1, n);
    }
  }

  /** Once a prefix of the pairs raised, the run's count is `None`. */
  lemma {:induction false} PairsNoneSticks(rs: seq<Json>, es: seq<Json>, thresh: Json, parse: string -> Option<real>,
                                           k: nat, n: nat)
    requires k <= n <= |rs| && n <= |es|
    requires PairsTally(rs, es, thresh, parse, k).None?
    ensures PairsTally(rs, es, thresh, parse, n).None?
    decreases n - k
  {
    if k < n {
      PairsNoneSticks(rs, es, thresh, parse, k + 1, n);
    }
  }

  /** The innermost loop of `_parse_accuracy_white_box`: the slots of one
      run, compared pair by pair; a value that does not convert gives
      `None`. */
  method CountRun(run: Json, fallback: Json, parse: string -> Option<real>) returns (t: Option<Tally>)
    ensures t == RunTally(run, fallback, parse)
  {
    if !run.JObj? {
      return None;
    }
    var rs := Items(Lookup(run.fields, ResultKey, JArr([])));
    var es := Items(Lookup(run.fields, ExpectedKey, JArr([])));
    var thresh := Lookup(run.fields, ThresholdKey, fallback);
    if rs.None? || es.None? {
      return None;
    }
    var xs, ys := rs.value, es.value;
    t := Some(NoSlots);
    var k := 0;
    while k < |xs| && k < |ys|
      invariant k <= |xs| && k <= |ys|
      invariant t == PairsTally(xs, ys, thresh, parse, k) && t.Some?
    {
      var c := PairCorrect(xs[k], ys[k], thresh, parse);
      if c.None? {
        PairsNoneSticks(xs, ys, thresh, parse, k + 1, Min(|xs|, |ys|));
        return None;
      }
      t := Plus(t, Some(Tally(1, if c.value then 1 else 0)));
      k := k + 1;
    }
  }

  /** The middle loop: the runs of one testcase, under its threshold. */
  method CountTestcase(tc: Json, parse: string -> Option<real>) returns (t: Option<Tally>)
    ensures t == TestcaseTally(tc, parse)
  {
    if !tc.JObj? {
      return None;
    }
    var thresh := Lookup(tc.fields, ThresholdKey, JNum(DefaultErrorThreshold));
    var runItems := Items(Lookup(tc.fields, RunsKey, JArr([])));
    if runItems.None? {
      return None;
    }
    var runs := runItems.value;
    t := Some(NoSlots);
    var j := 0;
    while j < |runs|
      invariant j <= |runs|
      invariant t == RunsTally(runs, thresh, parse, j) && t.Some?
    {
      var c := CountRun(runs[j], thresh, parse);
      if c.None? {
        RunsNoneSticks(runs, thresh, parse, j + 1, |runs|);
        return None;
      }
      t := Plus(t, c);
      j := j + 1;
    }
  }

  /** `_parse_accuracy_white_box`: three nested loops over testcases, runs
      and zipped slots, counting total and correct slots; any exception
      gives `None`. */
  method ParseAccuracyWhiteBox(data: Option<Json>, parse: string -> Option<real>) returns (r: Option<real>)
    ensures r == SlotAccuracy(data, parse)
  {
    if data.None? {
      return None;
    }
    if !data.value.JObj? {
      return None;
    }
    var tcs := Items(Lookup(data.value.fields, TestcasesKey, JArr([])));
    if tcs.None? {
      return None;
    }
    var items := tcs.value;
    var slots := Some(NoSlots);
    var i := 0;
    while i < |items|
      invariant i <= |items|
      invariant slots == TestcasesTally(items, parse, i) && slots.Some?
    {
      var c := CountTestcase(items[i], parse);
      if c.None? {
        TestcasesNoneSticks(items, parse, i + 1, |items|);
        return None;
      }
      slots := Plus(slots, c);
      i := i + 1;
    }
    if slots.value.total > 0 {
      r := Some(slots.value.correct as real / slots.value.total as real);
    } else {
      r := None;
    }
  }

  // ---------------------------------------------------------------------
  // File overlay
  // ---------------------------------------------------------------------

  /** Copying `src` into a directory holding `dest`, skipping names that
      already exist (`if not dest.exists(): shutil.copy2`). */
  function CopyIfMissing(dest: map<string, string>, src: map<string, string>): map<string, string> {
    src + dest
  }

  /** Copying `src` over a directory holding `dest`, replacing what is
      there (`shutil.copy2` and `write_text`). */
  function CopyOver(dest: map<string, string>, src: map<string, string>): map<string, string> {
    dest + src
  }

  /** The black-box `templates/openfhe` directory: the challenge templates
      copied where missing, then the generated files written over them. */
  function BlackBoxTemplateDir(existing: map<string, string>, templates: map<string, string>,
                               fileDict: map<string, string>): map<string, string> {
    CopyOver(CopyIfMissing(existing, templates), fileDict)
  }

  /** The white-box `app_build` directory: the challenge templates copied
      over what is there, then the generated files written over them. */
  function WhiteBoxAppBuild(existing: map<string, string>, templates: map<string, string>,
                            fileDict: map<string, string>): map<string, string> {
    CopyOver(CopyOver(existing, templates), fileDict)
  }

  /** The generated files always win; in black box a file already in the
      workspace beats the template, in white box the template beats it;
      nothing else appears or is lost. */
  lemma OverlayOrder(existing: map<string, string>, templates: map<string, string>,
                     fileDict: map<string, string>, name: string)
    ensures var b := BlackBoxTemplateDir(existing, templates, fileDict);
      var w := WhiteBoxAppBuild(existing, templates, fileDict);
      && b.Keys == w.Keys == existing.Keys + templates.Keys + fileDict.Keys
      && (name in fileDict ==> b[name] == fileDict[name] && w[name] == fileDict[name])
      && (name !in fileDict && name in existing ==> b[name] == existing[name])
      && (name !in fileDict && name in templates ==> w[name] == templates[name])
      && (name !in fileDict && name !in existing && name in templates ==> b[name] == templates[name])
      && (name !in fileDict && name !in templates && name in existing ==> w[name] == existing[name])
  {
  }

  // ---------------------------------------------------------------------
  // Black box
  // ---------------------------------------------------------------------

  /** The oracle inputs of a black-box run: the tests directory's path,
      the build's outcome, and each testcase directory's name, in sorted
      order, with the outcome of its run. */
  datatype BlackBoxInputs = BlackBoxInputs(
    testDir: string,
    build: DockerResult,
    buildTimeout: int,
    testcases: seq<(string, DockerResult)>,
    runTimeout: int)

  function BuildFailed(rc: int, out: string): string {
    "Docker build failed (exit " + IntToString(rc) + "):\n" + TakeLast(out, 3000)
  }

  function NoTestcases(testDir: string): string {
    "No testcase directories found in " + testDir
  }

  const BannerOpen: string := "=== "
  const BannerClose: string := " ===\n"
  const FailedOpen: string := "\nTestcase "
  const FailedExit: string := " failed (exit "
  const FailedClose: string := "):\n"

  function Banner(name: string, out: string): string {
    BannerOpen + name + BannerClose + out
  }

  function TestcaseFailed(name: string, rc: int, out: string): string {
    FailedOpen + name + FailedExit + IntToString(rc) + FailedClose + TakeLast(out, 800)
  }

  /** What the testcase loop has gathered: the accuracy sum, the outputs,
      whether all runs exited 0, the error message, and the exception that
      stopped the loop, if any. */
  datatype Gathered = Gathered(
    total: real,
    outputs: seq<string>,
    allSuccess: bool,
    errorMessage: string,
    raised: Option<Raised>)

  /** An accuracy parser; the black-box run uses `ParseAccuracyBlackBox`. */
  type Parser = string -> Result<Option<real>, Raised>

  /** What one testcase's run left: its directory name, its combined
      output and its exit code. */
  datatype Observed = Observed(name: string, out: string, rc: int)

  /** The runs of all testcases, each under the run timeout. */
  function Observe(cases: seq<(string, DockerResult)>, timeout: int): (r: seq<Observed>)
    ensures |r| == |cases|
    ensures forall k :: 0 <= k < |cases| ==>
      r[k] == Observed(cases[k].0, DockerRun(cases[k].1, timeout).0, DockerRun(cases[k].1, timeout).1)
  {
    seq(|cases|, k requires 0 <= k < |cases| =>
      Observed(cases[k].0, DockerRun(cases[k].1, timeout).0, DockerRun(cases[k].1, timeout).1))
  }

  /** The exception from the accuracy parser that stopped the loop over
      the first `n` runs, if any: the first run that exited 0 and whose
      output did not parse. */
  function RaisedAfter(runs: seq<Observed>, parse: Parser, n: nat): Option<Raised>
    requires n <= |runs|
  {
    if n == 0 then None
    else
      var r := RaisedAfter(runs, parse, n - 1);
      if r.Some? then r
      else if runs[n - 1].rc == 0 && parse(runs[n - 1].out).Failure? then Some(parse(runs[n - 1].out).error)
      else None
  }

  /** The accuracy sum of the loop over the first `n` runs. */
  function TotalAfter(runs: seq<Observed>, parse: Parser, n: nat): real
    requires n <= |runs|
  {
    if n == 0 then 0.0
    else if RaisedAfter(runs, parse, n - 1).Some? then TotalAfter(runs, parse, n - 1)
    else
      var o := runs[n - 1];
      var p := parse(o.out);
      if o.rc == 0 && p.Success? && p.value.Some? then TotalAfter(runs, parse, n - 1) + p.value.value
      else TotalAfter(runs, parse, n - 1)
  }

  /** The outputs kept by the loop over the first `n` runs. */
  function OutputsAfter(runs: seq<Observed>, parse: Parser, n: nat): seq<string>
    requires n <= |runs|
  {
    if n == 0 then []
    else if RaisedAfter(runs, parse, n - 1).Some? then OutputsAfter(runs, parse, n - 1)
    else OutputsAfter(runs, parse, n - 1) + [Banner(runs[n - 1].name, runs[n - 1].out)]
  }

  /** Whether every run of the loop over the first `n` runs exited 0. */
  function AllSuccessAfter(runs: seq<Observed>, parse: Parser, n: nat): bool
    requires n <= |runs|
  {
    if n == 0 then true
    else if RaisedAfter(runs, parse, n - 1).Some? then AllSuccessAfter(runs, parse, n - 1)
    else AllSuccessAfter(runs, parse, n - 1) && runs[n - 1].rc == 0
  }

  /** The error message after the loop over the first `n` runs, starting
      from `err0`. */
  function ErrorsAfter(runs: seq<Observed>, parse: Parser, err0: string, n: nat): string
    requires n <= |runs|
  {
    if n == 0 then err0
    else if RaisedAfter(runs, parse, n - 1).Some? then ErrorsAfter(runs, parse, err0, n - 1)
    else if runs[n - 1].rc != 0 then ErrorsAfter(runs, parse, err0, n - 1) + TestcaseFailed(runs[n - 1].name, runs[n - 1].rc, runs[n - 1].out)
    else ErrorsAfter(runs, parse, err0, n - 1)
  }

  /** The loop over the first `n` runs, starting from error message `err0`;
      it stops at the first exception. */
  function Testcases(runs: seq<Observed>, parse: Parser, err0: string, n: nat): Gathered
    requires n <= |runs|
  {
    Gathered(TotalAfter(runs, parse, n), OutputsAfter(runs, parse, n), AllSuccessAfter(runs, parse, n),
             ErrorsAfter(runs, parse, err0, n), RaisedAfter(runs, parse, n))
  }

  /** The accuracy a run contributes: its parsed accuracy when it exited 0
      and one was found, else nothing. */
  function Contribution(o: Observed, parse: Parser): real {
    if o.rc != 0 then 0.0
    else
      var p := parse(o.out);
      if p.Success? && p.value.Some? then p.value.value else 0.0
  }

  /** The sum of the accuracies of the first `n` runs. */
  function SumContributions(runs: seq<Observed>, parse: Parser, n: nat): real
    requires n <= |runs|
  {
    if n == 0 then 0.0 else SumContributions(runs, parse, n - 1) + Contribution(runs[n - 1], parse)
  }

  /** The note a run adds to the error message: one for a non-zero exit. */
  function Note(o: Observed): string {
    if o.rc != 0 then TestcaseFailed(o.name, o.rc, o.out) else ""
  }

  /** The failure notes of the first `n` runs, in order. */
  function FailureNotes(runs: seq<Observed>, n: nat): string
    requires n <= |runs|
  {
    if n == 0 then "" else FailureNotes(runs, n - 1) + Note(runs[n - 1])
  }

  /** A loop that raised nothing raised nothing on a shorter prefix. */
  lemma RaisedPrefix(runs: seq<Observed>, parse: Parser, n: nat)
    requires 0 < n <= |runs|
    requires RaisedAfter(runs, parse, n).None?
    ensures RaisedAfter(runs, parse, n - 1).None?
  {
  }

  /** One more run of a loop that has raised nothing: its output is kept,
      then a non-zero exit adds a note, and otherwise the parser either
      raises or adds what it found. */
  lemma TestcasesNext(runs: seq<Observed>, parse: Parser, err0: string, i: nat)
    requires i < |runs| && RaisedAfter(runs, parse, i).None?
    ensures var g := Testcases(runs, parse, err0, i);
      var o := runs[i];
      var g' := g.(outputs := g.outputs + [Banner(o.name, o.out)]);
      Testcases(runs, parse, err0, i + 1)
        == if o.rc != 0 then g'.(allSuccess := false, errorMessage := g.errorMessage + TestcaseFailed(o.name, o.rc, o.out))
           else if parse(o.out).Failure? then g'.(raised := Some(parse(o.out).error))
           else if parse(o.out).value.Some? then g'.(total := g.total + parse(o.out).value.value)
           else g'
  {
  }

  /** Without an exception, the run succeeded exactly when every run
      exited 0. */
  lemma {:induction false} TestcasesAllSuccess(runs: seq<Observed>, parse: Parser, err0: string, n: nat)
    requires n <= |runs|
    requires Testcases(runs, parse, err0, n).raised.None?
    ensures Testcases(runs, parse, err0, n).allSuccess <==> forall k :: 0 <= k < n ==> runs[k].rc == 0
  {
    if n > 0 {
      RaisedPrefix(runs, parse, n);
      TestcasesAllSuccess(runs, parse, err0, n - 1);
    }
  }

  /** Without an exception, the total is the sum of the contributions. */
  lemma {:induction false} TestcasesTotal(runs: seq<Observed>, parse: Parser, err0: string, n: nat)
    requires n <= |runs|
    requires Testcases(runs, parse, err0, n).raised.None?
    ensures Testcases(runs, parse, err0, n).total == SumContributions(runs, parse, n)
  {
    if n > 0 {
      RaisedPrefix(runs, parse, n);
      TestcasesTotal(runs, parse, err0, n - 1);
    }
  }

  /** Without an exception, the error message is the old one followed by
      one note per failed run. */
  lemma {:induction false} TestcasesErrors(runs: seq<Observed>, parse: Parser, err0: string, n: nat)
    requires n <= |runs|
    requires Testcases(runs, parse, err0, n).raised.None?
    ensures Testcases(runs, parse, err0, n).errorMessage == err0 + FailureNotes(runs, n)
  {
    if n > 0 {
      RaisedPrefix(runs, parse, n);
      TestcasesErrors(runs, parse, err0, n - 1);
      ConcatAssoc(err0, FailureNotes(runs, n - 1), Note(runs[n - 1]));
    }
  }

  /** The banner-headed outputs of the first `n` runs, in order. */
  function Banners(runs: seq<Observed>, n: nat): seq<string>
    requires n <= |runs|
  {
    if n == 0 then [] else Banners(runs, n - 1) + [Banner(runs[n - 1].name, runs[n - 1].out)]
  }

  /** One banner-headed output per run, in order. */
  lemma {:induction false} BannersAt(runs: seq<Observed>, n: nat)
    requires n <= |runs|
    ensures |Banners(runs, n)| == n
    ensures forall k :: 0 <= k < n ==> Banners(runs, n)[k] == Banner(runs[k].name, runs[k].out)
  {
    if n > 0 {
      BannersAt(runs, n - 1);
    }
  }

  /** Without an exception, one banner-headed output is kept per run, in
      order. */
  lemma {:induction false} TestcasesOutputs(runs: seq<Observed>, parse: Parser, err0: string, n: nat)
    requires n <= |runs|
    requires Testcases(runs, parse, err0, n).raised.None?
    ensures Testcases(runs, parse, err0, n).outputs == Banners(runs, n)
  {
    if n > 0 {
      RaisedPrefix(runs, parse, n);
      TestcasesOutputs(runs, parse, err0, n - 1);
    }
  }

  /** Once the loop raised, it stays raised. */
  lemma {:induction false} RaisedSticks(runs: seq<Observed>, parse: Parser, err0: string, i: nat, n: nat)
    requires i <= n <= |runs|
    requires Testcases(runs, parse, err0, i).raised.Some?
    ensures Testcases(runs, parse, err0, n) == Testcases(runs, parse, err0, i)
  {
    if i < n {
      RaisedSticks(runs, parse, err0, i, n - 1);
    }
  }

  /** The state a completed testcase loop leaves: an exception keeps only
      the error message gathered so far; otherwise the run fields are
      set from what was gathered. */
  function Finish(s0: RunState, g: Gathered, n: nat): (RunState, Outcome<Raised>, bool)
    requires n > 0
  {
    if g.raised.Some? then (s0.(buildSuccess := true, errorMessage := g.errorMessage), Fail(g.raised.value), false)
    else
      (s0.(buildSuccess := true, runSuccess := g.allSuccess, dockerOutput := Join(g.outputs, "\n\n"),
           accuracy := Some(g.total / n as real), errorMessage := g.errorMessage),
       Pass, true)
  }

  /** The run state after a black-box run, the outcome, and whether the
      image was removed. */
  function BlackBox(s0: RunState, input: BlackBoxInputs): (RunState, Outcome<Raised>, bool) {
    var b := DockerRun(input.build, input.buildTimeout);
    if b.1 != 0 then
      (s0.(buildSuccess := false, errorMessage := BuildFailed(b.1, b.0), dockerOutput := b.0), Pass, false)
    else if input.testcases == [] then
      (s0.(buildSuccess := true, runSuccess := false, errorMessage := NoTestcases(input.testDir), dockerOutput := b.0),
       Pass, true)
    else
      var runs := Observe(input.testcases, input.runTimeout);
      Finish(s0, Testcases(runs, ParseAccuracyBlackBox, s0.errorMessage, |runs|), |runs|)
  }

  /** A failed build runs no testcase and removes no image: its state
      does not depend on the testcases, and only the build fields change. */
  lemma BlackBoxBuildFailure(s0: RunState, input: BlackBoxInputs, other: seq<(string, DockerResult)>)
    requires DockerRun(input.build, input.buildTimeout).1 != 0
    ensures BlackBox(s0, input) == BlackBox(s0, input.(testcases := other))
    ensures var (s, r, cleaned) := BlackBox(s0, input);
      && !s.buildSuccess && r == Pass && !cleaned
      && StartsWith(s.errorMessage, "Docker build failed (exit ")
      && s.dockerOutput == DockerRun(input.build, input.buildTimeout).0
      && s.runSuccess == s0.runSuccess && s.accuracy == s0.accuracy
  {
    var b := DockerRun(input.build, input.buildTimeout);
    var m := BuildFailed(b.1, b.0);
    assert m[..26] == "Docker build failed (exit ";
  }

  /** No testcase directory: the run failed, no accuracy is set. */
  lemma BlackBoxNoTestcases(s0: RunState, input: BlackBoxInputs)
    requires DockerRun(input.build, input.buildTimeout).1 == 0 && input.testcases == []
    ensures var (s, r, cleaned) := BlackBox(s0, input);
      s.buildSuccess && !s.runSuccess && s.accuracy == s0.accuracy && r == Pass && cleaned
      && s.errorMessage == "No testcase directories found in " + input.testDir
  {
  }

  /** After a built image and at least one testcase, without an exception:
      the run succeeded exactly when every testcase exited 0; the outputs
      are the banner-headed run outputs in order; the accuracy is the
      parsed accuracies of the runs that exited 0, summed and divided by
      the number of testcases; the error message gained one note per
      failed testcase. */
  lemma BlackBoxRunResult(s0: RunState, input: BlackBoxInputs)
    requires DockerRun(input.build, input.buildTimeout).1 == 0 && input.testcases != []
    requires BlackBox(s0, input).1 == Pass
    ensures var runs := Observe(input.testcases, input.runTimeout);
      var s := BlackBox(s0, input).0;
      && s.buildSuccess
      && (s.runSuccess <==> forall k :: 0 <= k < |runs| ==> runs[k].rc == 0)
      && s.accuracy == Some(SumContributions(runs, ParseAccuracyBlackBox, |runs|) / |runs| as real)
      && s.errorMessage == s0.errorMessage + FailureNotes(runs, |runs|)
      && BlackBox(s0, input).2
  {
    var runs := Observe(input.testcases, input.runTimeout);
    var g := Testcases(runs, ParseAccuracyBlackBox, s0.errorMessage, |runs|);
    assert g.raised.None?;
    TestcasesAllSuccess(runs, ParseAccuracyBlackBox, s0.errorMessage, |runs|);
    TestcasesTotal(runs, ParseAccuracyBlackBox, s0.errorMessage, |runs|);
    TestcasesErrors(runs, ParseAccuracyBlackBox, s0.errorMessage, |runs|);
  }

  /** The black-box output is the testcases' banner-headed outputs joined
      by blank lines. */
  lemma BlackBoxOutputs(s0: RunState, input: BlackBoxInputs)
    requires DockerRun(input.build, input.buildTimeout).1 == 0 && input.testcases != []
    requires BlackBox(s0, input).1 == Pass
    ensures var runs := Observe(input.testcases, input.runTimeout);
      BlackBox(s0, input).0.dockerOutput == Join(Banners(runs, |runs|), "\n\n")
  {
    var runs := Observe(input.testcases, input.runTimeout);
    TestcasesOutputs(runs, ParseAccuracyBlackBox, s0.errorMessage, |runs|);
  }

  /** The testcase loop of `_run_black_box`: runs every testcase in order,
      appending a note to the error message for each that fails, and stops
      at the first exception from the accuracy parser `parse`. */
  method RunTestcases(cases: seq<(string, DockerResult)>, timeout: int, parse: Parser, err0: string) returns (g: Gathered)
    ensures g == Testcases(Observe(cases, timeout), parse, err0, |cases|)
  {
    ghost var runs := Observe(cases, timeout);
    g := Gathered(0.0, [], true, err0, None);
    var i := 0;
    while i < |cases| && g.raised.None?
      invariant i <= |cases|
      invariant g == Testcases(runs, parse, err0, i)
    {
      TestcasesNext(runs, parse, err0, i);
      var name := cases[i].0;
      var d := DockerRun(cases[i].1, timeout);
      assert runs[i] == Observed(name, d.0, d.1);
      g := g.(outputs := g.outputs + [Banner(name, d.0)]);
      if d.1 != 0 {
        g := g.(allSuccess := false, errorMessage := g.errorMessage + TestcaseFailed(name, d.1, d.0));
      } else {
        var p := parse(d.0);
        if p.Failure? {
          g := g.(raised := Some(p.error));
        } else if p.value.Some? {
          g := g.(total := g.total + p.value.value);
        }
      }
      i := i + 1;
    }
    if g.raised.Some? {
      RaisedSticks(runs, parse, err0, i, |cases|);
    }
  }

  /** The testcases of `_run_black_box` and what follows them: the error
      message keeps the notes gathered, and the other run fields are set
      only when no exception stopped the loop. */
  method ScoreTestcases(exp: FHEExperiment, cases: seq<(string, DockerResult)>, timeout: int)
      returns (r: Outcome<Raised>, cleanedUp: bool)
    requires cases != [] && exp.buildSuccess
    modifies exp
    ensures var f := Finish(old(exp.State()), Testcases(Observe(cases, timeout), ParseAccuracyBlackBox, old(exp.errorMessage), |cases|), |cases|);
      exp.State() == f.0 && r == f.1 && cleanedUp == f.2
    ensures exp.fileDict == old(exp.fileDict)
    ensures exp.subTasks == old(exp.subTasks) && exp.hypothesis == old(exp.hypothesis)
  {
    var g := RunTestcases(cases, timeout, ParseAccuracyBlackBox, exp.errorMessage);
    r, cleanedUp := RecordGathered(exp, g, |cases|);
  }

  /** The end of `_run_black_box`: the error notes are kept; an exception
      from the parser leaves the rest untouched and the image in place;
      otherwise the run flag, the joined outputs and the mean accuracy over
      `n` testcases are recorded and the image is removed. */
  method RecordGathered(exp: FHEExperiment, g: Gathered, n: nat) returns (r: Outcome<Raised>, cleanedUp: bool)
    requires n > 0 && exp.buildSuccess
    modifies exp
    ensures exp.State() == Finish(old(exp.State()), g, n).0
    ensures r == Finish(old(exp.State()), g, n).1 && cleanedUp == Finish(old(exp.State()), g, n).2
    ensures exp.fileDict == old(exp.fileDict)
    ensures exp.subTasks == old(exp.subTasks) && exp.hypothesis == old(exp.hypothesis)
  {
    exp.errorMessage := g.errorMessage;
    if g.raised.Some? {
      return Fail(g.raised.value), false;
    }
    exp.runSuccess := g.allSuccess;
    exp.dockerOutput := Join(g.outputs, "\n\n");
    exp.accuracy := Some(g.total / n as real);
    r, cleanedUp := Pass, true;
  }

  /** After a built image and at least one testcase, the black-box run
      finishes with what the testcase loop gathered. */
  lemma BlackBoxFinish(s0: RunState, input: BlackBoxInputs, g: Gathered)
    requires DockerRun(input.build, input.buildTimeout).1 == 0 && input.testcases != []
    requires g == Testcases(Observe(input.testcases, input.runTimeout), ParseAccuracyBlackBox, s0.errorMessage, |input.testcases|)
    ensures BlackBox(s0, input) == Finish(s0, g, |input.testcases|)
  {
  }

  /** `_run_black_box`: build, then run the testcases; a failed build
      returns before any testcase and without removing the image, as does
      an exception from the accuracy parser. */
  method RunBlackBox(exp: FHEExperiment, input: BlackBoxInputs) returns (r: Outcome<Raised>, cleanedUp: bool)
    modifies exp
    ensures exp.State() == BlackBox(old(exp.State()), input).0
    ensures r == BlackBox(old(exp.State()), input).1
    ensures cleanedUp == BlackBox(old(exp.State()), input).2
    ensures exp.fileDict == old(exp.fileDict)
    ensures exp.subTasks == old(exp.subTasks) && exp.hypothesis == old(exp.hypothesis)
  {
    var b := DockerRun(input.build, input.buildTimeout);
    if b.1 != 0 {
      exp.buildSuccess := false;
      exp.errorMessage := BuildFailed(b.1, b.0);
      exp.dockerOutput := b.0;
      return Pass, false;
    }
    exp.buildSuccess := true;
    var cases := input.testcases;
    if cases == [] {
      exp.runSuccess := false;
      exp.errorMessage := NoTestcases(input.testDir);
      exp.dockerOutput := b.0;
      return Pass, true;
    }
    r, cleanedUp := ScoreTestcases(exp, cases, input.runTimeout);
    BlackBoxFinish(old(exp.State()), input,
      Testcases(Observe(cases, input.runTimeout), ParseAccuracyBlackBox, old(exp.errorMessage), |cases|));
  }

  // ---------------------------------------------------------------------
  // White box
  // ---------------------------------------------------------------------

  /** What the validator left in `app_build/result.json`. */
  datatype ResultFile = NoResultFile | Undecodable | Decoded(data: Json)

  /** The oracle inputs of a white-box run. */
  datatype WhiteBoxInputs = WhiteBoxInputs(run: DockerResult, runTimeout: int, resultFile: ResultFile)

  /** The output fragments that mark a failed compilation. */
  const BuildMarkers: seq<string> := ["cmake error", "compilation", "error:", "make[", "undefined reference"]

  /** Whether the lower-cased output holds one of the build markers. */
  predicate IsBuildFailure(out: string) {
    exists k :: 0 <= k < |BuildMarkers| && Contains(ToLower(out), BuildMarkers[k])
  }

  function CompileError(out: string): string {
    "Compilation/build error:\n" + TakeLast(out, 3000)
  }

  function RuntimeError(rc: int, out: string): string {
    "Runtime error (exit " + IntToString(rc) + "):\n" + TakeLast(out, 3000)
  }

  /** The run state after a validator run that exited with `rc != 0`:
      a build failure when a marker shows, a runtime error otherwise. */
  function FailedRun(s0: RunState, out: string, rc: int): RunState {
    if IsBuildFailure(out) then
      s0.(dockerOutput := out, buildSuccess := false, runSuccess := false, errorMessage := CompileError(out))
    else
      s0.(dockerOutput := out, buildSuccess := true, runSuccess := false, errorMessage := RuntimeError(rc, out))
  }

  /** The run state after a white-box run, and the outcome. */
  function WhiteBox(s0: RunState, input: WhiteBoxInputs, parse: string -> Option<real>): (RunState, Outcome<Raised>) {
    var d := DockerRun(input.run, input.runTimeout);
    if d.1 != 0 then
      (FailedRun(s0, d.0, d.1), Pass)
    else
      PassedRun(s0, d.0, input.resultFile, parse)
  }

  /** The run state and outcome after a validator run that exited with 0:
      the accuracy comes from `result.json` or, without it, from the
      output, whose parse may raise. */
  function PassedRun(s0: RunState, out: string, resultFile: ResultFile, parse: string -> Option<real>): (RunState, Outcome<Raised>) {
    var s1 := s0.(dockerOutput := out, buildSuccess := true, runSuccess := true);
    if resultFile.NoResultFile? then
      var p := ParseAccuracyFromOutput(out);
      if p.Failure? then (s1, Fail(p.error)) else (s1.(accuracy := p.value), Pass)
    else
      var data := if resultFile.Decoded? then Some(resultFile.data) else None;
      (s1.(accuracy := SlotAccuracy(data, parse)), Pass)
  }

  /** A non-zero exit is a build failure exactly when a build marker shows
      in the output, and a run failure either way; exit 0 means both
      succeeded. The output is always recorded. */
  lemma WhiteBoxClassification(s0: RunState, input: WhiteBoxInputs, parse: string -> Option<real>)
    ensures var s := WhiteBox(s0, input, parse).0;
      var d := DockerRun(input.run, input.runTimeout);
      && s.dockerOutput == d.0
      && (d.1 != 0 ==> !s.runSuccess && (!s.buildSuccess <==> IsBuildFailure(d.0)) && s.accuracy == s0.accuracy)
      && (d.1 == 0 ==> s.buildSuccess && s.runSuccess && s.errorMessage == s0.errorMessage)
  {
  }

  /** Exit 0 with a `result.json`: the accuracy is the slot accuracy, a
      fraction, and nothing is raised. */
  lemma WhiteBoxSlotAccuracy(s0: RunState, input: WhiteBoxInputs, parse: string -> Option<real>)
    requires DockerRun(input.run, input.runTimeout).1 == 0 && !input.resultFile.NoResultFile?
    ensures var (s, r) := WhiteBox(s0, input, parse);
      && r == Pass
      && (s.accuracy.Some? ==> 0.0 <= s.accuracy.value <= 1.0)
      && (input.resultFile.Undecodable? ==> s.accuracy.None?)
  {
    var data := if input.resultFile.Decoded? then Some(input.resultFile.data) else None;
    SlotAccuracyBounds(data, parse);
  }

  /** The markers are matched case-insensitively. */
  lemma BuildMarkersIgnoreCase(out: string)
    ensures IsBuildFailure(ToLower(out)) <==> IsBuildFailure(out)
  {
    assert ToLower(ToLower(out)) == ToLower(out);
  }

  /** The non-zero exit branch of `_run_white_box`: the output is recorded
      and classified by the build markers. */
  method RecordFailedRun(exp: FHEExperiment, out: string, rc: int)
    modifies exp
    ensures exp.State() == FailedRun(old(exp.State()), out, rc)
    ensures exp.fileDict == old(exp.fileDict)
    ensures exp.subTasks == old(exp.subTasks) && exp.hypothesis == old(exp.hypothesis)
  {
    exp.dockerOutput := out;
    if IsBuildFailure(out) {
      exp.buildSuccess := false;
      exp.runSuccess := false;
      exp.errorMessage := CompileError(out);
    } else {
      exp.buildSuccess := true;
      exp.runSuccess := false;
      exp.errorMessage := RuntimeError(rc, out);
    }
  }

  /** The exit-0 branch of `_run_white_box`: build and run succeeded, and
      the accuracy is read from `result.json` or from the output. */
  method RecordPassedRun(exp: FHEExperiment, out: string, resultFile: ResultFile, parse: string -> Option<real>)
      returns (r: Outcome<Raised>)
    modifies exp
    ensures exp.State() == PassedRun(old(exp.State()), out, resultFile, parse).0
    ensures r == PassedRun(old(exp.State()), out, resultFile, parse).1
    ensures exp.fileDict == old(exp.fileDict)
    ensures exp.subTasks == old(exp.subTasks) && exp.hypothesis == old(exp.hypothesis)
  {
    exp.dockerOutput := out;
    exp.buildSuccess := true;
    exp.runSuccess := true;
    if resultFile.NoResultFile? {
      var p := ParseAccuracyFromOutput(out);
      if p.Failure? {
        return Fail(p.error);
      }
      exp.accuracy := p.value;
    } else {
      var data := if resultFile.Decoded? then Some(resultFile.data) else None;
      exp.accuracy := ParseAccuracyWhiteBox(data, parse);
    }
    r := Pass;
  }

  /** `_run_white_box`: one validator run; a non-zero exit is classified
      by the build markers, otherwise the accuracy comes from `result.json`
      or, without it, from the output. */
  method RunWhiteBox(exp: FHEExperiment, input: WhiteBoxInputs, parse: string -> Option<real>) returns (r: Outcome<Raised>)
    modifies exp
    ensures exp.State() == WhiteBox(old(exp.State()), input, parse).0
    ensures r == WhiteBox(old(exp.State()), input, parse).1
    ensures exp.fileDict == old(exp.fileDict)
    ensures exp.subTasks == old(exp.subTasks) && exp.hypothesis == old(exp.hypothesis)
  {
    var d := DockerRun(input.run, input.runTimeout);
    if d.1 != 0 {
      RecordFailedRun(exp, d.0, d.1);
      return Pass;
    }
    r := RecordPassedRun(exp, d.0, input.resultFile, parse);
  }

  // ---------------------------------------------------------------------
  // `develop`
  // ---------------------------------------------------------------------

  /** `develop`: the black-box path for `"black_box"`, the white-box path
      for every other challenge type. The image is removed only on the
      black-box path. */
  method Run(exp: FHEExperiment, challengeType: string, blackBox: BlackBoxInputs, whiteBox: WhiteBoxInputs,
             parse: string -> Option<real>) returns (r: Outcome<Raised>, cleanedUp: bool)
    modifies exp
    ensures challengeType == "black_box" ==>
      exp.State() == BlackBox(old(exp.State()), blackBox).0 && r == BlackBox(old(exp.State()), blackBox).1
      && cleanedUp == BlackBox(old(exp.State()), blackBox).2
    ensures challengeType != "black_box" ==>
      exp.State() == WhiteBox(old(exp.State()), whiteBox, parse).0 && r == WhiteBox(old(exp.State()), whiteBox, parse).1
      && !cleanedUp
    ensures exp.fileDict == old(exp.fileDict)
    ensures exp.subTasks == old(exp.subTasks) && exp.hypothesis == old(exp.hypothesis)
  {
    if challengeType == "black_box" {
      r, cleanedUp := RunBlackBox(exp, blackBox);
    } else {
      r := RunWhiteBox(exp, whiteBox, parse);
      cleanedUp := false;
    }
  }
}
