/** The trace viewer's data side: reading the eval() body back out of a
    C++ file, grouping logged messages per loop, listing loop ids and
    finding the latest generated code. Rendering is not modelled. */
module TraceView {
  import opened Wrappers
  import opened Text
  import opened Patcher

  // ---------------------------------------------------------------------
  // `_extract_eval_body`
  // ---------------------------------------------------------------------

  /** `code[start:pos - 1]` as Python slices it: empty when `pos` is
      `start`. */
  function Between(code: string, start: nat, pos: nat): string
    requires start <= pos <= |code|
  {
    if pos == start then "" else code[start..pos - 1]
  }

  /** The eval body of a C++ text: `None` without a marker, otherwise the
      stripped text between the marker's `{` and index `pos - 1` of the
      depth scan, or `None` when that is blank. */
  function ExtractedBody(code: string): (r: Option<string>)
    ensures FindMarker(code).None? ==> r.None?
    ensures r.Some? ==> r.value != [] && r.value == Strip(r.value)
  {
    var m := FindMarker(code);
    if m.None? then None
    else
      var body := Strip(Between(code, m.value.end, Close(code, m.value.end)));
      StripIdempotent(Between(code, m.value.end, Close(code, m.value.end)));
      if body == [] then None else Some(body)
  }

  /** `_extract_eval_body`, with the scan shared with the patcher. */
  method ExtractEvalBody(code: string) returns (r: Option<string>)
    ensures r == ExtractedBody(code)
  {
    var m := FindMarker(code);
    if m.None? {
      return None;
    }
    var start := m.value.end;
    var pos := ScanToClose(code, start);
    var body := Strip(Between(code, start, pos));
    if body == [] {
      r := None;
    } else {
      r := Some(body);
    }
  }

  /** The scan stops at `p` when the depth stays positive before `p` and
      either is not positive at `p` or the text ends there. */
  lemma {:induction false} CloseFromAt(t: string, start: nat, q: nat, p: nat)
    requires start <= q <= p <= |t|
    requires forall x :: q <= x < p ==> Depth(t, start, x) > 0
    requires p == |t| || Depth(t, start, p) <= 0
    ensures CloseFrom(t, start, q) == p
    decreases p - q
  {
    if q < p {
      CloseFromAt(t, start, q + 1, p);
    }
  }

  /** Every prefix of a balanced body framed by newlines leaves the depth
      positive. */
  lemma FramedPrefixNet(body: string, k: nat)
    requires Balanced(body)
    requires k <= |body| + 2
    ensures Net(("\n" + body + "\n")[..k]) >= 0
  {
    var w := "\n" + body + "\n";
    if k == 0 {
      assert w[..k] == [];
    } else if k <= |body| + 1 {
      assert w[..k] == "\n" + body[..k - 1];
      NetAppend("\n", body[..k - 1]);
      assert Net("\n") == Net([]) + Delta('\n');
    } else {
      assert w[..k] == "\n" + body + "\n";
      NetAppend("\n" + body, "\n");
      NetAppend("\n", body);
      assert Net("\n") == Net([]) + Delta('\n');
      assert body[..|body|] == body;
    }
  }

  /** In the injected text, the scan that starts after the marker's `{`
      stops one character after the injected body: right after the `}`
      that follows it, or at the end of the text when the template's scan
      ran to its end. */
  lemma CloseAfterInjection(t: string, body: string, e: nat, pos: nat, r: string)
    requires 0 < e <= pos <= |t| && (pos == |t| || t[pos - 1] == '}')
    requires Balanced(body)
    requires r == Splice(t, e, pos, body)
    ensures e + |body| + 3 <= |r|
    ensures Close(r, e) == e + |body| + 3
    ensures r[e..e + |body| + 2] == "\n" + body + "\n"
  {
    var w := "\n" + body + "\n";
    var p := e + |body| + 3;
    InjectedParts(t, body, e, pos, r);
    forall x | e <= x < p ensures Depth(r, e, x) > 0 {
      assert r[e..x] == w[..x - e];
      FramedPrefixNet(body, x - e);
    }
    if t[pos - 1] == '}' {
      assert r[e..p] == w + "}" by {
        assert r[e..p] == r[e..e + |w|] + [r[e + |w|]];
      }
      NetAppend(w, "}");
      NetAppend("\n" + body, "\n");
      NetAppend("\n", body);
      assert Net("\n") == Net([]) + Delta('\n');
      assert Net("}") == Net([]) + Delta('}');
    } else {
      assert p == |r|;
    }
    CloseFromAt(r, e, e, p);
  }

  /** The extracted body of a text whose marker and scan are known. */
  lemma ExtractedAt(code: string, m: Marker, p: nat)
    requires FindMarker(code) == Some(m)
    requires p == Close(code, m.end)
    ensures m.end <= p <= |code|
    ensures ExtractedBody(code)
      == if Strip(Between(code, m.end, p)) == [] then None else Some(Strip(Between(code, m.end, p)))
  {
  }

  /** The marker of a template is the marker of every splice into it. */
  lemma SpliceMarker(t: string, body: string, m: Marker, pos: nat)
    requires FindMarker(t) == Some(m)
    requires m.end <= pos <= |t|
    ensures FindMarker(Splice(t, m.end, pos, body)) == Some(m)
  {
    SpliceKeepsHead(t, m.end, pos, body);
    FindMarkerKeepsPrefix(t, m, ("\n" + body + "\n") + t[pos - 1..]);
  }

  /** In a splice before a `}`, the scan from the marker's `{` reads the
      framed body and stops after that `}`. */
  lemma SpliceBetween(t: string, body: string, e: nat, pos: nat)
    requires 0 < e <= pos <= |t| && (pos == |t| || t[pos - 1] == '}')
    requires Balanced(body)
    ensures var r := Splice(t, e, pos, body);
      e + |body| + 3 <= |r| && Close(r, e) == e + |body| + 3
      && Between(r, e, e + |body| + 3) == "\n" + body + "\n"
  {
    CloseAfterInjection(t, body, e, pos, Splice(t, e, pos, body));
  }

  /** Extraction from a spliced text finds the spliced body again. */
  lemma ExtractFromSplice(t: string, body: string, m: Marker, pos: nat)
    requires FindMarker(t) == Some(m)
    requires m.end <= pos <= |t| && (pos == |t| || t[pos - 1] == '}')
    requires Balanced(body)
    ensures ExtractedBody(Splice(t, m.end, pos, body))
      == if Strip(body) == [] then None else Some(Strip(body))
  {
    var r := Splice(t, m.end, pos, body);
    SpliceMarker(t, body, m, pos);
    SpliceBetween(t, body, m.end, pos);
    ExtractedAt(r, m, m.end + |body| + 3);
    StripNewlines(body);
  }

  /** Round trip: injecting a balanced body into a template with a marker,
      then extracting it again, gives the body back stripped, or `None`
      when it is blank. This holds whether or not the template's eval body
      closes. */
  lemma InjectThenExtract(t: string, body: string)
    requires FindMarker(t).Some?
    requires Balanced(body)
    ensures Injected(t, body).Success?
    ensures ExtractedBody(Injected(t, body).value)
      == if Strip(body) == [] then None else Some(Strip(body))
  {
    var m := FindMarker(t).value;
    InjectedIsSplice(t, body, m);
    CloseCharacterized(t, m.end);
    ExtractFromSplice(t, body, m, Close(t, m.end));
  }

  // ---------------------------------------------------------------------
  // `load_fhe_data`
  // ---------------------------------------------------------------------

  /** What a logged message carries, as far as the viewer looks: a
      dictionary (the settings), an experiment with the file dictionary of
      its workspace if it has one, or anything else. */
  datatype Logged =
    | DictContent(fields: map<string, string>)
    | ExperimentContent(workspace: Option<map<string, string>>)
    | OtherContent(id: nat)

  /** A logged message: its tag, and the loop id and step name read from
      the tag. */
  datatype LogMsg = LogMsg(tag: string, loopId: Option<nat>, funcName: string, content: Logged)

  /** Per loop, per step, per last tag segment: the latest content. */
  type LoopData = map<string, map<string, Logged>>

  /** The grouped data: the settings, the scenario and the loops. */
  datatype FheData = FheData(settings: Option<map<string, string>>, scenario: Option<Logged>, loops: map<nat, LoopData>)

  const SettingsTag: string := "FHE_SETTINGS"
  const ScenarioTag: string := "scenario"

  predicate IsSettingsMsg(m: LogMsg) {
    m.tag != "" && Contains(m.tag, SettingsTag) && m.content.DictContent?
  }

  predicate IsScenarioMsg(m: LogMsg) {
    m.tag != "" && !IsSettingsMsg(m) && Contains(m.tag, ScenarioTag) && m.loopId.None?
  }

  /** A message filed under its loop. */
  predicate IsLoopMsg(m: LogMsg) {
    m.tag != "" && m.loopId.Some?
  }

  /** `data[li][fn][key] = content` on the default dictionaries. */
  function Put(loops: map<nat, LoopData>, l: nat, fn: string, key: string, v: Logged): map<nat, LoopData> {
    var loop := if l in loops then loops[l] else map[];
    var step := if fn in loop then loop[fn] else map[];
    loops[l := loop[fn := step[key := v]]]
  }

  /** The effect of one message. */
  function LoadStep(d: FheData, m: LogMsg): FheData {
    FheData(
      if IsSettingsMsg(m) then Some(m.content.fields) else d.settings,
      if IsScenarioMsg(m) then Some(m.content) else d.scenario,
      if IsLoopMsg(m) then Put(d.loops, m.loopId.value, m.funcName, LastSegment(m.tag, '.'), m.content) else d.loops)
  }

  function LoadFold(msgs: seq<LogMsg>, n: nat): FheData
    requires n <= |msgs|
  {
    if n == 0 then FheData(None, None, map[]) else LoadStep(LoadFold(msgs, n - 1), msgs[n - 1])
  }

  /** `load_fhe_data`, with the messages already read from the log. */
  method LoadFheData(msgs: seq<LogMsg>) returns (d: FheData)
    ensures d == LoadFold(msgs, |msgs|)
  {
    d := FheData(None, None, map[]);
    for i := 0 to |msgs|
      invariant d == LoadFold(msgs, i)
    {
      var m := msgs[i];
      if m.tag == "" {
        continue;
      }
      if Contains(m.tag, SettingsTag) && m.content.DictContent? {
        d := d.(settings := Some(m.content.fields));
        if m.loopId.None? {
          continue;
        }
      }
      if Contains(m.tag, ScenarioTag) && m.loopId.None? {
        d := d.(scenario := Some(m.content));
        continue;
      }
      if m.loopId.None? {
        continue;
      }
      d := d.(loops := Put(d.loops, m.loopId.value, m.funcName, LastSegment(m.tag, '.'), m.content));
    }
  }

  /** The message `k` is filed under loop `l`, step `fn` and key `key`. */
  predicate FiledAt(m: LogMsg, l: nat, fn: string, key: string) {
    IsLoopMsg(m) && m.loopId == Some(l) && m.funcName == fn && LastSegment(m.tag, '.') == key
  }

  /** `data[l][fn][key]`, when it is there. */
  function Slot(loops: map<nat, LoopData>, l: nat, fn: string, key: string): Option<Logged> {
    if l in loops && fn in loops[l] && key in loops[l][fn] then Some(loops[l][fn][key]) else None
  }

  /** `Put` writes its own slot and leaves every other one alone. */
  lemma PutSlot(loops: map<nat, LoopData>, l: nat, fn: string, key: string, v: Logged, l': nat, fn': string, key': string)
    ensures Slot(Put(loops, l, fn, key, v), l', fn', key')
         == if l' == l && fn' == fn && key' == key then Some(v) else Slot(loops, l', fn', key')
    ensures l' in Put(loops, l, fn, key, v) <==> l' in loops || l' == l
  {
  }

  /** One more message changes only the slot it is filed at. */
  lemma LoadSlot(msgs: seq<LogMsg>, n: nat, l: nat, fn: string, key: string)
    requires 0 < n <= |msgs|
    ensures Slot(LoadFold(msgs, n).loops, l, fn, key)
         == if FiledAt(msgs[n - 1], l, fn, key) then Some(msgs[n - 1].content) else Slot(LoadFold(msgs, n - 1).loops, l, fn, key)
  {
    var m := msgs[n - 1];
    if IsLoopMsg(m) {
      PutSlot(LoadFold(msgs, n - 1).loops, m.loopId.value, m.funcName, LastSegment(m.tag, '.'), m.content, l, fn, key);
    }
  }

  /** The loops are exactly the loop ids of the messages with one: the
      rest are dropped, apart from the settings and the scenario. */
  lemma {:induction false} LoadedLoops(msgs: seq<LogMsg>, n: nat, l: nat)
    requires n <= |msgs|
    ensures l in LoadFold(msgs, n).loops <==> exists k :: 0 <= k < n && IsLoopMsg(msgs[k]) && msgs[k].loopId == Some(l)
  {
    if n > 0 {
      LoadedLoops(msgs, n - 1, l);
      var m := msgs[n - 1];
      if IsLoopMsg(m) {
        PutSlot(LoadFold(msgs, n - 1).loops, m.loopId.value, m.funcName, LastSegment(m.tag, '.'), m.content, l, "", "");
      }
    }
  }

  /** Which messages are filed at a slot. */
  function Filings(msgs: seq<LogMsg>, l: nat, fn: string, key: string): (r: seq<bool>)
    ensures |r| == |msgs|
  {
    seq(|msgs|, k requires 0 <= k < |msgs| => FiledAt(msgs[k], l, fn, key))
  }

  /** Each slot holds the content of the last message filed there, and is
      empty when none was: a later message at the same slot wins. */
  lemma {:induction false} LoadedLastWins(msgs: seq<LogMsg>, n: nat, l: nat, fn: string, key: string)
    requires n <= |msgs|
    ensures Slot(LoadFold(msgs, n).loops, l, fn, key)
         == match LastSet(Filings(msgs, l, fn, key), n)
              case None => None
              case Some(k) => Some(msgs[k].content)
  {
    if n > 0 {
      var flags := Filings(msgs, l, fn, key);
      assert flags[n - 1] == FiledAt(msgs[n - 1], l, fn, key);
      LoadedLastWins(msgs, n - 1, l, fn, key);
      LoadSlot(msgs, n, l, fn, key);
      if !flags[n - 1] {
        assert LastSet(flags, n) == LastSet(flags, n - 1);
      }
    }
  }

  /** The settings are those of the last settings message, whether or
      not it has a loop id; there are none without such a message. */
  lemma {:induction false} LoadedSettings(msgs: seq<LogMsg>, n: nat)
    requires n <= |msgs|
    ensures var st := LoadFold(msgs, n).settings;
      && (st.None? <==> forall k :: 0 <= k < n ==> !IsSettingsMsg(msgs[k]))
      && (st.Some? ==> exists k :: 0 <= k < n && IsSettingsMsg(msgs[k]) && st.value == msgs[k].content.fields
                         && forall k' :: k < k' < n ==> !IsSettingsMsg(msgs[k']))
  {
    if n > 0 {
      LoadedSettings(msgs, n - 1);
      var st := LoadFold(msgs, n).settings;
      if !IsSettingsMsg(msgs[n - 1]) && st.Some? {
        var k :| 0 <= k < n - 1 && IsSettingsMsg(msgs[k]) && st.value == msgs[k].content.fields
                 && forall k' :: k < k' < n - 1 ==> !IsSettingsMsg(msgs[k']);
        assert forall k' :: k < k' < n ==> !IsSettingsMsg(msgs[k']);
      }
    }
  }

  // ---------------------------------------------------------------------
  // `get_loop_ids`
  // ---------------------------------------------------------------------

  /** Strictly ascending. */
  predicate Ascending(ids: seq<nat>) {
    forall i, j :: 0 <= i < j < |ids| ==> ids[i] < ids[j]
  }

  /** A nonempty set of loop ids has a least element. */
  /** `m` is the least element of `s`. */
  predicate IsLeast(m: nat, s: set<nat>) {
    m in s && forall x :: x in s ==> m <= x
  }

  lemma HasLeast(s: set<nat>)
    requires s != {}
    ensures exists m :: m in s && IsLeast(m, s)
  {
    var y :| y in s;
    LeastFrom(s, 0, y);
  }

  /** Counting up from a lower bound `k` of `s` reaches its least element
      by the time it reaches the element `y`. */
  lemma {:induction false} LeastFrom(s: set<nat>, k: nat, y: nat)
    requires y in s && forall x :: x in s ==> k <= x
    ensures exists m :: m in s && forall x :: x in s ==> m <= x
    decreases y - k
  {
    if k !in s {
      LeastFrom(s, k + 1, y);
    }
  }

  /** The ids listed so far and the ones remaining split `keys`; the
      listed ones ascend and lie below every remaining one. */
  ghost predicate ListedBelow(keys: set<nat>, ids: seq<nat>, rest: set<nat>) {
    && (forall l :: l in keys <==> l in ids || l in rest)
    && (forall l :: l in ids ==> l !in rest)
    && Ascending(ids)
    && (forall i, x :: 0 <= i < |ids| && x in rest ==> ids[i] < x)
  }

  /** Taking the least remaining id keeps the split. */
  lemma AppendLeast(keys: set<nat>, ids: seq<nat>, rest: set<nat>, m: nat)
    requires ListedBelow(keys, ids, rest)
    requires IsLeast(m, rest)
    ensures ListedBelow(keys, ids + [m], rest - {m})
  {
  }

  /** `get_loop_ids`: the loop ids, in ascending order. */
  method GetLoopIds(d: FheData) returns (ids: seq<nat>)
    ensures Ascending(ids)
    ensures forall l :: l in d.loops <==> l in ids
  {
    ids := [];
    var rest := d.loops.Keys;
    while rest != {}
      invariant ListedBelow(d.loops.Keys, ids, rest)
      decreases |rest|
    {
      HasLeast(rest);
      var m :| m in rest && IsLeast(m, rest);
      AppendLeast(d.loops.Keys, ids, rest, m);
      ids := ids + [m];
      rest := rest - {m};
    }
  }

  // ---------------------------------------------------------------------
  // `get_latest_code`
  // ---------------------------------------------------------------------

  const RunStep: string := "running"
  const RunKey: string := "run_experiment"
  const CodeStep: string := "coding"
  const CodeKey: string := "coded_experiment"

  /** The non-empty file dictionary of the experiment a loop logged under
      `fn` and `key`, if there is one. */
  function CodeAt(loop: LoopData, fn: string, key: string): Option<map<string, string>> {
    if fn in loop && key in loop[fn] && loop[fn][key].ExperimentContent?
       && loop[fn][key].workspace.Some? && loop[fn][key].workspace.value != map[]
    then loop[fn][key].workspace
    else None
  }

  /** A loop's code: the run experiment's, else the coded experiment's. */
  function LoopCode(loop: LoopData): (r: Option<map<string, string>>)
    ensures r.Some? ==> r.value != map[]
    ensures CodeAt(loop, RunStep, RunKey).Some? ==> r == CodeAt(loop, RunStep, RunKey)
    ensures r.None? <==> CodeAt(loop, RunStep, RunKey).None? && CodeAt(loop, CodeStep, CodeKey).None?
  {
    var run := CodeAt(loop, RunStep, RunKey);
    if run.Some? then run else CodeAt(loop, CodeStep, CodeKey)
  }

  /** `get_latest_code`: the code of the highest loop that has any, with
      that loop's id; nothing when no loop has code. */
  method GetLatestCode(d: FheData) returns (r: Option<(map<string, string>, nat)>)
    ensures r.None? <==> forall l :: l in d.loops ==> LoopCode(d.loops[l]).None?
    ensures r.Some? ==> r.value.1 in d.loops && LoopCode(d.loops[r.value.1]) == Some(r.value.0)
    ensures r.Some? ==> forall l :: l in d.loops && l > r.value.1 ==> LoopCode(d.loops[l]).None?
  {
    var ids := GetLoopIds(d);
    var i := |ids|;
    while i > 0
      invariant 0 <= i <= |ids|
      invariant forall j :: i <= j < |ids| ==> LoopCode(d.loops[ids[j]]).None?
    {
      i := i - 1;
      var loop := d.loops[ids[i]];
      var code := LoopCode(loop);
      if code.Some? {
        forall l | l in d.loops && l > ids[i]
          ensures LoopCode(d.loops[l]).None?
        {
          var j :| 0 <= j < |ids| && ids[j] == l;
          assert j > i;
        }
        return Some((code.value, ids[i]));
      }
    }
    forall l | l in d.loops
      ensures LoopCode(d.loops[l]).None?
    {
      var j :| 0 <= j < |ids| && ids[j] == l;
    }
    return None;
  }
}
