/** The structural patcher around the C++ function `void <Class>::eval() { … }`:
    the marker matcher (`void\s+\w+::eval\s*\(\s*\)\s*\{`), the brace-depth
    scan shared by injection, wrapper stripping and extraction, and the
    two text transformations built on them. */
module Patcher {
  import opened Wrappers
  import opened Text

  // ---------------------------------------------------------------------
  // The marker `void\s+\w+::eval\s*\(\s*\)\s*\{`
  // ---------------------------------------------------------------------

  /** One element of a fixed regular-expression shape: a literal, a greedy
      run of whitespace (`\s+` or `\s*`), or a greedy run of word
      characters (`\w+`). */
  datatype Piece = Lit(text: string) | Spaces(atLeastOne: bool) | Word

  /** The characters a piece can consume. */
  predicate Admits(p: Piece, c: char) {
    match p
    case Lit(t) => c in t
    case Spaces(_) => IsSpace(c)
    case Word => IsWordChar(c)
  }

  /** Some piece of `ps` can consume `c`. */
  predicate AnyAdmits(ps: seq<Piece>, c: char) {
    |ps| > 0 && (Admits(ps[0], c) || AnyAdmits(ps[1..], c))
  }

  /** Where piece `p` ends when it starts at `i`. */
  function MatchPiece(s: string, i: nat, p: Piece): (r: Option<nat>)
    ensures r.Some? ==> i <= r.value <= |s|
    ensures r.Some? ==> forall k :: i <= k < r.value ==> Admits(p, s[k])
    ensures r.Some? && p.Lit? ==> r.value == i + |p.text| && s[i..r.value] == p.text
    ensures r.Some? && !p.Lit? ==> r.value == |s| || !Admits(p, s[r.value])
  {
    match p
    case Lit(t) =>
      if OccursAt(s, t, i) then
        assert forall k :: i <= k < i + |t| ==> s[k] == t[k - i];
        Some(i + |t|)
      else None
    case Spaces(atLeastOne) =>
      if i > |s| then None
      else
        var j := Span(s, i, IsSpace);
        if atLeastOne && j == i then None else Some(j)
    case Word =>
      if i > |s| then None
      else
        var j := Span(s, i, IsWordChar);
        if j == i then None else Some(j)
  }

  /** Where the pieces `ps`, matched one after the other, end when they
      start at `i`. No piece can give characters back to an earlier one
      (each greedy run is followed by a piece that cannot start with what
      the run consumes), so greedy matching is the regular expression's
      only match. */
  function MatchPieces(s: string, i: nat, ps: seq<Piece>): (r: Option<nat>)
    ensures r.Some? ==> i <= r.value <= |s|
    ensures r.Some? ==> forall k :: i <= k < r.value ==> AnyAdmits(ps, s[k])
    decreases |ps|
  {
    if ps == [] then (if i <= |s| then Some(i) else None)
    else
      var first := MatchPiece(s, i, ps[0]);
      if first.None? then None else MatchPieces(s, first.value, ps[1..])
  }

  /** The pieces of `void\s+\w+::eval\s*\(\s*\)\s*`, the marker
      without its final `{`. */
  const Head: seq<Piece> := [
    Lit("void"), Spaces(true), Word, Lit("::eval"), Spaces(false),
    Lit("("), Spaces(false), Lit(")"), Spaces(false)]

  lemma HeadAdmitsNoBrace()
    ensures !AnyAdmits(Head, '{')
  {
    forall k | 0 <= k < |Head| ensures !Admits(Head[k], '{') {
      assert Head[k] in Head;
    }
    NoneAdmits(Head, '{');
  }

  /** A character no piece of `ps` consumes is not consumed by `ps`. */
  lemma {:induction false} NoneAdmits(ps: seq<Piece>, c: char)
    requires forall k :: 0 <= k < |ps| ==> !Admits(ps[k], c)
    ensures !AnyAdmits(ps, c)
    decreases |ps|
  {
    if ps != [] {
      NoneAdmits(ps[1..], c);
    }
  }

  /** Where `head` followed by `{` ends when it starts at `i`: just after
      the `{`. */
  function MatchShapeAt(s: string, i: nat, head: seq<Piece>): (r: Option<nat>)
    ensures r.Some? ==> i < r.value <= |s| && s[r.value - 1] == '{'
  {
    var h := MatchPieces(s, i, head);
    if h.Some? && h.value < |s| && s[h.value] == '{' then Some(h.value + 1) else None
  }

  /** A match of a head that cannot consume `{` holds no `{` before its
      last character. */
  lemma MatchShapeNoBrace(s: string, i: nat, head: seq<Piece>)
    requires !AnyAdmits(head, '{')
    requires MatchShapeAt(s, i, head).Some?
    ensures forall k :: i <= k < MatchShapeAt(s, i, head).value - 1 ==> s[k] != '{'
  {
  }

  /** Two texts that agree on their first `k` characters agree on every
      slice inside them. */
  lemma SamePrefixSlice(s: string, s': string, k: nat, a: nat, b: nat)
    requires k <= |s| && k <= |s'| && s[..k] == s'[..k]
    requires a <= b <= k
    ensures s[a..b] == s'[a..b]
  {
    forall j | a <= j < b
      ensures s[j] == s'[j]
    {
      assert s[j] == s[..k][j] && s'[j] == s'[..k][j];
    }
  }

  /** A piece that stops before index `k`, or a literal that fits in the
      first `k` characters, matches the same way in any text with the same
      first `k` characters. */
  lemma MatchPieceLocal(s: string, s': string, i: nat, p: Piece, k: nat)
    requires k <= |s| && k <= |s'| && s[..k] == s'[..k]
    requires MatchPiece(s, i, p).Some?
    requires if p.Lit? then MatchPiece(s, i, p).value <= k else MatchPiece(s, i, p).value < k
    ensures MatchPiece(s', i, p) == MatchPiece(s, i, p)
  {
    match p
    case Lit(t) =>
      SamePrefixSlice(s, s', k, i, i + |t|);
    case Spaces(_) =>
      SpanLocal(s, s', i, IsSpace, k);
    case Word =>
      SpanLocal(s, s', i, IsWordChar, k);
  }

  /** The same for a sequence of pieces that is followed by at least one
      more character inside the first `k`. */
  lemma {:induction false} MatchPiecesLocal(s: string, s': string, i: nat, ps: seq<Piece>, k: nat)
    requires k <= |s| && k <= |s'| && s[..k] == s'[..k]
    requires MatchPieces(s, i, ps).Some? && MatchPieces(s, i, ps).value < k
    ensures MatchPieces(s', i, ps) == MatchPieces(s, i, ps)
    decreases |ps|
  {
    if ps != [] {
      var j := MatchPiece(s, i, ps[0]).value;
      assert j <= MatchPieces(s, j, ps[1..]).value;
      MatchPieceLocal(s, s', i, ps[0], k);
      MatchPiecesLocal(s, s', j, ps[1..], k);
    }
  }

  /** A shape match depends only on the characters it covers. */
  lemma MatchShapeLocal(s: string, s': string, i: nat, head: seq<Piece>, k: nat)
    requires k <= |s| && k <= |s'| && s[..k] == s'[..k]
    requires MatchShapeAt(s, i, head).Some? && MatchShapeAt(s, i, head).value <= k
    ensures MatchShapeAt(s', i, head) == MatchShapeAt(s, i, head)
  {
    var h := MatchPieces(s, i, head).value;
    MatchPiecesLocal(s, s', i, head, k);
    assert s'[h] == s'[..k][h] == s[..k][h] == s[h];
  }

  /** A match of a shape: `start` is where it begins, `end` is just after
      its `{`. */
  datatype Marker = Marker(start: nat, end: nat)

  /** The leftmost match of `head` followed by `{` that starts at or after
      `i`. */
  function FindShapeFrom(s: string, i: nat, head: seq<Piece>): (r: Option<Marker>)
    ensures r.Some? ==> i <= r.value.start && MatchShapeAt(s, r.value.start, head) == Some(r.value.end)
    decreases |s| - i
  {
    if i >= |s| then None
    else
      var e := MatchShapeAt(s, i, head);
      if e.Some? then Some(Marker(i, e.value)) else FindShapeFrom(s, i + 1, head)
  }

  /** What the search finds ends just after a `{` inside the text. */
  lemma FindShapeEnds(s: string, i: nat, head: seq<Piece>)
    ensures var r := FindShapeFrom(s, i, head);
      r.Some? ==> r.value.start < r.value.end <= |s| && s[r.value.end - 1] == '{'
  {
    var r := FindShapeFrom(s, i, head);
    if r.Some? {
      var e := MatchShapeAt(s, r.value.start, head);
      assert e == Some(r.value.end);
    }
  }

  /** The search misses no match: none starts between `i` and what it
      finds, or after `i` at all when it finds nothing. */
  lemma {:induction false} FindShapeLeftmost(s: string, i: nat, head: seq<Piece>)
    ensures var r := FindShapeFrom(s, i, head);
      forall j: nat :: i <= j && (r.None? || j < r.value.start) ==> MatchShapeAt(s, j, head).None?
    decreases |s| - i
  {
    if i < |s| && MatchShapeAt(s, i, head).None? {
      FindShapeLeftmost(s, i + 1, head);
    }
  }

  /** A match with no match before it is what the search finds. */
  lemma {:induction false} FindShapeFromFirst(s: string, i: nat, head: seq<Piece>, m: Marker)
    requires i <= m.start
    requires MatchShapeAt(s, m.start, head) == Some(m.end)
    requires forall j: nat :: i <= j < m.start ==> MatchShapeAt(s, j, head).None?
    ensures FindShapeFrom(s, i, head) == Some(m)
    decreases m.start - i
  {
    if i < m.start {
      FindShapeFromFirst(s, i + 1, head, m);
    }
  }

  /** A match of a brace-free head cannot run past a `{` that lies after
      its start. */
  lemma MatchShapeStopsAtBrace(s: string, j: nat, head: seq<Piece>, b: nat)
    requires !AnyAdmits(head, '{')
    requires MatchShapeAt(s, j, head).Some?
    requires j <= b < |s| && s[b] == '{'
    ensures MatchShapeAt(s, j, head).value <= b + 1
  {
    MatchShapeNoBrace(s, j, head);
  }

  /** Whatever follows the `{` of the leftmost match of a brace-free head,
      the leftmost match stays where it was: an earlier match would have
      to cross that `{`. */
  lemma FindShapeKeepsPrefix(s: string, head: seq<Piece>, m: Marker, rest: string)
    requires !AnyAdmits(head, '{')
    requires FindShapeFrom(s, 0, head) == Some(m)
    ensures FindShapeFrom(s[..m.end] + rest, 0, head) == Some(m)
  {
    var s' := s[..m.end] + rest;
    FindShapeLeftmost(s, 0, head);
    assert s'[..m.end] == s[..m.end];
    assert s'[m.end - 1] == s[m.end - 1];
    MatchShapeLocal(s, s', m.start, head, m.end);
    forall j: nat | j < m.start ensures MatchShapeAt(s', j, head).None? {
      if MatchShapeAt(s', j, head).Some? {
        MatchShapeStopsAtBrace(s', j, head, m.end - 1);
        MatchShapeLocal(s', s, j, head, m.end);
      }
    }
    FindShapeFromFirst(s', 0, head, m);
  }

  /** Where a match of the marker that starts at `i` ends (just after its
      `{`), or `None` when the marker does not match at `i`. */
  function MatchMarkerAt(s: string, i: nat): (r: Option<nat>)
    ensures r.Some? ==> i < r.value <= |s|
    ensures r.Some? ==> s[r.value - 1] == '{'
    ensures r.Some? ==> forall k :: i <= k < r.value - 1 ==> s[k] != '{'
  {
    var r := MatchShapeAt(s, i, Head);
    HeadAdmitsNoBrace();
    if r.Some? then MatchShapeNoBrace(s, i, Head); r else r
  }

  /** `re.search` for the marker: the leftmost match. */
  function FindMarker(s: string): (r: Option<Marker>)
    ensures r.Some? ==> r.value.start < r.value.end <= |s|
  {
    FindShapeEnds(s, 0, Head);
    FindShapeFrom(s, 0, Head)
  }

  /** The marker found ends with its `{`. */
  lemma FindMarkerBrace(s: string)
    ensures FindMarker(s).Some? ==> s[FindMarker(s).value.end - 1] == '{'
  {
    var r := FindMarker(s);
    if r.Some? {
      FindMarkerLeftmost(s);
      var e := MatchMarkerAt(s, r.value.start);
      assert e == Some(r.value.end);
      assert s[e.value - 1] == '{';
    }
  }

  /** The marker found is a match, and no match starts before it; when none
      is found, none exists. */
  lemma FindMarkerLeftmost(s: string)
    ensures var r := FindMarker(s);
      && (r.Some? ==> MatchMarkerAt(s, r.value.start) == Some(r.value.end))
      && (r.Some? ==> forall j: nat :: j < r.value.start ==> MatchMarkerAt(s, j).None?)
      && (r.None? ==> forall j: nat :: MatchMarkerAt(s, j).None?)
  {
    FindShapeLeftmost(s, 0, Head);
  }

  /** A marker match depends only on the characters it covers. */
  lemma MatchMarkerLocal(s: string, s': string, i: nat, k: nat)
    requires k <= |s| && k <= |s'| && s[..k] == s'[..k]
    requires MatchMarkerAt(s, i).Some? && MatchMarkerAt(s, i).value <= k
    ensures MatchMarkerAt(s', i) == MatchMarkerAt(s, i)
  {
    MatchShapeLocal(s, s', i, Head, k);
  }

  /** Whatever follows the marker's `{`, the leftmost marker stays where it
      was. */
  lemma FindMarkerKeepsPrefix(s: string, m: Marker, rest: string)
    requires FindMarker(s) == Some(m)
    ensures FindMarker(s[..m.end] + rest) == Some(m)
  {
    HeadAdmitsNoBrace();
    FindShapeKeepsPrefix(s, Head, m, rest);
  }

  // ---------------------------------------------------------------------
  // The brace-depth scan
  // ---------------------------------------------------------------------

  /** How one character moves the depth counter. Braces count wherever
      they are, also inside comments and string literals. */
  function Delta(c: char): int {
    if c == '{' then 1 else if c == '}' then -1 else 0
  }

  /** The net depth change over a text. */
  function Net(s: string): int {
    if s == [] then 0 else Net(s[..|s| - 1]) + Delta(s[|s| - 1])
  }

  lemma {:induction false} NetAppend(a: string, b: string)
    ensures Net(a + b) == Net(a) + Net(b)
    decreases |b|
  {
    if b == [] {
      assert a + b == a;
    } else {
      assert (a + b)[..|a + b| - 1] == a + b[..|b| - 1];
      NetAppend(a, b[..|b| - 1]);
    }
  }

  /** The counter after the scan has read `t[start..p]`; it starts at 1,
      for the marker's `{`. */
  function Depth(t: string, start: nat, p: nat): int
    requires start <= p <= |t|
  {
    1 + Net(t[start..p])
  }

  lemma DepthStep(t: string, start: nat, p: nat)
    requires start <= p < |t|
    ensures Depth(t, start, p + 1) == Depth(t, start, p) + Delta(t[p])
  {
    assert t[start..p + 1][..p - start] == t[start..p];
  }

  /** Where the scan stops when it is at `p`: the first position from `p`
      on at which the counter is no longer positive, or the end of the
      text. */
  function CloseFrom(t: string, start: nat, p: nat): (r: nat)
    requires start <= p <= |t|
    ensures p <= r <= |t|
    ensures forall q :: p <= q < r ==> Depth(t, start, q) > 0
    ensures r == |t| || Depth(t, start, r) <= 0
    decreases |t| - p
  {
    if p == |t| || Depth(t, start, p) <= 0 then p else CloseFrom(t, start, p + 1)
  }

  /** The value of `pos` when the scan that starts just after a `{` at
      `start` ends. */
  function Close(t: string, start: nat): (r: nat)
    requires start <= |t|
    ensures start <= r <= |t|
  {
    CloseFrom(t, start, start)
  }

  /** The scan found the matching brace: the counter reached zero. */
  predicate Closes(t: string, start: nat)
    requires start <= |t|
  {
    Depth(t, start, Close(t, start)) == 0
  }

  /** When the braces balance, the scan stops just after the `}` that
      brings the depth back to 0, and every position before it has positive
      depth; when they never balance it runs to the end of the text. */
  lemma CloseCharacterized(t: string, start: nat)
    requires start <= |t|
    ensures var p := Close(t, start);
      (Closes(t, start) ==> start < p && t[p - 1] == '}')
      && (!Closes(t, start) ==> p == |t| && forall q :: start <= q <= |t| ==> Depth(t, start, q) > 0)
  {
    var p := Close(t, start);
    assert t[start..start] == [];
    if p == |t| && Depth(t, start, p) > 0 {
    } else {
      assert Depth(t, start, p) <= 0;
      assert p > start;
      DepthStep(t, start, p - 1);
      assert Depth(t, start, p - 1) > 0;
    }
  }

  /** The depth scan as the source writes it: a loop over `pos` and
      `depth`. */
  method ScanToClose(t: string, start: nat) returns (pos: nat)
    requires start <= |t|
    ensures pos == Close(t, start)
  {
    var depth := 1;
    pos := start;
    assert t[start..start] == [];
    while pos < |t| && depth > 0
      invariant start <= pos <= |t|
      invariant depth == Depth(t, start, pos)
      invariant CloseFrom(t, start, pos) == Close(t, start)
      decreases |t| - pos
    {
      DepthStep(t, start, pos);
      if t[pos] == '{' {
        depth := depth + 1;
      } else if t[pos] == '}' {
        depth := depth - 1;
      }
      pos := pos + 1;
    }
  }

  /** A body is balanced when no prefix of it closes more braces than it
      opens and it closes all it opens. */
  predicate Balanced(body: string) {
    Net(body) == 0 && forall k :: 0 <= k <= |body| ==> Net(body[..k]) >= 0
  }

  // ---------------------------------------------------------------------
  // Injection
  // ---------------------------------------------------------------------

  /** The ValueError `_inject_eval_body` raises. */
  datatype PatchError = MarkerNotFound {
    function Message(): string {
      "Cannot find 'void ClassName::eval() {' in template"
    }
  }

  /** The template with its eval body replaced: everything up to and
      including the marker's `{`, the new body on lines of its own, and
      the template again from index `pos - 1` (the closing `}` when the
      braces balance). */
  function Injected(t: string, body: string): (r: Result<string, PatchError>)
    ensures r.Failure? <==> FindMarker(t).None?
  {
    var m := FindMarker(t);
    if m.None? then Failure(MarkerNotFound)
    else
      Success(Splice(t, m.value.end, Close(t, m.value.end), body))
  }

  /** The template up to index `e`, the body on lines of its own, and the
      template again from index `pos - 1`. */
  function Splice(t: string, e: nat, pos: nat, body: string): string
    requires 0 < e <= pos <= |t|
  {
    t[..e] + ("\n" + body + "\n") + t[pos - 1..]
  }

  /** Injection into a template with a marker is the splice at the
      marker's `{` and the scan's stop. */
  lemma InjectedIsSplice(t: string, body: string, m: Marker)
    requires FindMarker(t) == Some(m)
    ensures m.end <= Close(t, m.end)
    ensures Injected(t, body) == Success(Splice(t, m.end, Close(t, m.end), body))
  {
  }

  /** A splice keeps the template's first `e` characters, whatever it puts
      after them. */
  lemma SpliceKeepsHead(t: string, e: nat, pos: nat, body: string)
    requires 0 < e <= pos <= |t|
    ensures Splice(t, e, pos, body) == t[..e] + (("\n" + body + "\n") + t[pos - 1..])
  {
  }

  /** What injection keeps of the template and where the body goes: the
      template up to and including the marker's `{`, then the body on lines
      of its own, then the template from index `pos - 1` on, which is the
      matching `}` when the braces balance. */
  lemma InjectedShape(t: string, body: string, m: Marker)
    requires FindMarker(t) == Some(m)
    ensures var r := Injected(t, body).value;
      var pos := Close(t, m.end);
      && r[..m.end] == t[..m.end]
      && r[m.end..m.end + |body| + 2] == "\n" + body + "\n"
      && r[m.end + |body| + 2..] == t[pos - 1..]
      && r[m.end - 1] == '{'
      && (Closes(t, m.end) ==> r[m.end + |body| + 2] == '}')
  {
    var pos := Close(t, m.end);
    var r := Splice(t, m.end, pos, body);
    assert Injected(t, body) == Success(r);
    InjectedParts(t, body, m.end, pos, r);
    FindMarkerBrace(t);
    CloseCharacterized(t, m.end);
  }

  lemma InjectedParts(t: string, body: string, e: nat, pos: nat, r: string)
    requires 0 < e <= pos <= |t|
    requires r == Splice(t, e, pos, body)
    ensures r[..e] == t[..e]
    ensures r[e..e + |body| + 2] == "\n" + body + "\n"
    ensures r[e + |body| + 2..] == t[pos - 1..]
    ensures r[e - 1] == t[e - 1] && r[e + |body| + 2] == t[pos - 1]
  {
    ThreeParts(t[..e], "\n" + body + "\n", t[pos - 1..]);
  }

  /** Where the three parts of a concatenation sit in it. */
  lemma ThreeParts(a: string, b: string, c: string)
    ensures (a + b + c)[..|a|] == a
    ensures (a + b + c)[|a|..|a| + |b|] == b
    ensures (a + b + c)[|a| + |b|..] == c
  {
  }

  /** `_inject_eval_body`: a `ValueError` when the template has no marker,
      otherwise the spliced text. */
  method InjectEvalBody(t: string, body: string) returns (r: Result<string, PatchError>)
    ensures r == Injected(t, body)
  {
    var m := FindMarker(t);
    if m.None? {
      return Failure(MarkerNotFound);
    }
    var start := m.value.end;
    var pos := ScanToClose(t, start);
    r := Success(Splice(t, start, pos, body));
  }

  // ---------------------------------------------------------------------
  // Wrapper stripping
  // ---------------------------------------------------------------------

  /** `body[:pos - 1]` as Python slices it: empty when `pos` is 0. */
  function BeforeClose(body: string, pos: nat): string
    requires pos <= |body|
  {
    if pos == 0 then "" else body[..pos - 1]
  }

  /** What `_strip_eval_wrapper` returns: the code unchanged when it holds
      no marker; otherwise the text after the marker up to, not including,
      index `pos - 1` of the scan, stripped. */
  function StrippedWrapper(code: string): (r: string)
    ensures FindMarker(code).None? ==> r == code
    ensures FindMarker(code).Some? ==> r == Strip(r)
  {
    var m := FindMarker(code);
    if m.None? then code
    else
      var body := code[m.value.end..];
      StripIdempotent(BeforeClose(body, Close(body, 0)));
      Strip(BeforeClose(body, Close(body, 0)))
  }

  /** A wrapped function whose braces balance loses exactly its wrapper:
      what remains is the stripped text strictly between the marker's `{`
      and its matching `}`. */
  lemma StripWrapperBalanced(code: string)
    requires FindMarker(code).Some?
    requires Closes(code[FindMarker(code).value.end..], 0)
    ensures var m := FindMarker(code).value;
      var body := code[m.end..];
      var p := Close(body, 0);
      0 < p && body[p - 1] == '}' && StrippedWrapper(code) == Strip(body[..p - 1])
  {
    var m := FindMarker(code).value;
    CloseCharacterized(code[m.end..], 0);
  }

  /** A wrapped function whose braces never balance loses its last
      character, whatever it is: the scan runs to the end and the slice
      stops one short. */
  lemma StripWrapperUnbalanced(code: string)
    requires FindMarker(code).Some?
    requires !Closes(code[FindMarker(code).value.end..], 0)
    ensures var m := FindMarker(code).value;
      var body := code[m.end..];
      StrippedWrapper(code) == Strip(if body == [] then [] else body[..|body| - 1])
  {
    var m := FindMarker(code).value;
    CloseCharacterized(code[m.end..], 0);
  }

  /** `_strip_eval_wrapper`, with the scan as a loop. */
  method StripEvalWrapper(code: string) returns (r: string)
    ensures r == StrippedWrapper(code)
  {
    var m := FindMarker(code);
    if m.None? {
      return code;
    }
    var body := code[m.value.end..];
    var pos := ScanToClose(body, 0);
    if pos == 0 {
      r := Strip("");
    } else {
      r := Strip(body[..pos - 1]);
    }
  }

  /** Stripping something that holds a marker makes it strictly shorter:
      at least the marker's `{` goes. */
  lemma StripWrapperShrinks(code: string)
    requires FindMarker(code).Some?
    ensures |StrippedWrapper(code)| < |code|
  {
    var m := FindMarker(code).value;
    var body := code[m.end..];
    var inner := BeforeClose(body, Close(body, 0));
    assert StrippedWrapper(code) == Strip(inner);
    assert |inner| <= |body| < |code|;
  }

  /** A second application of `_strip_eval_wrapper` changes nothing exactly
      when the first one left no marker behind. So stripping is not
      idempotent in general: a wrapper inside a wrapper survives the first
      application and is removed by the second. */
  lemma StripWrapperTwice(code: string)
    ensures StrippedWrapper(StrippedWrapper(code)) == StrippedWrapper(code)
      <==> FindMarker(StrippedWrapper(code)).None?
  {
    var once := StrippedWrapper(code);
    if FindMarker(once).Some? {
      StripWrapperShrinks(once);
    }
  }
}
