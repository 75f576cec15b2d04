/** Text primitives the Python code gets from `str` and `re`: character
    classes, slicing with Python's clamping, `strip`, substring search,
    `join`, integer and fixed-point formatting, `float()` on a digit token,
    and the name component of a path. */
module Text {
  import opened Wrappers

  // ---------------------------------------------------------------------
  // Character classes
  // ---------------------------------------------------------------------

  /** Python's `str.isspace()`, which is also what `\s` and `strip()` use. */
  predicate IsSpace(c: char) {
    var n := c as int;
    (9 <= n <= 13) || (28 <= n <= 32) || n == 0x85 || n == 0xA0 || n == 0x1680
    || (0x2000 <= n <= 0x200A) || n == 0x2028 || n == 0x2029 || n == 0x202F
    || n == 0x205F || n == 0x3000
  }

  /** `\w`, restricted to ASCII letters, digits and underscore. */
  predicate IsWordChar(c: char) {
    ('a' <= c <= 'z') || ('A' <= c <= 'Z') || ('0' <= c <= '9') || c == '_'
  }

  /** `\d`, restricted to ASCII digits. */
  predicate IsDigit(c: char) {
    '0' <= c <= '9'
  }

  /** The character class `[0-9.]`. */
  predicate IsDigitOrDot(c: char) {
    IsDigit(c) || c == '.'
  }

  /** ASCII lower-casing of one character. */
  function LowerChar(c: char): (r: char)
    ensures 'A' <= c <= 'Z' ==> 'a' <= r <= 'z'
    ensures !('A' <= c <= 'Z') ==> r == c
  {
    if 'A' <= c <= 'Z' then (c as int + 32) as char else c
  }

  /** `s.lower()` on ASCII letters. */
  function ToLower(s: string): (r: string)
    ensures |r| == |s|
    ensures forall k :: 0 <= k < |s| ==> r[k] == LowerChar(s[k])
  {
    seq(|s|, k requires 0 <= k < |s| => LowerChar(s[k]))
  }

  // ---------------------------------------------------------------------
  // Greedy runs and leftmost search, the building blocks of the matchers
  // ---------------------------------------------------------------------

  /** The end of the longest run of characters satisfying `p` that starts
      at `i`: what a greedy `p*` consumes. */
  function Span(s: string, i: nat, p: char -> bool): (j: nat)
    requires i <= |s|
    ensures i <= j <= |s|
    ensures forall k :: i <= k < j ==> p(s[k])
    ensures j < |s| ==> !p(s[j])
    decreases |s| - i
  {
    if i < |s| && p(s[i]) then Span(s, i + 1, p) else i
  }

  /** A greedy run that stops inside the first `k` characters depends on
      those characters only. */
  lemma {:induction false} SpanLocal(s: string, s': string, i: nat, p: char -> bool, k: nat)
    requires i <= |s| && i <= |s'| && k <= |s| && k <= |s'|
    requires s[..k] == s'[..k]
    requires Span(s, i, p) < k
    ensures Span(s', i, p) == Span(s, i, p)
    decreases |s| - i
  {
    assert s[i] == s[..k][i] == s'[..k][i] == s'[i];
    if p(s[i]) {
      SpanLocal(s, s', i + 1, p, k);
    }
  }

  /** The leftmost position in `i..n` at which `f` finds a match, with what
      it found there: the scanning order of `re.search`. */
  function Leftmost<T>(n: nat, i: nat, f: nat -> Option<T>): (r: Option<(nat, T)>)
    ensures r.Some? ==> i <= r.value.0 <= n && f(r.value.0) == Some(r.value.1)
    ensures forall j :: i <= j <= n && (r.None? || j < r.value.0) ==> f(j).None?
    decreases n + 1 - i
  {
    if i > n then None
    else match f(i)
      case Some(v) => Some((i, v))
      case None => Leftmost(n, i + 1, f)
  }

  // ---------------------------------------------------------------------
  // Slicing, stripping, searching, joining
  // ---------------------------------------------------------------------

  /** `s[:n]` */
  function Take(s: string, n: nat): (r: string)
    ensures |r| == if n <= |s| then n else |s|
    ensures r == s[..|r|]
  {
    if n <= |s| then s[..n] else s
  }

  /** `s[-n:]` for `n > 0` */
  function TakeLast(s: string, n: nat): (r: string)
    ensures |r| == if n <= |s| then n else |s|
    ensures r == s[|s| - |r|..]
  {
    if n <= |s| then s[|s| - n..] else s
  }

  /** `(a + b) + c == a + (b + c)` for strings. */
  lemma ConcatAssoc(a: string, b: string, c: string)
    ensures a + b + c == a + (b + c)
  {
  }

  predicate StartsWith(s: string, prefix: string) {
    |prefix| <= |s| && s[..|prefix|] == prefix
  }

  predicate EndsWith(s: string, suffix: string) {
    |suffix| <= |s| && s[|s| - |suffix|..] == suffix
  }

  /** `s.lstrip()` */
  function LStrip(s: string): (r: string)
    ensures |r| <= |s| && r == s[|s| - |r|..]
    ensures r == [] || !IsSpace(r[0])
    ensures forall k :: 0 <= k < |s| - |r| ==> IsSpace(s[k])
  {
    if s != [] && IsSpace(s[0]) then LStrip(s[1..]) else s
  }

  /** `s.rstrip()` */
  function RStrip(s: string): (r: string)
    ensures |r| <= |s| && r == s[..|r|]
    ensures r == [] || !IsSpace(r[|r| - 1])
    ensures forall k :: |r| <= k < |s| ==> IsSpace(s[k])
  {
    if s != [] && IsSpace(s[|s| - 1]) then RStrip(s[..|s| - 1]) else s
  }

  /** `s.strip()`: the text between the first and the last non-space
      character, or "" when there is none. */
  function Strip(s: string): (r: string)
    ensures r == [] || (!IsSpace(r[0]) && !IsSpace(r[|r| - 1]))
    ensures |r| <= |s|
  {
    RStrip(LStrip(s))
  }

  /** The empty text is stripped already. */
  lemma StripEmpty()
    ensures Strip("") == ""
  {
  }

  /** `strip()` applied twice is `strip()` applied once. */
  lemma StripIdempotent(s: string)
    ensures Strip(Strip(s)) == Strip(s)
  {
    var r := Strip(s);
    if r != [] {
      assert LStrip(r) == r;
      assert RStrip(r) == r;
    }
  }

  /** Appending a space never changes what `strip()` keeps. */
  lemma StripAppendSpace(b: string, c: char)
    requires IsSpace(c)
    ensures RStrip(LStrip(b + [c])) == RStrip(LStrip(b))
  {
    LStripAppendSpace(b, c);
    RStripAppendSpace(LStrip(b), c);
  }

  /** A space appended to a text is kept by `lstrip()` unless the text is
      all spaces. */
  lemma {:induction false} LStripAppendSpace(b: string, c: char)
    requires IsSpace(c)
    ensures LStrip(b + [c]) == if LStrip(b) == [] then [] else LStrip(b) + [c]
  {
    if b == [] {
      assert LStrip([c]) == LStrip([c][1..]);
    } else if IsSpace(b[0]) {
      assert (b + [c])[1..] == b[1..] + [c];
      LStripAppendSpace(b[1..], c);
    }
  }

  /** `rstrip()` drops an appended space. */
  lemma RStripAppendSpace(b: string, c: char)
    requires IsSpace(c)
    ensures RStrip(b + [c]) == RStrip(b)
  {
    assert (b + [c])[..|b|] == b;
  }

  /** Surrounding a text with newlines does not change its stripped form. */
  lemma StripNewlines(b: string)
    ensures Strip("\n" + b + "\n") == Strip(b)
  {
    var s := "\n" + b + "\n";
    assert s == ['\n'] + (b + "\n");
    LStripSpaceFirst('\n', b + "\n");
    StripAppendSpace(b, '\n');
  }

  lemma LStripSpaceFirst(c: char, b: string)
    requires IsSpace(c)
    ensures LStrip([c] + b) == LStrip(b)
  {
    assert ([c] + b)[1..] == b;
  }

  /** `sub` occurs in `s` at index `i`. */
  predicate OccursAt(s: string, sub: string, i: nat) {
    i + |sub| <= |s| && s[i..i + |sub|] == sub
  }

  /** `sub in s` */
  predicate Contains(s: string, sub: string) {
    exists i: nat | i <= |s| :: OccursAt(s, sub, i)
  }

  /** `s.find(sub, start)` as an option: the first occurrence at or after
      `start`. */
  function FirstOccurrence(s: string, sub: string, start: nat): (r: Option<nat>)
    ensures r.Some? ==> start <= r.value && OccursAt(s, sub, r.value)
    ensures forall j: nat :: start <= j && (r.None? || j < r.value) ==> !OccursAt(s, sub, j)
    decreases |s| - start
  {
    if start + |sub| > |s| then None
    else if OccursAt(s, sub, start) then Some(start)
    else FirstOccurrence(s, sub, start + 1)
  }

  /** An occurrence with none before it, from `start` on, is the first. */
  lemma FirstOccurrenceAt(s: string, sub: string, start: nat, i: nat)
    requires start <= i && OccursAt(s, sub, i)
    requires forall j: nat :: start <= j < i ==> !OccursAt(s, sub, j)
    ensures FirstOccurrence(s, sub, start) == Some(i)
  {
  }

  /** `sep.join(parts)` */
  function Join(parts: seq<string>, sep: string): string {
    if |parts| == 0 then ""
    else if |parts| == 1 then parts[0]
    else Join(parts[..|parts| - 1], sep) + sep + parts[|parts| - 1]
  }

  /** A join begins with its first part. */
  lemma {:induction false} JoinStartsWithFirst(parts: seq<string>, sep: string)
    requires |parts| > 0
    ensures StartsWith(Join(parts, sep), parts[0])
    decreases |parts|
  {
    if |parts| > 1 {
      var init := parts[..|parts| - 1];
      JoinStartsWithFirst(init, sep);
      assert init[0] == parts[0];
      var j := Join(init, sep);
      assert (j + sep + parts[|parts| - 1])[..|parts[0]|] == j[..|parts[0]|];
    }
  }

  /** `s.split(sep)[-1]`: the text after the last `sep`, or all of `s`. */
  function LastSegment(s: string, sep: char): (r: string)
    ensures |r| <= |s| && r == s[|s| - |r|..]
    ensures sep !in r
    ensures |r| < |s| ==> s[|s| - |r| - 1] == sep
  {
    if s == [] then []
    else if s[|s| - 1] == sep then []
    else LastSegment(s[..|s| - 1], sep) + [s[|s| - 1]]
  }

  /** `pathlib.Path(p).name` for a POSIX path: the last component that is
      neither empty nor ".", or "" when there is none. */
  function PathName(p: string): (r: string)
    ensures '/' !in r
    decreases |p|
  {
    if p == [] then []
    else
      var seg := LastSegment(p, '/');
      if seg != [] && seg != "." then seg
      else if |seg| == |p| then []
      else PathName(p[..|p| - |seg| - 1])
  }

  // ---------------------------------------------------------------------
  // Numbers as text
  // ---------------------------------------------------------------------

  function DigitChar(d: nat): (c: char)
    requires d < 10
    ensures IsDigit(c)
  {
    ('0' as int + d) as char
  }

  function DigitValue(c: char): (d: nat)
    requires IsDigit(c)
    ensures d < 10
  {
    c as int - '0' as int
  }

  /** The value of a string of decimal digits ("" counts as 0). */
  function DigitsValue(s: string): nat
    requires forall k :: 0 <= k < |s| ==> IsDigit(s[k])
  {
    if s == [] then 0 else DigitsValue(s[..|s| - 1]) * 10 + DigitValue(s[|s| - 1])
  }

  /** `str(n)` for a natural number. */
  function NatToString(n: nat): (r: string)
    ensures |r| > 0
    ensures forall k :: 0 <= k < |r| ==> IsDigit(r[k])
  {
    if n < 10 then [DigitChar(n)] else NatToString(n / 10) + [DigitChar(n % 10)]
  }

  /** Reading back what `NatToString` wrote gives the number again. */
  lemma {:induction false} NatToStringRoundTrip(n: nat)
    ensures DigitsValue(NatToString(n)) == n
  {
    if n >= 10 {
      var s := NatToString(n);
      assert s[..|s| - 1] == NatToString(n / 10);
      NatToStringRoundTrip(n / 10);
    }
  }

  /** `str(i)` for an integer. */
  function IntToString(i: int): (r: string)
    ensures |r| > 0
  {
    if i < 0 then "-" + NatToString(-i) else NatToString(i)
  }

  function Pow10(d: nat): (r: nat)
    ensures r >= 1
  {
    if d == 0 then 1 else 10 * Pow10(d - 1)
  }

  /** `float(tok)` for a token of digits and dots, as matched by `[0-9.]+`:
      it parses when the token has at most one dot and at least one digit,
      and raises `ValueError` (here `None`) otherwise. */
  function ParseDecimal(tok: string): (r: Option<real>)
    requires forall k :: 0 <= k < |tok| ==> IsDigitOrDot(tok[k])
    ensures r.Some? ==> 0.0 <= r.value
    ensures (forall k :: 0 <= k < |tok| ==> IsDigit(tok[k])) ==>
      r == if tok == [] then None else Some(DigitsValue(tok) as real)
  {
    var dot := FirstOccurrence(tok, ".", 0);
    if dot.None? then
      DotFreeDigits(tok, |tok|);
      if tok == [] then None else Some(DigitsValue(tok) as real)
    else
      assert tok[dot.value..dot.value + 1] == ".";
      DotFreeDigits(tok, dot.value);
      ParseFraction(tok[..dot.value], tok[dot.value + 1..])
  }

  /** The rest of `float(tok)` once the first dot is found: `whole` before
      it, `frac` after it. A second dot, or no digit at all, is an
      error. */
  function ParseFraction(whole: string, frac: string): (r: Option<real>)
    requires forall k :: 0 <= k < |whole| ==> IsDigit(whole[k])
    requires forall k :: 0 <= k < |frac| ==> IsDigitOrDot(frac[k])
    ensures r.Some? ==> 0.0 <= r.value
    ensures r.Some? <==> (whole != [] || frac != []) && forall k :: 0 <= k < |frac| ==> IsDigit(frac[k])
  {
    var dot := FirstOccurrence(frac, ".", 0);
    if dot.Some? then
      assert frac[dot.value..dot.value + 1] == ".";
      assert !IsDigit(frac[dot.value]);
      None
    else
      DotFreeDigits(frac, |frac|);
      if whole == [] && frac == [] then None
      else Some(DigitsValue(whole) as real + DigitsValue(frac) as real / Pow10(|frac|) as real)
  }

  /** A `[0-9.]` token with no dot among its first `n` characters has only
      digits there. */
  lemma DotFreeDigits(s: string, n: nat)
    requires n <= |s|
    requires forall k :: 0 <= k < |s| ==> IsDigitOrDot(s[k])
    requires forall j: nat :: j < n ==> !OccursAt(s, ".", j)
    ensures forall k :: 0 <= k < n ==> IsDigit(s[k])
  {
    forall k | 0 <= k < n ensures IsDigit(s[k]) {
      assert !OccursAt(s, ".", k);
      assert s[k..k + 1] == [s[k]];
    }
  }

  /** Round half to even, for a non-negative value: the nearest natural
      number, and the even one of the two when the value lies halfway. */
  function RoundHalfEven(y: real): (n: nat)
    requires 0.0 <= y
    ensures y - 0.5 <= n as real <= y + 0.5
    ensures n as real - y == 0.5 || y - n as real == 0.5 ==> n % 2 == 0
  {
    var f := y.Floor;
    var frac := y - f as real;
    if frac > 0.5 then f + 1
    else if frac < 0.5 then f
    else if f % 2 == 0 then f else f + 1
  }

  /** The two clauses of `RoundHalfEven`'s contract pick one number: any
      natural number within one half of `y`, and even on a tie, is it. */
  lemma RoundHalfEvenUnique(y: real, m: nat)
    requires 0.0 <= y
    requires y - 0.5 <= m as real <= y + 0.5
    requires m as real - y == 0.5 || y - m as real == 0.5 ==> m % 2 == 0
    ensures m == RoundHalfEven(y)
  {
  }

  /** `s` left-padded with '0' to `width` characters. */
  function ZeroPad(s: string, width: nat): (r: string)
    ensures |r| == if |s| < width then width else |s|
  {
    if |s| < width then seq(width - |s|, _ => '0') + s else s
  }

  /** `m * 10^d` */
  function Scaled(m: real, d: nat): (y: real)
    requires 0.0 <= m
    ensures 0.0 <= y
  {
    m * Pow10(d) as real
  }

  /** Padding digits with '0' leaves only digits, worth the same. */
  lemma ZeroPadDigits(t: string, width: nat)
    requires forall k :: 0 <= k < |t| ==> IsDigit(t[k])
    ensures forall k :: 0 <= k < |ZeroPad(t, width)| ==> IsDigit(ZeroPad(t, width)[k])
    ensures DigitsValue(ZeroPad(t, width)) == DigitsValue(t)
  {
    var padded := ZeroPad(t, width);
    var z: string := if |t| < width then seq(width - |t|, _ => '0') else [];
    assert padded == z + t;
    forall k | 0 <= k < |padded| ensures IsDigit(padded[k]) {
      if k < |z| {
        assert padded[k] == '0';
      } else {
        assert padded[k] == t[k - |z|];
      }
    }
    ZerosValue(z);
    DigitsValueAppend(z, t);
  }

  /** The digits of `n`, left-padded with '0' to at least `d + 1` of them,
      with a dot before the last `d` when `d > 0`. */
  function FixedDigits(n: nat, d: nat): (r: string)
    ensures |r| > 0 && IsDigit(r[0])
  {
    var padded := ZeroPad(NatToString(n), d + 1);
    ZeroPadDigits(NatToString(n), d + 1);
    if d == 0 then padded else Pointed(padded, d)
  }

  /** `digits` with a dot put before its last `d` characters. */
  function Pointed(digits: string, d: nat): (s: string)
    requires d <= |digits|
    ensures |s| == |digits| + 1
  {
    digits[..|digits| - d] + "." + digits[|digits| - d..]
  }

  /** `f"{x:.{d}f}"`, computed on the exact value: a sign for a negative
      value, the integer part, and `d` rounded fractional digits. */
  function FormatFixed(x: real, d: nat): (r: string)
    ensures |r| > 0
    ensures x >= 0.0 ==> IsDigit(r[0])
    ensures x < 0.0 ==> r[0] == '-'
  {
    var digits := FixedDigits(RoundHalfEven(Scaled(Abs(x), d)), d);
    if x < 0.0 then "-" + digits else digits
  }

  function Abs(x: real): (a: real)
    ensures 0.0 <= a && (a == x || a == -x)
  {
    if x < 0.0 then -x else x
  }

  /** The value of digits `a` followed by digits `b`. */
  lemma {:induction false} DigitsValueAppend(a: string, b: string)
    requires forall k :: 0 <= k < |a| ==> IsDigit(a[k])
    requires forall k :: 0 <= k < |b| ==> IsDigit(b[k])
    ensures DigitsValue(a + b) == DigitsValue(a) * Pow10(|b|) + DigitsValue(b)
  {
    assert forall k :: 0 <= k < |a + b| ==> IsDigit((a + b)[k]) by {
      forall k | 0 <= k < |a + b| ensures IsDigit((a + b)[k]) {
        if k < |a| { assert (a + b)[k] == a[k]; } else { assert (a + b)[k] == b[k - |a|]; }
      }
    }
    if b == [] {
      assert a + b == a;
    } else {
      var b' := b[..|b| - 1];
      assert (a + b)[..|a + b| - 1] == a + b';
      assert (a + b)[|a + b| - 1] == b[|b| - 1];
      DigitsValueAppend(a, b');
      ShiftDigit(DigitsValue(a), Pow10(|b'|), DigitsValue(b'), DigitValue(b[|b| - 1]));
    }
  }

  /** One more digit on the right of `a * p + v`. */
  lemma ShiftDigit(a: nat, p: nat, v: nat, c: nat)
    ensures (a * p + v) * 10 + c == a * (10 * p) + (v * 10 + c)
  {
  }

  /** A run of '0' is worth nothing. */
  lemma {:induction false} ZerosValue(z: string)
    requires forall k :: 0 <= k < |z| ==> z[k] == '0'
    ensures DigitsValue(z) == 0
  {
    if z != [] {
      ZerosValue(z[..|z| - 1]);
    }
  }

  /** `whole + "." + frac` for two digit strings has its one dot where
      it was put. */
  lemma DottedShape(whole: string, frac: string)
    requires forall k :: 0 <= k < |whole| ==> IsDigit(whole[k])
    requires forall k :: 0 <= k < |frac| ==> IsDigit(frac[k])
    ensures (whole + "." + frac)[|whole|] == '.'
    ensures forall k :: 0 <= k < |whole + "." + frac| && k != |whole| ==> IsDigit((whole + "." + frac)[k])
    ensures forall k :: 0 <= k < |whole + "." + frac| ==> IsDigitOrDot((whole + "." + frac)[k])
  {
    var s := whole + "." + frac;
    var w := |whole|;
    forall k | 0 <= k < |s| && k != w ensures IsDigit(s[k]) {
      if k < w { assert s[k] == whole[k]; } else { assert s[k] == frac[k - w - 1]; }
    }
  }

  /** `float()` of `whole + "." + frac`, for two digit strings, reads
      `whole` as the integer part and `frac` as the fraction. */
  lemma DottedReadsBack(whole: string, frac: string)
    requires forall k :: 0 <= k < |whole| ==> IsDigit(whole[k])
    requires forall k :: 0 <= k < |frac| ==> IsDigit(frac[k])
    requires forall k :: 0 <= k < |whole + "." + frac| ==> IsDigitOrDot((whole + "." + frac)[k])
    ensures ParseDecimal(whole + "." + frac) == ParseFraction(whole, frac)
  {
    var s := whole + "." + frac;
    FirstDot(whole, frac);
    assert s[..|whole|] == whole && s[|whole| + 1..] == frac;
  }

  /** Digits, a dot, and digits: the integer part plus the fraction
      scaled down by its length. */
  lemma FractionValue(whole: string, frac: string)
    requires whole != []
    requires forall k :: 0 <= k < |whole| ==> IsDigit(whole[k])
    requires forall k :: 0 <= k < |frac| ==> IsDigit(frac[k])
    ensures ParseFraction(whole, frac)
      == Some(DigitsValue(whole) as real + DigitsValue(frac) as real / Pow10(|frac|) as real)
  {
    NoDot(frac);
  }

  /** The first dot of `whole + "." + frac`, for digits `whole`, is the
      one put between them. */
  lemma FirstDot(whole: string, frac: string)
    requires forall k :: 0 <= k < |whole| ==> IsDigit(whole[k])
    ensures FirstOccurrence(whole + "." + frac, ".", 0) == Some(|whole|)
  {
    var s := whole + "." + frac;
    var w := |whole|;
    assert s[w..w + 1] == ".";
    forall j: nat | j < w ensures !OccursAt(s, ".", j) {
      assert s[j..j + 1] == [whole[j]];
    }
    FirstOccurrenceAt(s, ".", 0, w);
  }

  /** A string of digits has no dot. */
  lemma NoDot(digits: string)
    requires forall k :: 0 <= k < |digits| ==> IsDigit(digits[k])
    ensures FirstOccurrence(digits, ".", 0).None?
  {
    forall j: nat ensures !OccursAt(digits, ".", j) {
      if j < |digits| {
        assert digits[j..j + 1] == [digits[j]];
      }
    }
  }

  /** `float()` reads `whole + "." + frac`, for two digit strings, the
      first not empty, as the value of all the digits divided by `10`
      to the length of `frac`. */
  lemma DottedValue(whole: string, frac: string)
    requires whole != []
    requires forall k :: 0 <= k < |whole| ==> IsDigit(whole[k])
    requires forall k :: 0 <= k < |frac| ==> IsDigit(frac[k])
    ensures forall k :: 0 <= k < |whole + "." + frac| ==> IsDigitOrDot((whole + "." + frac)[k])
    ensures forall k :: 0 <= k < |whole + frac| ==> IsDigit((whole + frac)[k])
    ensures ParseDecimal(whole + "." + frac)
      == Some(DigitsValue(whole + frac) as real / Pow10(|frac|) as real)
  {
    DottedShape(whole, frac);
    DottedReadsBack(whole, frac);
    FractionValue(whole, frac);
    DigitsValueAppend(whole, frac);
    RealQuotient(DigitsValue(whole), DigitsValue(frac), Pow10(|frac|));
  }

  /** Digits with a dot put before the last `d > 0` of them have the
      fixed-point shape. */
  lemma PointedShape(digits: string, d: nat)
    requires 0 < d < |digits|
    requires forall k :: 0 <= k < |digits| ==> IsDigit(digits[k])
    ensures FixedShape(Pointed(digits, d), d)
  {
    var w := |digits| - d;
    var whole, frac := digits[..w], digits[w..];
    assert Pointed(digits, d) == whole + "." + frac;
    DottedShape(whole, frac);
  }

  /** `float()` reads digits with a dot put before the last `d > 0` of
      them as their value divided by `10^d`. */
  lemma PointedReadsBack(digits: string, d: nat)
    requires 0 < d < |digits|
    requires forall k :: 0 <= k < |digits| ==> IsDigit(digits[k])
    ensures FixedShape(Pointed(digits, d), d)
    ensures ParseDecimal(Pointed(digits, d)) == Some(DigitsValue(digits) as real / Pow10(d) as real)
  {
    PointedShape(digits, d);
    var w := |digits| - d;
    var whole, frac := digits[..w], digits[w..];
    assert digits == whole + frac;
    assert Pointed(digits, d) == whole + "." + frac;
    DottedValue(whole, frac);
  }

  /** What `{:.{d}f}` writes for a value that is not negative: digits
      and, when `d > 0`, one dot followed by exactly `d` digits. */
  predicate FixedShape(s: string, d: nat) {
    && (forall k :: 0 <= k < |s| ==> IsDigitOrDot(s[k]))
    && (d == 0 ==> forall k :: 0 <= k < |s| ==> IsDigit(s[k]))
    && (d > 0 ==> |s| > d + 1 && s[|s| - d - 1] == '.'
                  && forall k :: 0 <= k < |s| && k != |s| - d - 1 ==> IsDigit(s[k]))
  }

  /** `FixedDigits(n, 0)` is `str(n)`, and `float()` of it is `n`. */
  lemma WholeDigitsReadsBack(n: nat)
    ensures FixedShape(FixedDigits(n, 0), 0)
    ensures ParseDecimal(FixedDigits(n, 0)) == Some(n as real)
  {
    assert FixedDigits(n, 0) == NatToString(n);
    NatToStringRoundTrip(n);
  }

  /** `FixedDigits(n, d)` for `d > 0` has the fixed-point shape, and
      `float()` of it is `n / 10^d`. */
  lemma PointedDigitsReadsBack(n: nat, d: nat)
    requires d > 0
    ensures FixedShape(FixedDigits(n, d), d)
    ensures ParseDecimal(FixedDigits(n, d)) == Some(n as real / Pow10(d) as real)
  {
    var t := NatToString(n);
    var padded := ZeroPad(t, d + 1);
    ZeroPadDigits(t, d + 1);
    NatToStringRoundTrip(n);
    assert FixedDigits(n, d) == Pointed(padded, d);
    PointedReadsBack(padded, d);
  }

  /** `FixedDigits(n, d)` has the fixed-point shape, and `float()` of it
      is `n / 10^d`. */
  lemma FixedDigitsReadsBack(n: nat, d: nat)
    ensures FixedShape(FixedDigits(n, d), d)
    ensures ParseDecimal(FixedDigits(n, d)) == Some(n as real / Pow10(d) as real)
  {
    if d == 0 {
      WholeDigitsReadsBack(n);
      assert n as real / Pow10(d) as real == n as real;
    } else {
      PointedDigitsReadsBack(n, d);
    }
  }

  /** `a + b / p` is `(a * p + b) / p` when computed over the reals. */
  lemma RealQuotient(a: nat, b: nat, p: nat)
    requires p > 0
    ensures a as real + b as real / p as real == (a * p + b) as real / p as real
  {
    assert (a * p) as real == a as real * p as real;
  }

  /** Reading `FormatFixed(x, d)` back: a '-' exactly when `x` is
      negative, then the fixed-point shape, and `float()` of the unsigned
      text is `|x|` rounded half to even at the `d`-th decimal. */
  lemma FormatFixedReadsBack(x: real, d: nat)
    ensures FormatFixed(x, d)[0] == '-' <==> x < 0.0
    ensures var s := FormatFixed(x, d)[if x < 0.0 then 1 else 0..];
      && FixedShape(s, d)
      && ParseDecimal(s) == Some(RoundHalfEven(Scaled(Abs(x), d)) as real / Pow10(d) as real)
  {
    var n := RoundHalfEven(Scaled(Abs(x), d));
    assert FormatFixed(x, d)[if x < 0.0 then 1 else 0..] == FixedDigits(n, d);
    FixedDigitsReadsBack(n, d);
  }

  /** The last index below `n` whose flag is set. */
  function LastSet(flags: seq<bool>, n: nat): (r: Option<nat>)
    requires n <= |flags|
    ensures r.Some? ==> r.value < n && flags[r.value]
  {
    if n == 0 then None
    else if flags[n - 1] then Some(n - 1)
    else LastSet(flags, n - 1)
  }

  /** `LastSet` finds an index exactly when some flag below `n` is set,
      and the one it finds has no later rival. */
  lemma {:induction false} LastSetIsLast(flags: seq<bool>, n: nat)
    requires n <= |flags|
    ensures LastSet(flags, n).None? <==> forall k :: 0 <= k < n ==> !flags[k]
    ensures LastSet(flags, n).Some? ==>
      var k := LastSet(flags, n).value;
      flags[k] && forall k' :: k < k' < n ==> !flags[k']
  {
    if n > 0 {
      LastSetIsLast(flags, n - 1);
    }
  }
}
