/** The challenge scenario: the challenge text, its type, its template
    files and the C++ member names the prompts quote. */
module Scenario {
  import opened Wrappers
  import opened Text

  // ---------------------------------------------------------------------
  // _detect_type
  // ---------------------------------------------------------------------

  const BlackBoxType: string := "black_box"
  const WhiteBoxType: string := "white_box"

  /** The marker `Challenge type:\s*Black Box`, in lower case, split at the
      whitespace run. */
  const TypeHead: string := "challenge type:"
  const TypeTail: string := "black box"

  /** The Kelvin sign, which case-insensitive matching takes for a `k`. */
  const Kelvin: char := 0x212A as char

  /** One character of the text against one lower-case character of the
      pattern, ignoring case: ASCII case folding, plus the Kelvin sign. */
  predicate FoldEq(c: char, p: char) {
    LowerChar(c) == p || (p == 'k' && c == Kelvin)
  }

  /** The lower-case literal `lit` matches the text at `i`, ignoring case. */
  predicate FoldsAt(s: string, i: nat, lit: string) {
    i + |lit| <= |s| && forall k :: 0 <= k < |lit| ==> FoldEq(s[i + k], lit[k])
  }

  /** The marker matches at `i`, taking the whitespace run greedily. */
  predicate MarkerAt(s: string, i: nat) {
    FoldsAt(s, i, TypeHead) && FoldsAt(s, Span(s, i + |TypeHead|, IsSpace), TypeTail)
  }

  /** The marker matches at `i` with the whitespace ending at `j`: the
      pattern as written, with no commitment to a greedy run. */
  predicate MarkerWithGap(s: string, i: nat, j: nat) {
    && FoldsAt(s, i, TypeHead)
    && i + |TypeHead| <= j <= |s|
    && (forall k :: i + |TypeHead| <= k < j ==> IsSpace(s[k]))
    && FoldsAt(s, j, TypeTail)
  }

  /** Whether the marker matches at a position, in the form the leftmost
      scan takes. */
  function MarkerProbe(md: string): nat -> Option<bool> {
    (i: nat) => if MarkerAt(md, i) then Some(true) else None
  }

  /** `_detect_type`: the leftmost marker decides. */
  function DetectType(md: string): (r: string)
    ensures r == BlackBoxType || r == WhiteBoxType
  {
    if Leftmost(|md|, 0, MarkerProbe(md)).Some? then BlackBoxType else WhiteBoxType
  }

  /** Only the greedy split of the whitespace can match, since the tail
      starts with a letter. */
  lemma GapIsGreedy(s: string, i: nat, j: nat)
    requires MarkerWithGap(s, i, j)
    ensures j == Span(s, i + |TypeHead|, IsSpace)
  {
    assert FoldEq(s[j + 0], TypeTail[0]);
  }

  /** A challenge is black-box exactly when the marker occurs somewhere,
      with any whitespace between its two halves. */
  lemma DetectTypeMarker(md: string)
    ensures DetectType(md) == BlackBoxType <==> exists i: nat, j: nat :: MarkerWithGap(md, i, j)
    ensures DetectType(md) == BlackBoxType <==> exists i: nat :: MarkerAt(md, i)
  {
    var found := Leftmost(|md|, 0, MarkerProbe(md));
    if found.Some? {
      var i := found.value.0;
      assert MarkerProbe(md)(i).Some?;
      var j := Span(md, i + |TypeHead|, IsSpace);
      assert MarkerWithGap(md, i, j);
    } else {
      forall i: nat
        ensures !MarkerAt(md, i)
      {
        if i <= |md| {
          assert MarkerProbe(md)(i).None?;
        }
      }
      forall i: nat, j: nat
        ensures !MarkerWithGap(md, i, j)
      {
        if MarkerWithGap(md, i, j) {
          GapIsGreedy(md, i, j);
          assert MarkerAt(md, i);
        }
      }
    }
  }

  /** Case folding one character again changes nothing it matches. */
  lemma FoldEqLower(c: char, p: char)
    ensures FoldEq(LowerChar(c), p) <==> FoldEq(c, p)
  {
  }

  /** Lower-casing the text does not move a whitespace run. */
  lemma {:induction false} SpanLower(s: string, i: nat)
    requires i <= |s|
    ensures Span(ToLower(s), i, IsSpace) == Span(s, i, IsSpace)
    decreases |s| - i
  {
    if i < |s| && IsSpace(s[i]) {
      SpanLower(s, i + 1);
    }
  }

  /** The literal matches the lower-cased text where it matches the text. */
  lemma FoldsAtLower(s: string, i: nat, lit: string)
    ensures FoldsAt(ToLower(s), i, lit) <==> FoldsAt(s, i, lit)
  {
    if i + |lit| <= |s| {
      forall k | 0 <= k < |lit|
        ensures FoldEq(ToLower(s)[i + k], lit[k]) <==> FoldEq(s[i + k], lit[k])
      {
        FoldEqLower(s[i + k], lit[k]);
      }
    }
  }

  /** Detection ignores case: lower-casing the challenge text keeps its
      type. */
  lemma DetectTypeIgnoresCase(md: string)
    ensures DetectType(ToLower(md)) == DetectType(md)
  {
    DetectTypeMarker(md);
    DetectTypeMarker(ToLower(md));
    forall i: nat
      ensures MarkerAt(ToLower(md), i) <==> MarkerAt(md, i)
    {
      MarkerAtLower(md, i);
    }
  }

  lemma MarkerAtLower(md: string, i: nat)
    ensures MarkerAt(ToLower(md), i) <==> MarkerAt(md, i)
  {
    FoldsAtLower(md, i, TypeHead);
    if i + |TypeHead| <= |md| {
      SpanLower(md, i + |TypeHead|);
      FoldsAtLower(md, Span(md, i + |TypeHead|, IsSpace), TypeTail);
    }
  }

  /** The marker in capitals, across a line break. */
  const ShoutedMarker: string := "Challenge Type:\n BLACK BOX"

  lemma ShoutedHead()
    ensures FoldsAt(ShoutedMarker, 0, TypeHead)
  {
  }

  lemma ShoutedTail()
    ensures Span(ShoutedMarker, 15, IsSpace) == 17
    ensures FoldsAt(ShoutedMarker, 17, TypeTail)
  {
    assert IsSpace(ShoutedMarker[15]) && IsSpace(ShoutedMarker[16]) && !IsSpace(ShoutedMarker[17]);
    assert Span(ShoutedMarker, 17, IsSpace) == 17;
  }

  /** The marker in capitals, across a line break, marks a black-box
      challenge. */
  lemma DetectTypeExample()
    ensures DetectType(ShoutedMarker) == BlackBoxType
  {
    ShoutedHead();
    ShoutedTail();
    assert MarkerAt(ShoutedMarker, 0);
    DetectTypeMarker(ShoutedMarker);
  }

  // ---------------------------------------------------------------------
  // _extract_variable_names
  // ---------------------------------------------------------------------

  const HeaderFile: string := "yourSolution.h"
  const CryptoContextType: string := "CryptoContext<DCRTPoly>"
  const PublicKeyType: string := "PublicKey<DCRTPoly>"
  const CiphertextType: string := "Ciphertext<DCRTPoly>"

  const CcKey: string := "cc"
  const PkKey: string := "pk"
  const InputKey: string := "input"
  const OutputKey: string := "output"

  /** A `<kind>\s+(\w+)` match at `i`: where it ends and the name it
      captures. */
  function DeclAt(s: string, kind: string, i: nat): (r: Option<(nat, string)>)
    ensures r.Some? ==> i < r.value.0 <= |s| && r.value.1 != []
  {
    if !OccursAt(s, kind, i) then None
    else
      var j := Span(s, i + |kind|, IsSpace);
      if j == i + |kind| then None
      else
        var e := Span(s, j, IsWordChar);
        if e == j then None else Some((e, s[j..e]))
  }

  /** A captured name is a whole identifier, right after the type and some
      whitespace. */
  lemma DeclAtName(s: string, kind: string, i: nat)
    requires DeclAt(s, kind, i).Some?
    ensures var (e, name) := DeclAt(s, kind, i).value;
      && OccursAt(s, kind, i)
      && e - |name| > i + |kind|
      && s[e - |name|..e] == name
      && (forall k :: 0 <= k < |name| ==> IsWordChar(name[k]))
      && (e < |s| ==> !IsWordChar(s[e]))
  {
  }

  /** The leftmost declaration of `kind` at or after `from`. */
  function NextDecl(s: string, kind: string, from: nat): Option<(nat, (nat, string))> {
    Leftmost(|s|, from, i => DeclAt(s, kind, i))
  }

  /** `re.search(<kind>\s+(\w+), s).group(1)` */
  function SearchName(s: string, kind: string): (r: Option<string>)
    ensures r.Some? ==> r.value != []
  {
    var m := NextDecl(s, kind, 0);
    if m.Some? then Some(m.value.1.1) else None
  }

  /** `re.findall(<kind>\s+(\w+), s[from:])`: the names of successive
      non-overlapping matches, left to right. */
  function FindAll(s: string, kind: string, from: nat): seq<string>
    decreases |s| + 1 - from
  {
    var m := NextDecl(s, kind, from);
    if m.None? then []
    else [m.value.1.1] + FindAll(s, kind, m.value.1.0)
  }

  /** The first name `findall` returns is the one `search` finds. */
  lemma FindAllFirst(s: string, kind: string)
    ensures FindAll(s, kind, 0) != [] <==> SearchName(s, kind).Some?
    ensures FindAll(s, kind, 0) != [] ==> FindAll(s, kind, 0)[0] == SearchName(s, kind).value
  {
  }

  /** Every name `findall` returns is a nonempty identifier. */
  lemma {:induction false} FindAllNames(s: string, kind: string, from: nat)
    ensures forall k :: 0 <= k < |FindAll(s, kind, from)| ==>
      FindAll(s, kind, from)[k] != [] && forall c :: 0 <= c < |FindAll(s, kind, from)[k]| ==> IsWordChar(FindAll(s, kind, from)[k][c])
    decreases |s| + 1 - from
  {
    var m := NextDecl(s, kind, from);
    if m.Some? {
      DeclAtName(s, kind, m.value.0);
      FindAllNames(s, kind, m.value.1.0);
    }
  }

  /** `template_files.get(name, "")`; a later entry for the same name
      wins, as a dictionary assignment does. */
  function TemplateText(files: seq<(string, string)>, name: string): string {
    if files == [] then ""
    else if files[|files| - 1].0 == name then files[|files| - 1].1
    else TemplateText(files[..|files| - 1], name)
  }

  /** The names found, keyed as the prompts expect: `input` is the first
      ciphertext, `output` the last when there are two or more. */
  function Names(cc: Option<string>, pk: Option<string>, cts: seq<string>): (r: map<string, string>)
    ensures r.Keys <= {CcKey, PkKey, InputKey, OutputKey}
    ensures OutputKey in r ==> InputKey in r
  {
    (if cc.Some? then map[CcKey := cc.value] else map[])
    + (if pk.Some? then map[PkKey := pk.value] else map[])
    + (if |cts| > 0 then map[InputKey := cts[0]] else map[])
    + (if |cts| > 1 then map[OutputKey := cts[|cts| - 1]] else map[])
  }

  /** `_extract_variable_names` */
  function ExtractVariableNames(files: seq<(string, string)>): (r: map<string, string>)
    ensures r.Keys <= {CcKey, PkKey, InputKey, OutputKey}
    ensures OutputKey in r ==> InputKey in r
  {
    var header := TemplateText(files, HeaderFile);
    Names(SearchName(header, CryptoContextType), SearchName(header, PublicKeyType), FindAll(header, CiphertextType, 0))
  }

  /** Each key is present exactly when its declarations are found, and
      holds the name the declarations give it. */
  lemma NamesFound(cc: Option<string>, pk: Option<string>, cts: seq<string>)
    ensures var r := Names(cc, pk, cts);
      && (CcKey in r <==> cc.Some?) && (cc.Some? ==> r[CcKey] == cc.value)
      && (PkKey in r <==> pk.Some?) && (pk.Some? ==> r[PkKey] == pk.value)
      && (InputKey in r <==> |cts| > 0) && (|cts| > 0 ==> r[InputKey] == cts[0])
      && (OutputKey in r <==> |cts| > 1) && (|cts| > 1 ==> r[OutputKey] == cts[|cts| - 1])
  {
  }

  /** `input` is the first ciphertext declaration, `output` the last when
      there are two or more; `cc` and `pk` are the first of their kind. */
  lemma VariableNamesFirstLast(files: seq<(string, string)>)
    ensures var header := TemplateText(files, HeaderFile);
      var r := ExtractVariableNames(files);
      var cts := FindAll(header, CiphertextType, 0);
      && (InputKey in r <==> SearchName(header, CiphertextType).Some?)
      && (InputKey in r ==> r[InputKey] == SearchName(header, CiphertextType).value)
      && (OutputKey in r <==> |cts| >= 2)
      && (OutputKey in r ==> r[OutputKey] == cts[|cts| - 1])
      && (CcKey in r <==> SearchName(header, CryptoContextType).Some?)
      && (CcKey in r ==> r[CcKey] == SearchName(header, CryptoContextType).value)
      && (PkKey in r <==> SearchName(header, PublicKeyType).Some?)
      && (PkKey in r ==> r[PkKey] == SearchName(header, PublicKeyType).value)
  {
    var header := TemplateText(files, HeaderFile);
    FindAllFirst(header, CiphertextType);
    NamesFound(SearchName(header, CryptoContextType), SearchName(header, PublicKeyType), FindAll(header, CiphertextType, 0));
  }

  /** Nothing is found in an empty header. */
  lemma NoDeclInEmpty(kind: string, from: nat)
    requires kind != []
    ensures NextDecl("", kind, from).None?
  {
  }

  /** Without a `yourSolution.h` template no names are extracted. */
  lemma NoHeaderNoNames(files: seq<(string, string)>)
    requires forall k :: 0 <= k < |files| ==> files[k].0 != HeaderFile
    ensures ExtractVariableNames(files) == map[]
  {
    assert TemplateText(files, HeaderFile) == "" by {
      NoHeaderText(files);
    }
    NoDeclInEmpty(CryptoContextType, 0);
    NoDeclInEmpty(PublicKeyType, 0);
    NoDeclInEmpty(CiphertextType, 0);
  }

  lemma {:induction false} NoHeaderText(files: seq<(string, string)>)
    requires forall k :: 0 <= k < |files| ==> files[k].0 != HeaderFile
    ensures TemplateText(files, HeaderFile) == ""
  {
    if files != [] {
      NoHeaderText(files[..|files| - 1]);
    }
  }

  // ---------------------------------------------------------------------
  // FHEScenario
  // ---------------------------------------------------------------------

  /** What the scenario keeps: the challenge's directory name and text,
      its type, its templates in name order, and the extracted names. */
  datatype FHEScenario = FHEScenario(
    challengeName: string,
    challengeMd: string,
    challengeType: string,
    templateFiles: seq<(string, string)>,
    variableNames: map<string, string>)

  /** `FHEScenario.__init__` once the directory has been read. */
  function NewScenario(name: string, md: string, files: seq<(string, string)>): (s: FHEScenario)
    ensures s.challengeName == name && s.challengeMd == md && s.templateFiles == files
    ensures s.challengeType == BlackBoxType || s.challengeType == WhiteBoxType
    ensures s.variableNames.Keys <= {CcKey, PkKey, InputKey, OutputKey}
  {
    FHEScenario(name, md, DetectType(md), files, ExtractVariableNames(files))
  }

  // ---------------------------------------------------------------------
  // get_scenario_all_desc
  // ---------------------------------------------------------------------

  const TitleLabel: string := "# FHE Challenge: "
  const Blank: string := "\n\n"
  const TemplatesHeading: string := "## Template Files\n\n"
  const FileLabel: string := "### "
  const CodeOpen: string := "\n```cpp\n"
  const CodeClose: string := "\n```\n\n"

  /** The title and the challenge text. */
  function Intro(s: FHEScenario): string {
    TitleLabel + s.challengeName + Blank + s.challengeMd + Blank
  }

  /** The subsection for one template file: its name, then its content in
      a C++ block. */
  function FileSection(file: (string, string)): string {
    FileLabel + file.0 + CodeOpen + file.1 + CodeClose
  }

  /** The subsections of the first `n` template files. */
  function FileSections(files: seq<(string, string)>, n: nat): string
    requires n <= |files|
  {
    if n == 0 then "" else FileSections(files, n - 1) + FileSection(files[n - 1])
  }

  /** `get_scenario_all_desc` as a value. */
  function AllDesc(s: FHEScenario): string {
    Intro(s) + if s.templateFiles == [] then "" else TemplatesHeading + FileSections(s.templateFiles, |s.templateFiles|)
  }

  /** `get_scenario_all_desc`: the challenge text, then a section for the
      templates when there are any. */
  method ScenarioAllDesc(s: FHEScenario) returns (desc: string)
    ensures desc == AllDesc(s)
  {
    desc := TitleLabel + s.challengeName + Blank + s.challengeMd + Blank;
    if s.templateFiles != [] {
      ghost var intro := desc;
      desc := desc + TemplatesHeading;
      ghost var head := desc;
      var i := 0;
      while i < |s.templateFiles|
        invariant i <= |s.templateFiles|
        invariant desc == head + FileSections(s.templateFiles, i)
      {
        var (fname, content) := s.templateFiles[i];
        desc := desc + FileLabel + fname + CodeOpen + content + CodeClose;
        i := i + 1;
      }
      assert desc == intro + (TemplatesHeading + FileSections(s.templateFiles, i));
    }
  }

  /** The sections so far are the start of all of them. */
  lemma {:induction false} FileSectionsPrefix(files: seq<(string, string)>, k: nat, n: nat)
    requires k <= n <= |files|
    ensures StartsWith(FileSections(files, n), FileSections(files, k))
    decreases n
  {
    if k < n {
      FileSectionsPrefix(files, k, n - 1);
      var a := FileSections(files, n - 1);
      assert (a + FileSection(files[n - 1]))[..|FileSections(files, k)|] == a[..|FileSections(files, k)|];
    }
  }

  /** Each file's subsection sits right after those of the files before
      it. */
  lemma SectionAt(files: seq<(string, string)>, k: nat)
    requires k < |files|
    ensures OccursAt(FileSections(files, |files|), FileSection(files[k]), |FileSections(files, k)|)
  {
    FileSectionsPrefix(files, k + 1, |files|);
    var all := FileSections(files, |files|);
    var before := FileSections(files, k);
    var sec := FileSection(files[k]);
    assert all[..|before| + |sec|] == before + sec;
    assert all[|before|..|before| + |sec|] == (before + sec)[|before|..];
  }

  /** An occurrence stays one after text is put in front. */
  lemma OccursAfter(d: string, s: string, sub: string, p: nat)
    requires OccursAt(s, sub, p)
    ensures OccursAt(d + s, sub, |d| + p)
  {
    assert (d + s)[|d| + p..|d| + p + |sub|] == s[p..p + |sub|];
  }

  /** The template section exists exactly when there are templates, and
      opens with its heading. */
  lemma AllDescHeading(s: FHEScenario)
    ensures s.templateFiles == [] <==> AllDesc(s) == Intro(s)
    ensures s.templateFiles != [] ==> StartsWith(AllDesc(s), Intro(s) + TemplatesHeading)
  {
    if s.templateFiles != [] {
      var d := Intro(s) + TemplatesHeading;
      var all := FileSections(s.templateFiles, |s.templateFiles|);
      assert AllDesc(s) == d + all;
      assert (d + all)[..|d|] == d;
    }
  }

  /** The template section holds each file's subsection, in order, one
      after the other. */
  lemma AllDescSection(s: FHEScenario, k: nat)
    requires k < |s.templateFiles|
    ensures OccursAt(AllDesc(s), FileSection(s.templateFiles[k]),
                     |Intro(s) + TemplatesHeading| + |FileSections(s.templateFiles, k)|)
  {
    var files := s.templateFiles;
    var d := Intro(s) + TemplatesHeading;
    var all := FileSections(files, |files|);
    assert AllDesc(s) == d + all;
    SectionAt(files, k);
    OccursAfter(d, all, FileSection(files[k]), |FileSections(files, k)|);
  }
}
