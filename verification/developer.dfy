/** The coder (`FHECoder`): picking the C++ code out of the model's answer,
    the feedback context for the next prompt, the variable-name lines, and
    `develop`, which checks its inputs in order and patches the template.
    The call to the language model is replaced by its answer, passed in. */
module Developer {
  import opened Wrappers
  import opened Text
  import opened Patcher
  import opened Experiment

  // ---------------------------------------------------------------------
  // Fenced code blocks
  // ---------------------------------------------------------------------

  /** Group 1 of the first match of `<opener>\s*(.*?)\s*``` ` with DOTALL,
      for an opener that starts with three backticks. The match starts at
      the first `opener` and ends at the first three backticks after it:
      a later opener would itself be such a closing fence. The leading and
      trailing `\s*` take every space they can, because the lazy group
      stops as soon as only spaces stand before the fence; so the group is
      the stripped text between the opener and the fence. */
  function FencedBlock(s: string, opener: string): (r: Option<string>)
    ensures r.Some? ==> r.value == Strip(r.value)
  {
    var i := FirstOccurrence(s, opener, 0);
    if i.None? then None
    else
      var q := FirstOccurrence(s, "```", i.value + |opener|);
      if q.None? then None
      else
        StripIdempotent(s[i.value + |opener|..q.value]);
        Some(Strip(s[i.value + |opener|..q.value]))
  }

  /** The words whose presence makes a generic block count as C++. */
  const FheKeywords: seq<string> := ["EvalMult", "EvalAdd", "m_cc", "m_InputC", "Ciphertext"]

  predicate HasFheKeyword(code: string) {
    exists k :: 0 <= k < |FheKeywords| && Contains(code, FheKeywords[k])
  }

  /** `_extract_cpp_code`: the first ```` ```cpp ```` block, stripped, even
      when it is empty; without one, the first generic block, but only when
      it mentions an FHE keyword; otherwise "". */
  function ExtractCppCode(response: string): (r: string)
    ensures r == Strip(r)
  {
    var cpp := FencedBlock(response, "```cpp");
    if cpp.Some? then StrippedBlock(cpp.value)
    else
      var generic := FencedBlock(response, "```");
      if generic.Some? && HasFheKeyword(Strip(generic.value)) then StrippedBlock(generic.value)
      else StripEmpty(); ""
  }

  /** `block.strip()`, which is stripped already. */
  function StrippedBlock(block: string): (r: string)
    ensures r == Strip(r) && r == Strip(block)
  {
    StripIdempotent(block);
    Strip(block)
  }

  /** A ```` ```cpp ```` block wins whatever it holds; a generic block is
      taken only when it mentions an FHE keyword; anything else gives "". */
  lemma ExtractCppCodeCases(response: string)
    ensures FencedBlock(response, "```cpp").Some? ==>
      ExtractCppCode(response) == FencedBlock(response, "```cpp").value
    ensures FencedBlock(response, "```cpp").None? && ExtractCppCode(response) != "" ==>
      FencedBlock(response, "```").Some? && ExtractCppCode(response) == FencedBlock(response, "```").value
      && HasFheKeyword(ExtractCppCode(response))
    ensures (FencedBlock(response, "```cpp").None? && FencedBlock(response, "```").Some?
             && HasFheKeyword(FencedBlock(response, "```").value)) ==>
      ExtractCppCode(response) == FencedBlock(response, "```").value
  {
    var cpp := FencedBlock(response, "```cpp");
    var generic := FencedBlock(response, "```");
    if cpp.Some? {
      assert Strip(cpp.value) == cpp.value;
    } else if generic.Some? {
      assert Strip(generic.value) == generic.value;
    }
  }

  /** A character other than a backtick starts no fence. */
  lemma NoFenceAt(s: string, sub: string, j: nat)
    requires |sub| > 0 && sub[0] == '`'
    requires j < |s| && s[j] != '`'
    ensures !OccursAt(s, sub, j)
  {
    if j + |sub| <= |s| {
      assert s[j..j + |sub|][0] == s[j];
    }
  }

  /** Where the parts of a fenced answer sit. */
  lemma FencedParts(p: string, c: string, rest: string)
    ensures var w := "\n" + c + "\n";
      var s := p + "```cpp" + w + "```" + rest;
      && s[|p|..|p| + 6] == "```cpp"
      && s[|p| + 6..|p| + 6 + |w|] == w
      && s[|p| + 6 + |w|..|p| + 9 + |w|] == "```"
      && s[..|p|] == p
  {
  }

  /** A text with no backtick before index `a`, ```` ```cpp ```` at `a`,
      then a backtick-free `w`, then a fence, holds `w` stripped as its
      ```` ```cpp ```` block. */
  lemma CppBlockAt(s: string, a: nat, w: string)
    requires a + 9 + |w| <= |s|
    requires forall j :: 0 <= j < a ==> s[j] != '`'
    requires s[a..a + 6] == "```cpp" && s[a + 6..a + 6 + |w|] == w && s[a + 6 + |w|..a + 9 + |w|] == "```"
    requires '`' !in w
    ensures FencedBlock(s, "```cpp") == Some(Strip(w))
  {
    var b := a + 6;
    var q := b + |w|;
    assert OccursAt(s, "```cpp", a);
    NoFenceBetween(s, "```cpp", 0, a);
    FirstOccurrenceAt(s, "```cpp", 0, a);
    assert OccursAt(s, "```", q);
    forall j | b <= j < q ensures s[j] != '`' {
      assert s[j] == s[b..q][j - b];
    }
    NoFenceBetween(s, "```", b, q);
    FirstOccurrenceAt(s, "```", b, q);
  }

  /** A stretch without backticks holds no fence start. */
  lemma NoFenceBetween(s: string, sub: string, lo: nat, hi: nat)
    requires |sub| > 0 && sub[0] == '`'
    requires hi <= |s|
    requires forall j :: lo <= j < hi ==> s[j] != '`'
    ensures forall j: nat :: lo <= j < hi ==> !OccursAt(s, sub, j)
  {
    forall j: nat | lo <= j < hi ensures !OccursAt(s, sub, j) {
      NoFenceAt(s, sub, j);
    }
  }

  /** Round trip: a code block written as ```` ```cpp ````, a newline, the
      code, a newline and a closing fence is read back as the code,
      stripped, whatever text follows, provided neither the text before it
      nor the code holds a backtick. */
  lemma FenceRoundTrip(p: string, c: string, rest: string)
    requires '`' !in p && '`' !in c
    ensures ExtractCppCode(p + "```cpp" + ("\n" + c + "\n") + "```" + rest) == Strip(c)
  {
    var w := "\n" + c + "\n";
    var s := p + "```cpp" + w + "```" + rest;
    FencedParts(p, c, rest);
    forall j | 0 <= j < |p| ensures s[j] != '`' {
      assert s[j] == s[..|p|][j];
    }
    assert '`' !in w;
    CppBlockAt(s, |p|, w);
    StripNewlines(c);
    StripIdempotent(c);
  }

  // ---------------------------------------------------------------------
  // Prompt pieces
  // ---------------------------------------------------------------------

  const FailedHeader: string := "Previous attempt failed:\n"
  const OutputHeader: string := "Previous output (last 500 chars):\n"
  const FirstAttempt: string := "No previous feedback (first attempt)."

  /** `_get_feedback_context`: the start of the error message when there is
      one, else the end of the Docker output when there is one, else a fixed
      note. */
  function FeedbackContext(state: RunState): (r: string)
    ensures state.errorMessage != "" ==>
      StartsWith(r, FailedHeader) && StartsWith(state.errorMessage, r[|FailedHeader|..])
      && r[|FailedHeader|..] == if |state.errorMessage| <= 800 then state.errorMessage
                                else state.errorMessage[..800]
    ensures state.errorMessage == "" && state.dockerOutput != "" ==>
      StartsWith(r, OutputHeader) && EndsWith(state.dockerOutput, r[|OutputHeader|..])
      && |r| <= |OutputHeader| + 500
      && r[|OutputHeader|..] == if |state.dockerOutput| <= 500 then state.dockerOutput
                                else state.dockerOutput[|state.dockerOutput| - 500..]
    ensures state.errorMessage == "" && state.dockerOutput == "" ==> r == FirstAttempt
    ensures |r| <= |FailedHeader| + 800
  {
    if state.errorMessage != "" then FailedHeader + Take(state.errorMessage, 800)
    else if state.dockerOutput != "" then OutputHeader + TakeLast(state.dockerOutput, 500)
    else FirstAttempt
  }

  /** The context never mixes its sources: a non-empty error message hides
      the Docker output, and the result is never empty. */
  lemma FeedbackContextPrefersError(a: RunState, b: RunState)
    requires a.errorMessage == b.errorMessage != ""
    ensures FeedbackContext(a) == FeedbackContext(b)
    ensures FeedbackContext(a) != ""
  {
  }

  const NoNamesLine: string := "  (variable names not extracted from header)"

  /** The lines `_format_variable_names` collects, in the order cc, input,
      output, pk. */
  function VariableLines(names: map<string, string>): (r: seq<string>)
    ensures |r| == (if "cc" in names then 1 else 0) + (if "input" in names then 1 else 0)
      + (if "output" in names then 1 else 0) + (if "pk" in names then 1 else 0)
    ensures Bulleted(r)
  {
    assert KnownBefore(names, 2) == (if "cc" in names then 1 else 0) + (if "input" in names then 1 else 0);
    RoleLines(names, |RoleKeys|)
  }

  /** The lines for the first `n` roles of the table. */
  function RoleLines(names: map<string, string>, n: nat): (r: seq<string>)
    requires n <= |RoleKeys|
    ensures |r| == KnownBefore(names, n)
    ensures Bulleted(r)
  {
    if n == 0 then []
    else
      var prefix := RoleLines(names, n - 1);
      var line := NameLine(names, RoleKeys[n - 1], RoleTexts[n - 1]);
      BulletedAppend(prefix, line);
      prefix + line
  }

  /** Every line is a list item: it starts with `-`. */
  predicate Bulleted(lines: seq<string>) {
    forall k :: 0 <= k < |lines| ==> |lines[k]| > 0 && lines[k][0] == '-'
  }

  lemma BulletedAppend(a: seq<string>, b: seq<string>)
    requires Bulleted(a) && Bulleted(b)
    ensures Bulleted(a + b)
  {
    forall k | 0 <= k < |a + b| ensures |(a + b)[k]| > 0 && (a + b)[k][0] == '-' {
      if k >= |a| {
        assert (a + b)[k] == b[k - |a|];
      }
    }
  }

  const CcRole: string := "  \U{2192} CryptoContext<DCRTPoly> (NOT 'cc')"
  const InputRole: string := "  \U{2192} Input Ciphertext<DCRTPoly> (read from this)"
  const OutputRole: string := "  \U{2192} Output Ciphertext (ASSIGN to this, eval() is void - no return!)"
  const PkRole: string := "  \U{2192} PublicKey<DCRTPoly>"

  /** The four roles, in the order the lines list them, and the text
      each line gives its role. */
  const RoleKeys: seq<string> := ["cc", "input", "output", "pk"]
  const RoleTexts: seq<string> := [CcRole, InputRole, OutputRole, PkRole]

  /** The line for `key`, when the header gave it a name. */
  function NameLine(names: map<string, string>, key: string, role: string): (r: seq<string>)
    ensures |r| == if key in names then 1 else 0
    ensures Bulleted(r)
  {
    if key in names then ["- " + names[key] + role] else []
  }

  /** How many of the first `i` roles the names map holds. */
  function KnownBefore(names: map<string, string>, i: nat): (n: nat)
    requires i <= |RoleKeys|
    ensures n <= i
  {
    if i == 0 then 0 else KnownBefore(names, i - 1) + if RoleKeys[i - 1] in names then 1 else 0
  }

  /** The lines list the known roles in order and nothing else: one line
      per known role, and the line of the `i`-th role comes after those of
      the known roles before it and reads `- <name>  → <role>`. */
  lemma VariableLinesListing(names: map<string, string>)
    ensures |VariableLines(names)| == KnownBefore(names, |RoleKeys|)
    ensures forall i :: 0 <= i < |RoleKeys| && RoleKeys[i] in names ==>
      KnownBefore(names, i) < |VariableLines(names)|
      && VariableLines(names)[KnownBefore(names, i)] == "- " + names[RoleKeys[i]] + RoleTexts[i]
  {
    forall i | 0 <= i < |RoleKeys| && RoleKeys[i] in names
      ensures KnownBefore(names, i) < |VariableLines(names)|
      ensures VariableLines(names)[KnownBefore(names, i)] == "- " + names[RoleKeys[i]] + RoleTexts[i]
    {
      RoleLineAt(names, |RoleKeys|, i);
    }
  }

  /** Among the lines for the first `n` roles, the line of a known role
      `i < n` sits after the lines of the known roles before it. */
  lemma {:induction false} RoleLineAt(names: map<string, string>, n: nat, i: nat)
    requires i < n <= |RoleKeys| && RoleKeys[i] in names
    ensures KnownBefore(names, i) < |RoleLines(names, n)|
    ensures RoleLines(names, n)[KnownBefore(names, i)] == "- " + names[RoleKeys[i]] + RoleTexts[i]
  {
    var prefix := RoleLines(names, n - 1);
    assert RoleLines(names, n) == prefix + NameLine(names, RoleKeys[n - 1], RoleTexts[n - 1]);
    if i < n - 1 {
      RoleLineAt(names, n - 1, i);
    }
  }

  /** `_format_variable_names` */
  function FormatVariableNames(names: map<string, string>): (r: string)
    ensures r == NoNamesLine <==> "cc" !in names && "input" !in names && "output" !in names && "pk" !in names
  {
    var lines := VariableLines(names);
    if lines == [] then NoNamesLine
    else
      JoinStartsWithFirst(lines, "\n");
      assert Join(lines, "\n")[0] == lines[0][0] == '-' != NoNamesLine[0];
      Join(lines, "\n")
  }

  // ---------------------------------------------------------------------
  // develop
  // ---------------------------------------------------------------------

  const NoSubTasks: string := "FHEExperiment has no sub_tasks"
  const NoTemplate: string := "No yourSolution.cpp template found in challenge"
  const NoCodeBlock: string := "LLM did not produce a ```cpp ... ``` code block in response"
  const InjectionFailed: string := "Code injection failed: "

  /** The template file the coder patches, or "" when there is none. */
  function SolutionTemplate(templates: map<string, string>): string {
    if "yourSolution.cpp" in templates then templates["yourSolution.cpp"] else ""
  }

  /** `_extract_config`: the first ```` ```json ```` block, passed through
      the JSON decoder and encoder (`reformat`, `None` when decoding
      fails). */
  function ExtractConfig(response: string, reformat: string -> Option<string>): Option<string> {
    var block := FencedBlock(response, "```json");
    if block.None? then None else reformat(Strip(block.value))
  }

  /** The patched template, or the `CoderError` raised on the way: no code
      block in the answer, or no marker in the template. */
  function PatchedSolution(template: string, response: string): (r: Result<string, Raised>)
    ensures r.Failure? ==> r.error.CoderError?
  {
    var code := ExtractCppCode(response);
    if code == "" then Failure(CoderError(NoCodeBlock))
    else
      var patched := Injected(template, StrippedWrapper(code));
      if patched.Failure? then Failure(CoderError(InjectionFailed + patched.error.Message()))
      else Success(patched.value)
  }

  /** The `config.json` the coder writes: only for white-box challenges,
      and only when the answer holds a JSON block that decodes. */
  function ConfigFile(challengeType: string, response: string, reformat: string -> Option<string>): Option<string> {
    if challengeType == "white_box" then ExtractConfig(response, reformat) else None
  }

  /** The files `develop` writes into the workspace, or the `CoderError`
      it raises, checked in the source's order. */
  function Coded(hasTasks: bool, template: string, challengeType: string, response: string,
                 reformat: string -> Option<string>): (r: Result<map<string, string>, Raised>)
    ensures r.Success? ==> "yourSolution.cpp" in r.value
    ensures r.Success? ==> r.value.Keys <= {"yourSolution.cpp", "config.json"}
    ensures r.Failure? ==> r.error.CoderError?
  {
    if !hasTasks then Failure(CoderError(NoSubTasks))
    else if template == "" then Failure(CoderError(NoTemplate))
    else
      var patched := PatchedSolution(template, response);
      if patched.Failure? then Failure(patched.error)
      else
        var files := map["yourSolution.cpp" := patched.value];
        var config := ConfigFile(challengeType, response, reformat);
        if config.Some? then Success(files["config.json" := config.value]) else Success(files)
  }

  /** The checks run in order: the first one that fails names the error,
      whatever the later inputs are; once they all pass the solution file
      is the patched template and `config.json` is written exactly when
      there is a config. */
  lemma CodedInOrder(hasTasks: bool, template: string, challengeType: string, response: string,
                     reformat: string -> Option<string>)
    ensures !hasTasks ==> Coded(hasTasks, template, challengeType, response, reformat) == Failure(CoderError(NoSubTasks))
    ensures hasTasks && template == "" ==>
      Coded(hasTasks, template, challengeType, response, reformat) == Failure(CoderError(NoTemplate))
    ensures hasTasks && template != "" && PatchedSolution(template, response).Failure? ==>
      Coded(hasTasks, template, challengeType, response, reformat) == Failure(PatchedSolution(template, response).error)
    ensures hasTasks && template != "" && PatchedSolution(template, response).Success? ==>
      && Coded(hasTasks, template, challengeType, response, reformat).Success?
      && Coded(hasTasks, template, challengeType, response, reformat).value["yourSolution.cpp"]
         == PatchedSolution(template, response).value
      && ("config.json" in Coded(hasTasks, template, challengeType, response, reformat).value
          <==> ConfigFile(challengeType, response, reformat).Some?)
  {
  }

  /** The code checks: no code block is reported before a missing marker. */
  lemma PatchedSolutionErrors(template: string, response: string)
    ensures ExtractCppCode(response) == "" ==> PatchedSolution(template, response) == Failure(CoderError(NoCodeBlock))
    ensures ExtractCppCode(response) != "" && FindMarker(template).None? ==>
      PatchedSolution(template, response) == Failure(CoderError(InjectionFailed + MarkerNotFound.Message()))
    ensures ExtractCppCode(response) != "" && FindMarker(template).Some? ==> PatchedSolution(template, response).Success?
  {
  }

  /** On success the patched file keeps the template up to and including
      the marker's `{` and puts the stripped code right after it, on lines
      of its own. */
  lemma PatchedSolutionShape(template: string, response: string)
    requires PatchedSolution(template, response).Success?
    ensures FindMarker(template).Some?
    ensures var m := FindMarker(template).value;
      var body := StrippedWrapper(ExtractCppCode(response));
      var file := PatchedSolution(template, response).value;
      && file[..m.end] == template[..m.end]
      && file[m.end..m.end + |body| + 2] == "\n" + body + "\n"
  {
    var m := FindMarker(template).value;
    var body := StrippedWrapper(ExtractCppCode(response));
    assert PatchedSolution(template, response).value == Injected(template, body).value;
    InjectedShape(template, body, m);
  }

  /** Writing one file is overlaying a one-file map. */
  lemma OverlayOne(f: map<string, string>, k: string, v: string)
    ensures f[k := v] == f + map[k := v]
  {
  }

  /** Writing two files in turn is overlaying the map of both. */
  lemma OverlayTwo(f: map<string, string>, k1: string, v1: string, k2: string, v2: string)
    ensures f[k1 := v1][k2 := v2] == f + map[k1 := v1][k2 := v2]
  {
  }

  /** The coding step up to the patched template. */
  method Patch(template: string, response: string) returns (r: Result<string, Raised>)
    ensures r == PatchedSolution(template, response)
  {
    var code := ExtractCppCode(response);
    if code == "" {
      return Failure(CoderError(NoCodeBlock));
    }
    code := StripEvalWrapper(code);
    var patched := InjectEvalBody(template, code);
    if patched.Failure? {
      return Failure(CoderError(InjectionFailed + patched.error.Message()));
    }
    r := Success(patched.value);
  }

  /** `develop`: on success the workspace gains the patched template (and
      the config block for white-box challenges); on a `CoderError` the
      workspace is left as it was. The run results are never touched. */
  method Develop(exp: FHEExperiment, templates: map<string, string>, challengeType: string,
                 response: string, reformat: string -> Option<string>) returns (r: Outcome<Raised>)
    modifies exp
    ensures Coded(old(exp.subTasks) != [], SolutionTemplate(templates), challengeType, response, reformat).Failure? ==>
      r == Fail(Coded(old(exp.subTasks) != [], SolutionTemplate(templates), challengeType, response, reformat).error)
      && exp.fileDict == old(exp.fileDict)
    ensures Coded(old(exp.subTasks) != [], SolutionTemplate(templates), challengeType, response, reformat).Success? ==>
      r == Pass
      && exp.fileDict == old(exp.fileDict)
         + Coded(old(exp.subTasks) != [], SolutionTemplate(templates), challengeType, response, reformat).value
    ensures exp.State() == old(exp.State())
    ensures exp.subTasks == old(exp.subTasks) && exp.hypothesis == old(exp.hypothesis)
  {
    if exp.subTasks == [] {
      return Fail(CoderError(NoSubTasks));
    }
    var template := SolutionTemplate(templates);
    if template == "" {
      return Fail(CoderError(NoTemplate));
    }
    var patched := Patch(template, response);
    CodedInOrder(true, template, challengeType, response, reformat);
    if patched.Failure? {
      return Fail(patched.error);
    }
    exp.InjectFile("yourSolution.cpp", patched.value);
    OverlayOne(old(exp.fileDict), "yourSolution.cpp", patched.value);
    if challengeType == "white_box" {
      var config := ExtractConfig(response, reformat);
      if config.Some? {
        exp.InjectFile("config.json", config.value);
        OverlayTwo(old(exp.fileDict), "yourSolution.cpp", patched.value, "config.json", config.value);
      }
    }
    r := Pass;
  }
}
