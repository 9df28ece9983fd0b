/**
 * Type 400 script components: wrapping script bodies in `<trans>` tags,
 * extracting a body from script text, and rewriting
 * `RunOperation("op.<uuid>")` / `RunScript("sc.<uuid>")` calls into the
 * `<TAG>operation:<name></TAG>` / `<TAG>script:<name></TAG>` form.
 */
module ScriptFactory {
  import opened Wrappers
  import opened Strings
  import opened JsonValues

  datatype ScriptComponent = ScriptComponent(
    id: string,
    name: string,
    scriptBody: string,
    scriptBodyCleansed: string,
    originalContentId: Option<string>)
  {
    function ToJson(): Json {
      var base := map[
        "type" := Num(400), "id" := Str(id), "name" := Str(name),
        "scriptBody" := Str(scriptBody), "scriptBodyCleansed" := Str(scriptBodyCleansed),
        "scriptType" := Num(1), "globalVariables" := Arr([]), "notes" := Str(""),
        "checksum" := Str("1"), "requiresDeploy" := Bool(true),
        "metadataVersion" := Str("3.0.1"), "encryptedAtRest" := Bool(true),
        "chunks" := Num(1), "cursor" := Str(""), "partial" := Bool(false),
        "validationState" := Num(100), "hidden" := Bool(false)];
      if originalContentId.Some? then
        Obj(base["_conversion_metadata" := Obj(map["original_content_id" := Str(originalContentId.value)])])
      else Obj(base)
    }
  }

  const TransOpen: string := "<trans>"
  const TransClose: string := "</trans>"

  /** The body stored in a script component. */
  function WrapBody(scriptBody: string): (r: string)
    ensures scriptBody == "" ==> r == "<trans>\n</trans>"
    ensures scriptBody != "" && IsPrefix(TransOpen, Strip(scriptBody)) ==> r == scriptBody
    ensures scriptBody != "" && !IsPrefix(TransOpen, Strip(scriptBody)) ==> r == "<trans>\n" + scriptBody + "\n</trans>"
  {
    if scriptBody != "" && !IsPrefix(TransOpen, Strip(scriptBody)) then "<trans>\n" + scriptBody + "\n</trans>"
    else if scriptBody != "" then scriptBody
    else "<trans>\n</trans>"
  }

  /** Every stored body, once stripped, starts with `<trans>`. */
  lemma WrapBodyStartsWithTrans(scriptBody: string)
    ensures IsPrefix(TransOpen, Strip(WrapBody(scriptBody)))
  {
    var r := WrapBody(scriptBody);
    if scriptBody == "" {
      StripFixed(r);
    } else if !IsPrefix(TransOpen, Strip(scriptBody)) {
      StripFixed(r);
      assert r[..7] == TransOpen;
    }
  }

  /** `create_script`: the wrapped body in both body fields, the given id, type 400. */
  function CreateScript(scriptId: string, scriptName: string, scriptBody: string, scriptContentId: string): (r: ScriptComponent)
    ensures r.id == scriptId && r.name == scriptName
    ensures r.scriptBody == r.scriptBodyCleansed == WrapBody(scriptBody)
    ensures r.originalContentId.Some? <==> scriptContentId != ""
    ensures r.originalContentId.Some? ==> r.originalContentId.value == scriptContentId
  {
    ScriptComponent(scriptId, scriptName, WrapBody(scriptBody), WrapBody(scriptBody),
                    if scriptContentId != "" then Some(scriptContentId) else None)
  }

  /** A body that is already wrapped is not wrapped a second time. */
  lemma WrapBodyIdempotent(scriptBody: string)
    ensures WrapBody(WrapBody(scriptBody)) == WrapBody(scriptBody)
  {
    WrapBodyStartsWithTrans(scriptBody);
  }

  /** No `<trans>` opens before position `p`: the one at `p` is the first. */
  predicate NoTransOpenBefore(text: string, p: nat) {
    forall p' :: 0 <= p' < p ==> !OccursAt(TransOpen, text, p')
  }

  /**
   * `re.search(r'<trans>(.*?)</trans>', text, re.DOTALL)`: the text between
   * the first `<trans>` and the nearest `</trans>` after it.
   */
  function TransContent(text: string): (r: Option<string>)
    ensures r.Some? ==> exists p :: OccursAt(TransOpen + r.value + TransClose, text, p) && NoTransOpenBefore(text, p)
    ensures r.Some? ==> !Contains(r.value, TransClose)
    ensures r.None? ==> forall p, q :: OccursAt(TransOpen, text, p) && p + 7 <= q ==> !OccursAt(TransClose, text, q)
  {
    match Find(text, TransOpen)
    case None => None
    case Some(p) =>
      match FindFrom(text, TransClose, p + 7)
      case None =>
        forall p', q | OccursAt(TransOpen, text, p') && p' + 7 <= q
          ensures !OccursAt(TransClose, text, q)
        {
          assert p <= p';
        }
        None
      case Some(q) =>
        TransFound(text, p, q);
        Some(text[p + 7..q])
  }

  /** An opening tag at `p` and the first closing tag after it at `q` enclose a tag-free content. */
  lemma TransFound(text: string, p: nat, q: nat)
    requires OccursAt(TransOpen, text, p) && p + 7 <= q && OccursAt(TransClose, text, q)
    requires forall j :: p + 7 <= j < q ==> !OccursAt(TransClose, text, j)
    ensures OccursAt(TransOpen + text[p + 7..q] + TransClose, text, p)
    ensures !Contains(text[p + 7..q], TransClose)
  {
    var c := text[p + 7..q];
    NotContainedBefore(text, TransClose, p + 7, q);
    assert text[p..q + 8] == text[p..p + 7] + c + text[q..q + 8];
  }

  /** A substring ending before the first occurrence after `start` does not contain the pattern. */
  lemma NotContainedBefore(text: string, pat: string, start: nat, q: nat)
    requires start <= q <= |text|
    requires forall j :: start <= j < q ==> !OccursAt(pat, text, j)
    requires |pat| > 0
    ensures !Contains(text[start..q], pat)
  {
    var c := text[start..q];
    forall j | 0 <= j ensures !OccursAt(pat, c, j) {
      if j + |pat| <= |c| {
        var u, v := c[j..j + |pat|], text[start + j..start + j + |pat|];
        forall k | 0 <= k < |pat| ensures u[k] == v[k] {
          assert u[k] == c[j + k] == text[start + j + k] == v[k];
        }
        assert u == v;
        assert !OccursAt(pat, text, start + j);
      }
    }
  }

  /** `extract_script_body_from_xml`. */
  function ExtractScriptBodyFromXml(scriptText: string): (r: string)
    ensures scriptText == "" ==> r == ""
    ensures scriptText != "" && TransContent(scriptText).Some? ==> r == Strip(TransContent(scriptText).value)
    ensures scriptText != "" && TransContent(scriptText).None? ==> r == Strip(scriptText)
  {
    if scriptText == "" then ""
    else match TransContent(scriptText)
      case Some(c) => Strip(c)
      case None => Strip(scriptText)
  }

  /** A body free of both tags, wrapped in them, is extracted as its stripped self. */
  lemma ExtractWrapped(body: string)
    requires !Contains(body, TransOpen) && !Contains(body, TransClose)
    ensures ExtractScriptBodyFromXml("<trans>" + body + "</trans>") == Strip(body)
  {
    TransContentWrapped(body);
  }

  lemma TransContentWrapped(body: string)
    requires !Contains(body, TransClose)
    ensures TransContent("<trans>" + body + "</trans>") == Some(body)
  {
    var t := "<trans>" + body + "</trans>";
    var e := 7 + |body|;
    assert t[0..7] == TransOpen;
    assert Find(t, TransOpen) == Some(0);
    assert t[e..e + 8] == TransClose;
    assert OccursAt(TransClose, t, e);
    NoCloseInside(body);
    assert FindFrom(t, TransClose, 7) == Some(e);
    assert t[7..e] == body;
  }

  /** No `</trans>` starts inside the body of a wrapped text free of it. */
  lemma NoCloseInside(body: string)
    requires !Contains(body, TransClose)
    ensures forall j :: 7 <= j < 7 + |body| ==> !OccursAt(TransClose, "<trans>" + body + "</trans>", j)
  {
    var t := "<trans>" + body + "</trans>";
    var e := 7 + |body|;
    forall j | 7 <= j < e ensures !OccursAt(TransClose, t, j) {
      if j + 8 <= e {
        assert !OccursAt(TransClose, body, j - 7);
        assert t[j..j + 8] == body[j - 7..j + 1];
      } else {
        // the candidate would run into the closing tag, whose `<` no later
        // character of `</trans>` matches
        var k := e - j;
        assert t[j..j + 8][k] == t[e] == '<';
        assert TransClose[k] != '<';
      }
    }
  }

  // ---------------------------------------------------------------------
  // Reference rewriting
  // ---------------------------------------------------------------------

  /** The characters of `[a-f0-9-]`. */
  predicate IsUuidChar(c: char) { 'a' <= c <= 'f' || '0' <= c <= '9' || c == '-' }

  /** The length of the run of `IsUuidChar` characters starting at `i`. */
  function UuidRun(s: string, i: nat): (n: nat)
    requires i <= |s|
    ensures i + n <= |s|
    decreases |s| - i
  {
    if i < |s| && IsUuidChar(s[i]) then 1 + UuidRun(s, i + 1) else 0
  }

  /** The length of the run of whitespace starting at `i`. */
  function WsRun(s: string, i: nat): (n: nat)
    requires i <= |s|
    ensures i + n <= |s|
    decreases |s| - i
  {
    if i < |s| && IsSpace(s[i]) then 1 + WsRun(s, i + 1) else 0
  }

  /** The position after `\s*` from `i`. */
  function SkipWs(s: string, i: nat): (j: nat)
    requires i <= |s|
    ensures i <= j <= |s|
  {
    i + WsRun(s, i)
  }

  /**
   * A match of `<fn>\s*\(\s*"<pfx>\.([a-f0-9-]+)"\s*\)` at the very start
   * of `s`: the length of the match and the captured id. Every run in the
   * pattern is followed by a character the run cannot consume, so the greedy
   * run is the only way to match and no backtracking is needed.
   */
  function MatchCall(s: string, fn: string, pfx: string): (r: Option<(nat, string)>)
    requires |fn| > 0
    ensures r.Some? ==> 0 < r.value.0 <= |s|
  {
    if !OccursAt(fn, s, 0) then None
    else
      var a := SkipWs(s, |fn|);
      if !(a < |s| && s[a] == '(') then None
      else
        var b := SkipWs(s, a + 1);
        if !(b < |s| && s[b] == '"' && OccursAt(pfx, s, b + 1) && b + 1 + |pfx| < |s| && s[b + 1 + |pfx|] == '.') then None
        else
          var c := b + 2 + |pfx|;
          var n := UuidRun(s, c);
          if n == 0 || !(c + n < |s| && s[c + n] == '"') then None
          else
            var d := SkipWs(s, c + n + 1);
            if !(d < |s| && s[d] == ')') then None
            else Some((d + 1, s[c..c + n]))
  }

  /** `RunOperation("<TAG>operation:<name></TAG>")` and its script counterpart. */
  function TagCall(fn: string, kind: string, name: string): string {
    fn + "(\"<TAG>" + kind + ":" + name + "</TAG>\")"
  }

  /** `pattern.sub(replace, s)`: left to right over non-overlapping matches. */
  function RewriteCalls(s: string, fn: string, pfx: string, kind: string, names: map<string, string>): string
    requires |fn| > 0
    decreases |s|
  {
    if |s| == 0 then ""
    else match MatchCall(s, fn, pfx)
      case Some((len, id)) =>
        (if id in names && names[id] != "" then TagCall(fn, kind, names[id]) else s[..len])
        + RewriteCalls(s[len..], fn, pfx, kind, names)
      case None => [s[0]] + RewriteCalls(s[1..], fn, pfx, kind, names)
  }

  /** A call site with a given id, written without spaces. */
  function CallText(fn: string, pfx: string, id: string): string {
    fn + "(\"" + pfx + "." + id + "\")"
  }

  /** A call written without spaces is matched as a whole, capturing its id. */
  lemma MatchCallText(fn: string, pfx: string, id: string, rest: string)
    requires |fn| > 0
    requires |id| > 0 && forall i :: 0 <= i < |id| ==> IsUuidChar(id[i])
    ensures MatchCall(CallText(fn, pfx, id) + rest, fn, pfx) == Some((|CallText(fn, pfx, id)|, id))
  {
    CallTextLayout(fn, pfx, id, rest);
    MatchCallAt(CallText(fn, pfx, id) + rest, fn, pfx, id);
  }

  /** Where the pieces of a call written without spaces sit. */
  lemma CallTextLayout(fn: string, pfx: string, id: string, rest: string)
    ensures |CallText(fn, pfx, id)| == |fn| + |pfx| + |id| + 5
    ensures var s := CallText(fn, pfx, id) + rest;
      |s| >= |fn| + |pfx| + |id| + 5
      && OccursAt(fn, s, 0) && s[|fn|] == '(' && s[|fn| + 1] == '"'
      && OccursAt(pfx, s, |fn| + 2) && s[|fn| + |pfx| + 2] == '.'
      && s[|fn| + |pfx| + 3..|fn| + |pfx| + |id| + 3] == id
      && s[|fn| + |pfx| + |id| + 3] == '"' && s[|fn| + |pfx| + |id| + 4] == ')'
  {
    var s := CallText(fn, pfx, id) + rest;
    var a := |fn|; var c := a + 3 + |pfx|;
    assert s[..a] == fn;
    assert s[a + 2..a + 2 + |pfx|] == pfx;
    assert s[c..c + |id|] == id;
  }

  lemma UuidRunOf(s: string, i: nat, id: string)
    requires i + |id| < |s| && s[i..i + |id|] == id && s[i + |id|] == '"'
    requires forall k :: 0 <= k < |id| ==> IsUuidChar(id[k])
    ensures UuidRun(s, i) == |id|
    decreases |id|
  {
    if |id| > 0 {
      assert s[i] == id[0];
      UuidRunOf(s, i + 1, id[1..]);
    }
  }

  /** The match of a call laid out without spaces, position by position. */
  lemma MatchCallAt(s: string, fn: string, pfx: string, id: string)
    requires |fn| > 0
    requires |id| > 0 && forall i :: 0 <= i < |id| ==> IsUuidChar(id[i])
    requires |s| >= |fn| + |pfx| + |id| + 5
    requires OccursAt(fn, s, 0) && s[|fn|] == '(' && s[|fn| + 1] == '"'
    requires OccursAt(pfx, s, |fn| + 2) && s[|fn| + |pfx| + 2] == '.'
    requires s[|fn| + |pfx| + 3..|fn| + |pfx| + |id| + 3] == id
    requires s[|fn| + |pfx| + |id| + 3] == '"' && s[|fn| + |pfx| + |id| + 4] == ')'
    ensures MatchCall(s, fn, pfx) == Some((|fn| + |pfx| + |id| + 5, id))
  {
    var a := |fn|;
    var c := |fn| + |pfx| + 3;
    var n := |id|;
    assert WsRun(s, a) == 0;
    assert WsRun(s, a + 1) == 0;
    UuidRunOf(s, c, id);
    assert WsRun(s, c + n + 1) == 0;
  }
  /**
   * A call whose id is mapped to a non-empty name becomes the TAG form, an
   * unmapped one is kept verbatim, and the text after it is processed on its own.
   */
  lemma RewriteCallText(fn: string, pfx: string, kind: string, id: string, rest: string, names: map<string, string>)
    requires |fn| > 0
    requires |id| > 0 && forall i :: 0 <= i < |id| ==> IsUuidChar(id[i])
    ensures RewriteCalls(CallText(fn, pfx, id) + rest, fn, pfx, kind, names)
      == (if id in names && names[id] != "" then TagCall(fn, kind, names[id]) else CallText(fn, pfx, id))
         + RewriteCalls(rest, fn, pfx, kind, names)
  {
    var s := CallText(fn, pfx, id) + rest;
    MatchCallText(fn, pfx, id, rest);
    assert s[..|CallText(fn, pfx, id)|] == CallText(fn, pfx, id);
    assert s[|CallText(fn, pfx, id)|..] == rest;
  }

  /** With no names at all, rewriting leaves every text unchanged. */
  lemma {:induction false} RewriteUnmappedIdentity(s: string, fn: string, pfx: string, kind: string)
    requires |fn| > 0
    ensures RewriteCalls(s, fn, pfx, kind, map[]) == s
    decreases |s|
  {
    if |s| > 0 {
      var m := MatchCall(s, fn, pfx);
      if m.Some? {
        var len := m.value.0;
        assert RewriteCalls(s, fn, pfx, kind, map[]) == s[..len] + RewriteCalls(s[len..], fn, pfx, kind, map[]);
        RewriteUnmappedIdentity(s[len..], fn, pfx, kind);
        TakeDrop(s, len);
      } else {
        assert RewriteCalls(s, fn, pfx, kind, map[]) == [s[0]] + RewriteCalls(s[1..], fn, pfx, kind, map[]);
        RewriteUnmappedIdentity(s[1..], fn, pfx, kind);
        assert [s[0]] == s[..1];
        TakeDrop(s, 1);
      }
    }
  }

  /** Text in which no call matches anywhere is unchanged. */
  lemma {:induction false} RewriteNoMatch(s: string, fn: string, pfx: string, kind: string, names: map<string, string>)
    requires |fn| > 0
    requires forall i :: 0 <= i < |s| ==> MatchCall(s[i..], fn, pfx).None?
    ensures RewriteCalls(s, fn, pfx, kind, names) == s
    decreases |s|
  {
    if |s| > 0 {
      assert s[0..] == s;
      forall i | 0 <= i < |s[1..]| ensures MatchCall(s[1..][i..], fn, pfx).None? {
        assert s[1..][i..] == s[i + 1..];
      }
      RewriteNoMatch(s[1..], fn, pfx, kind, names);
      assert [s[0]] + s[1..] == s;
    }
  }

  /** The reference maps: operation and script id to name. */
  datatype ReferenceMaps = ReferenceMaps(operations: map<string, string>, scripts: map<string, string>)

  /** `transform_script_references`: operations first, then scripts. */
  function TransformScriptReferences(scriptBody: string, refs: ReferenceMaps): string {
    if scriptBody == "" then scriptBody
    else
      var afterOps := RewriteCalls(scriptBody, "RunOperation", "op", "operation", refs.operations);
      RewriteCalls(afterOps, "RunScript", "sc", "script", refs.scripts)
  }

  /** Empty reference maps change nothing. */
  lemma TransformWithoutNames(scriptBody: string)
    ensures TransformScriptReferences(scriptBody, ReferenceMaps(map[], map[])) == scriptBody
  {
    if scriptBody != "" {
      RewriteUnmappedIdentity(scriptBody, "RunOperation", "op", "operation");
      RewriteUnmappedIdentity(scriptBody, "RunScript", "sc", "script");
    }
  }

  /** A script body is rewritten only when it holds one of the two call openings. */
  predicate NeedsTransform(body: string) {
    body != "" && (Contains(body, "RunOperation(\"op.") || Contains(body, "RunScript(\"sc."))
  }

  /** The effect of `transform_all_scripts` on one script. */
  function TransformOne(script: ScriptComponent, refs: ReferenceMaps): (r: ScriptComponent)
    ensures !NeedsTransform(script.scriptBody) ==> r == script
    ensures NeedsTransform(script.scriptBody) ==> r.scriptBody == r.scriptBodyCleansed
    ensures NeedsTransform(script.scriptBody) ==>
      var t := TransformScriptReferences(script.scriptBody, refs);
      r == script.(scriptBody := t, scriptBodyCleansed := t)
    ensures r.id == script.id && r.name == script.name && r.originalContentId == script.originalContentId
  {
    if NeedsTransform(script.scriptBody) then
      var t := TransformScriptReferences(script.scriptBody, refs);
      script.(scriptBody := t, scriptBodyCleansed := t)
    else script
  }

  /**
   * With empty reference maps a script keeps its body; only the cleansed
   * copy is brought in line with it when the body holds a call opening.
   */
  lemma TransformOneWithoutNames(script: ScriptComponent)
    ensures var r := TransformOne(script, ReferenceMaps(map[], map[]));
      r.scriptBody == script.scriptBody
      && (NeedsTransform(script.scriptBody) ==> r == script.(scriptBodyCleansed := script.scriptBody))
  {
    TransformWithoutNames(script.scriptBody);
  }

  /** The scripts after `transform_all_scripts`: each one through `TransformOne`, in order. */
  function TransformAll(scripts: seq<ScriptComponent>, refs: ReferenceMaps): (r: seq<ScriptComponent>)
    ensures |r| == |scripts|
  {
    if |scripts| == 0 then []
    else TransformAll(scripts[..|scripts| - 1], refs) + [TransformOne(scripts[|scripts| - 1], refs)]
  }

  /** `TransformAll` treats every script on its own. */
  lemma {:induction false} TransformAllPointwise(scripts: seq<ScriptComponent>, refs: ReferenceMaps)
    ensures forall k :: 0 <= k < |scripts| ==> TransformAll(scripts, refs)[k] == TransformOne(scripts[k], refs)
  {
    if |scripts| > 0 {
      var init := scripts[..|scripts| - 1];
      TransformAllPointwise(init, refs);
      var all := TransformAll(scripts, refs);
      assert all == TransformAll(init, refs) + [TransformOne(scripts[|scripts| - 1], refs)];
      forall k | 0 <= k < |scripts|
        ensures all[k] == TransformOne(scripts[k], refs)
      {
        if k < |init| {
          assert scripts[k] == init[k];
        }
      }
    }
  }

  /** How many of the scripts `transform_all_scripts` rewrites. */
  function CountNeedingTransform(scripts: seq<ScriptComponent>): (n: nat)
    ensures n <= |scripts|
  {
    if |scripts| == 0 then 0
    else CountNeedingTransform(scripts[..|scripts| - 1])
         + (if NeedsTransform(scripts[|scripts| - 1].scriptBody) then 1 else 0)
  }

  /** One more script processed: the prefix results grow by that script's result. */
  lemma TransformAllStep(scripts: seq<ScriptComponent>, i: nat, refs: ReferenceMaps)
    requires i < |scripts|
    ensures TransformAll(scripts[..i + 1], refs) == TransformAll(scripts[..i], refs) + [TransformOne(scripts[i], refs)]
    ensures CountNeedingTransform(scripts[..i + 1])
      == CountNeedingTransform(scripts[..i]) + (if NeedsTransform(scripts[i].scriptBody) then 1 else 0)
  {
    assert scripts[..i + 1][..i] == scripts[..i];
  }

  /** Rewriting position `i` moves the boundary between rewritten and untouched scripts one step on. */
  lemma TransformAllAdvance(before: seq<ScriptComponent>, i: nat, refs: ReferenceMaps, current: seq<ScriptComponent>, next: seq<ScriptComponent>)
    requires i < |before| == |current|
    requires current[..i] == TransformAll(before[..i], refs) && current[i..] == before[i..]
    requires next == current[i := TransformOne(before[i], refs)]
    ensures next[..i + 1] == TransformAll(before[..i + 1], refs) && next[i + 1..] == before[i + 1..]
  {
    TransformAllStep(before, i, refs);
    assert next[..i + 1] == current[..i] + [TransformOne(before[i], refs)];
    assert forall j :: i + 1 <= j < |before| ==> current[j] == current[i..][j - i] == before[i..][j - i];
  }

  /**
   * `transform_all_scripts`: rewrites the bodies of the listed scripts in
   * place and returns how many were rewritten.
   */
  method TransformAllScripts(scripts: array<ScriptComponent>, refs: ReferenceMaps) returns (count: nat)
    modifies scripts
    ensures scripts[..] == TransformAll(old(scripts[..]), refs)
    ensures count == CountNeedingTransform(old(scripts[..]))
  {
    ghost var before := scripts[..];
    count := 0;
    var i := 0;
    while i < scripts.Length
      invariant 0 <= i <= scripts.Length
      invariant scripts[..i] == TransformAll(before[..i], refs)
      invariant scripts[i..] == before[i..]
      invariant count == CountNeedingTransform(before[..i])
    {
      ghost var current := scripts[..];
      var script := scripts[i];
      assert script == before[i] by { assert scripts[i..][0] == scripts[i]; }
      var body := script.scriptBody;
      if NeedsTransform(body) {
        var transformed := TransformScriptReferences(body, refs);
        var updated := script.(scriptBody := transformed, scriptBodyCleansed := transformed);
        scripts[i] := updated;
        count := count + 1;
      }
      assert scripts[..] == current[i := TransformOne(before[i], refs)];
      TransformAllStep(before, i, refs);
      TransformAllAdvance(before, i, refs, current, scripts[..]);
      i := i + 1;
    }
    assert before[..i] == before;
    assert scripts[..i] == scripts[..];
  }
}
