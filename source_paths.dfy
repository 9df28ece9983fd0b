/**
 * Source paths of a mapping: the schema field a mapping expression reads
 * (`_extract_source_paths`) and the `jbroot$...` references of a response
 * script (`_extract_srcpaths_from_script`). Each is specified by a function
 * and computed by a method with the source's loops.
 */
module SourcePaths {
  import opened Wrappers
  import opened Strings
  import TransformationRules

  // ---------------------------------------------------------------------
  // Expressions
  // ---------------------------------------------------------------------

  /** The lines of an expression that carry code: stripped, non-empty and not `//` comments. */
  function CodeLines(lines: seq<string>): (r: seq<string>)
    ensures |r| <= |lines|
    ensures forall i :: 0 <= i < |r| ==> r[i] != "" && !IsPrefix("//", r[i])
  {
    if |lines| == 0 then []
    else
      var prev := CodeLines(lines[..|lines| - 1]);
      var t := Strip(lines[|lines| - 1]);
      if t != "" && !IsPrefix("//", t) then prev + [t] else prev
  }

  /** The number of leading ASCII digits. */
  function DigitRun(s: string): (n: nat)
    ensures n <= |s|
  {
    if |s| > 0 && IsAsciiDigit(s[0]) then 1 + DigitRun(s[1..]) else 0
  }

  predicate AllDigits(s: string) {
    forall i :: 0 <= i < |s| ==> IsAsciiDigit(s[i])
  }

  /** `^-?\d+\.?\d*$`: an optional minus, digits, and an optional decimal part. */
  predicate IsNumericLiteral(s: string) {
    var t := if IsPrefix("-", s) then s[1..] else s;
    var n := DigitRun(t);
    n > 0 && (n == |t| || (t[n] == '.' && AllDigits(t[n + 1..])))
  }

  /** `^[a-z][a-zA-Z0-9_]*;?$`: a local variable, optionally followed by `;`. */
  predicate IsLocalVariable(s: string) {
    var body := if IsSuffix(";", s) then s[..|s| - 1] else s;
    |body| > 0 && 'a' <= body[0] <= 'z' && forall i :: 1 <= i < |body| ==> IsWordChar(body[i])
  }

  /** A last code line that makes the whole expression a constant, not a field read. */
  predicate IsConstantLine(line: string) {
    var l := Lower(line);
    l == "true" || l == "false" || l == "null" || IsNumericLiteral(l) || IsLocalVariable(l)
  }

  /** The length of the leading run of non-whitespace characters. */
  function WordRun(s: string): (n: nat)
    ensures n <= |s|
  {
    if |s| > 0 && !IsSpace(s[0]) then 1 + WordRun(s[1..]) else 0
  }

  /** Python `s.split()`: the maximal runs of non-whitespace characters. */
  function Words(s: string): (r: seq<string>)
    ensures forall i :: 0 <= i < |r| ==> r[i] != ""
    decreases |s|
  {
    if |s| == 0 then []
    else if IsSpace(s[0]) then Words(s[1..])
    else
      var n := WordRun(s);
      [s[..n]] + Words(s[n..])
  }

  /** The non-empty strings of `parts`, in order. */
  function NonEmpty(parts: seq<string>): (r: seq<string>)
    ensures |r| <= |parts|
    ensures forall i :: 0 <= i < |r| ==> r[i] != ""
    ensures forall i :: 0 <= i < |r| ==> exists j :: 0 <= j < |parts| && r[i] == parts[j]
    ensures forall j :: 0 <= j < |parts| && parts[j] != "" ==> parts[j] in r
  {
    if |parts| == 0 then []
    else
      var rest := NonEmpty(parts[1..]);
      assert forall i :: 0 <= i < |rest| ==> exists j :: 0 <= j < |parts| && rest[i] == parts[j] by {
        forall i | 0 <= i < |rest| ensures exists j :: 0 <= j < |parts| && rest[i] == parts[j] {
          var j :| 0 <= j < |parts[1..]| && rest[i] == parts[1..][j];
          assert rest[i] == parts[j + 1];
        }
      }
      assert forall j :: 1 <= j < |parts| ==> parts[j] == parts[1..][j - 1];
      if parts[0] != "" then [parts[0]] + rest else rest
  }

  /** Dropping the empty strings of a concatenation drops them from each part: the kept strings stay in order. */
  lemma {:induction false} NonEmptyAppend(a: seq<string>, b: seq<string>)
    ensures NonEmpty(a + b) == NonEmpty(a) + NonEmpty(b)
    decreases |a|
  {
    if |a| == 0 {
      assert a + b == b;
    } else {
      assert (a + b)[1..] == a[1..] + b;
      NonEmptyAppend(a[1..], b);
    }
  }

  /** `re.split(r'[\$\.#]', s)` with the empty pieces dropped. */
  function PathSegments(s: string): seq<string> {
    NonEmpty(Split(ReplaceChar(ReplaceChar(s, '$', '.'), '#', '.'), '.'))
  }

  /** The segments of a source reference carry none of the separators `$`, `.`, `#`. */
  lemma PathSegmentsFree(s: string)
    ensures forall i :: 0 <= i < |PathSegments(s)| ==>
      PathSegments(s)[i] != "" && '$' !in PathSegments(s)[i] && '.' !in PathSegments(s)[i] && '#' !in PathSegments(s)[i]
  {
    var t := ReplaceChar(ReplaceChar(s, '$', '.'), '#', '.');
    var parts := Split(t, '.');
    assert '$' !in t && '#' !in t;
    SplitChars(t, '.', '$');
    SplitChars(t, '.', '#');
  }

  /** The number of leading segments whose lower-case form is in `prefixes`. */
  function NavPrefixLength(segs: seq<string>, prefixes: seq<string>): (n: nat)
    ensures n <= |segs|
  {
    if |segs| == 0 || Lower(segs[0]) !in prefixes then 0
    else 1 + NavPrefixLength(segs[1..], prefixes)
  }

  /** A lone segment like `NetSuite_Subsidiary_Id` is read as a variable name. */
  predicate LooksLikeVariableName(seg: string) {
    |seg| > 0 && IsUpper(seg[0]) && '_' in seg && forall i :: 0 <= i < |seg| ==> IsWordChar(seg[i])
  }

  /** The segments that are not all digits, in order. */
  function DropDigitSegments(segs: seq<string>): (r: seq<string>)
    ensures |r| <= |segs|
    ensures forall i :: 0 <= i < |r| ==> !IsDigits(r[i])
    ensures forall i :: 0 <= i < |r| ==> r[i] in segs
    ensures forall i :: 0 <= i < |segs| && !IsDigits(segs[i]) ==> segs[i] in r
  {
    if |segs| == 0 then []
    else
      var prev := DropDigitSegments(segs[..|segs| - 1]);
      var last := segs[|segs| - 1];
      assert forall i :: 0 <= i < |segs| - 1 ==> segs[i] == segs[..|segs| - 1][i];
      if IsDigits(last) then prev else prev + [last]
  }

  /** `expression.strip().strip('[]').strip()`. */
  function CleanExpression(expression: string): string {
    Strip(StripSet(Strip(expression), {'[', ']'}))
  }

  /** A `$Name$` reference with no separator inside, such as `$a.b$`-free `$X$`. */
  predicate IsDollarWrapped(part: string) {
    IsPrefix("$", part) && IsSuffix("$", part) && (|part| < 2 || '$' !in part[1..|part| - 1])
  }

  /**
   * The schema segments an expression reads, before digit segments are
   * dropped, or `None` when the expression reads no source field.
   */
  function SchemaSegments(expression: string): Option<seq<string>> {
    if expression == "" then None
    else
      var expr := CleanExpression(expression);
      if TransformationRules.IsVariableReference(expr) then None
      else if IsPrefix("\"", expr) && IsSuffix("\"", expr) then None
      else
        var lines := CodeLines(Split(expr, '\n'));
        if |lines| > 0 && IsConstantLine(lines[|lines| - 1]) then None
        else if IsPrefix("//", Strip(expr)) then None
        else
          var parts := Words(expr);
          if |parts| == 0 then None
          else
            var sourcePart := parts[|parts| - 1];
            if TransformationRules.IsVariableReference(sourcePart) || IsDollarWrapped(sourcePart) then None
            else
              var segs := PathSegments(RStrip(sourcePart, {'.', '$'}));
              if |segs| == 0 then None
              else
                var prefixes := if Lower(segs[0]) == "root"
                  then TransformationRules.NavigationPrefixes + TransformationRules.CollectionRoots
                  else TransformationRules.NavigationPrefixes;
                var schema := segs[NavPrefixLength(segs, prefixes)..];
                if |schema| == 0 then None
                else if |schema| == 1 && LooksLikeVariableName(schema[0]) then None
                else Some(schema)
  }

  /**
   * `_extract_source_paths`: at most one path, the schema segments without
   * digit segments joined by `/`; nothing for variable references, quoted
   * literals, constant last lines and comments.
   */
  function SourcePathsOf(expression: string): (r: seq<string>)
    ensures |r| <= 1
    ensures |r| == 1 ==> r[0] != "" && SchemaSegments(expression).Some?
    ensures TransformationRules.IsVariableReference(CleanExpression(expression)) ==> r == []
    ensures IsPrefix("\"", CleanExpression(expression)) && IsSuffix("\"", CleanExpression(expression)) ==> r == []
    ensures var ls := CodeLines(Split(CleanExpression(expression), '\n'));
      |ls| > 0 && IsConstantLine(ls[|ls| - 1]) ==> r == []
    ensures IsPrefix("//", Strip(CleanExpression(expression))) ==> r == []
    ensures expression == "" ==> r == []
  {
    match SchemaSegments(expression)
    case None => []
    case Some(segs) =>
      var p := Join(DropDigitSegments(segs), '/');
      if p == "" then [] else [p]
  }

  /** Schema segments are non-empty and free of `$`, `.` and `#`. */
  lemma SchemaSegmentsFree(expression: string)
    ensures SchemaSegments(expression).Some? ==>
      var segs := SchemaSegments(expression).value;
      |segs| > 0 && forall i :: 0 <= i < |segs| ==> segs[i] != "" && '$' !in segs[i] && '.' !in segs[i] && '#' !in segs[i]
  {
    if SchemaSegments(expression).Some? {
      var expr := CleanExpression(expression);
      var parts := Words(expr);
      var sourcePart := parts[|parts| - 1];
      PathSegmentsFree(RStrip(sourcePart, {'.', '$'}));
    }
  }

  /**
   * The path returned is the join of the expression's non-digit schema
   * segments, so it holds no digit segment and no `$`, `.` or `#`.
   */
  lemma SourcePathShape(expression: string)
    ensures var r := SourcePathsOf(expression);
      |r| == 1 ==>
        var kept := DropDigitSegments(SchemaSegments(expression).value);
        r[0] == Join(kept, '/')
        && (forall i :: 0 <= i < |kept| ==> kept[i] != "" && !IsDigits(kept[i]))
        && '$' !in r[0] && '.' !in r[0] && '#' !in r[0]
  {
    if |SourcePathsOf(expression)| == 1 {
      SchemaSegmentsFree(expression);
      KeptSegmentsShape(SchemaSegments(expression).value);
    }
  }

  /** The non-digit segments of free schema segments are non-empty, and their join has no `$`, `.` or `#`. */
  lemma KeptSegmentsShape(segs: seq<string>)
    requires forall i :: 0 <= i < |segs| ==> segs[i] != "" && '$' !in segs[i] && '.' !in segs[i] && '#' !in segs[i]
    ensures var kept := DropDigitSegments(segs);
      (forall i :: 0 <= i < |kept| ==> kept[i] != "" && !IsDigits(kept[i]))
      && '$' !in Join(kept, '/') && '.' !in Join(kept, '/') && '#' !in Join(kept, '/')
  {
    var kept := DropDigitSegments(segs);
    forall i | 0 <= i < |kept| ensures kept[i] != "" {
      var k :| 0 <= k < |segs| && segs[k] == kept[i];
    }
    forall c | c in "$.#" ensures c !in Join(kept, '/') {
      if c in Join(kept, '/') {
        JoinChars(kept, '/', c);
      }
    }
  }

  /** The `for` loop that finds where the schema part of the segments starts. */
  method SchemaStart(segs: seq<string>, prefixes: seq<string>) returns (start: nat)
    ensures start == NavPrefixLength(segs, prefixes)
  {
    start := 0;
    while start < |segs| && Lower(segs[start]) in prefixes
      invariant start <= |segs|
      invariant NavPrefixLength(segs, prefixes) == start + NavPrefixLength(segs[start..], prefixes)
    {
      assert segs[start..][1..] == segs[start + 1..];
      start := start + 1;
    }
  }

  /** The loop that drops digit segments. */
  method FilterDigitSegments(segs: seq<string>) returns (kept: seq<string>)
    ensures kept == DropDigitSegments(segs)
  {
    kept := [];
    var i := 0;
    while i < |segs|
      invariant i <= |segs|
      invariant kept == DropDigitSegments(segs[..i])
    {
      if !IsDigits(segs[i]) {
        kept := kept + [segs[i]];
      }
      assert segs[..i + 1][..i] == segs[..i];
      i := i + 1;
    }
    assert segs[..i] == segs;
  }

  /** `_extract_source_paths`, with its loops. */
  method ExtractSourcePaths(expression: string) returns (paths: seq<string>)
    ensures paths == SourcePathsOf(expression)
  {
    var schema := SchemaSegments(expression);
    if schema.None? {
      return [];
    }
    var segs := PathSegments(RStrip(Words(CleanExpression(expression))[|Words(CleanExpression(expression))| - 1], {'.', '$'}));
    var prefixes := if Lower(segs[0]) == "root"
      then TransformationRules.NavigationPrefixes + TransformationRules.CollectionRoots
      else TransformationRules.NavigationPrefixes;
    var start := SchemaStart(segs, prefixes);
    var kept := FilterDigitSegments(segs[start..]);
    var path := Join(kept, '/');
    paths := if path == "" then [] else [path];
  }

  // ---------------------------------------------------------------------
  // Response scripts
  // ---------------------------------------------------------------------

  const JbrootMarker: string := "jbroot$"

  /** `[^\s\)\;\+\=]`: a character that may continue a `jbroot$` reference. */
  predicate ScriptPathChar(c: char) {
    !IsSpace(c) && c != ')' && c != ';' && c != '+' && c != '='
  }

  /** The length of the run of reference characters starting at `i`. */
  function PathCharRun(s: string, i: nat): (n: nat)
    requires i <= |s|
    ensures i + n <= |s|
    decreases |s| - i
  {
    if i < |s| && ScriptPathChar(s[i]) then 1 + PathCharRun(s, i + 1) else 0
  }

  /** `re.findall(r'jbroot\$[^\s\)\;\+\=]+', s[i:])`, left to right and non-overlapping. */
  function JbrootMatchesFrom(s: string, i: nat): (r: seq<string>)
    requires i <= |s|
    ensures forall k :: 0 <= k < |r| ==> IsPrefix(JbrootMarker, r[k]) && |r[k]| > |JbrootMarker|
    decreases |s| - i
  {
    if i + |JbrootMarker| >= |s| then []
    else if OccursAt(JbrootMarker, s, i) && PathCharRun(s, i + |JbrootMarker|) > 0 then
      var end := i + |JbrootMarker| + PathCharRun(s, i + |JbrootMarker|);
      assert s[i..end][..|JbrootMarker|] == s[i..i + |JbrootMarker|];
      [s[i..end]] + JbrootMatchesFrom(s, end)
    else JbrootMatchesFrom(s, i + 1)
  }

  /** A match with `jbroot$` removed, separators and `#` turned into `/`, trailing `/` stripped. */
  function NormalizeScriptPath(m: string): string {
    var p := ReplaceAll(m, JbrootMarker, "");
    var q := ReplaceChar(ReplaceChar(p, '$', '/'), '.', '/');
    var w := ReplaceChar(ReplaceAll(q, "#/", "/"), '#', '/');
    RStrip(w, {'/'})
  }

  /**
   * The segments kept from a split path: empty ones are dropped, and a digit
   * segment survives only when the numeric-segment rule keeps it, judged on
   * the segment that follows it in the unfiltered split.
   */
  function KeepSegments(segs: seq<string>): (r: seq<string>)
    ensures |r| <= |segs|
    ensures forall i :: 0 <= i < |r| ==> r[i] != ""
  {
    if |segs| == 0 then []
    else
      var next := if |segs| > 1 then Some(segs[1]) else None;
      var keep := segs[0] != "" && TransformationRules.ShouldKeepNumericSegment(segs[0], next);
      (if keep then [segs[0]] else []) + KeepSegments(segs[1..])
  }

  /**
   * A digit segment is kept only where it stands right before a segment that
   * starts with a capital letter; a trailing digit segment is always dropped.
   */
  lemma {:induction false} KeptDigitsPrecedeCapitals(segs: seq<string>)
    ensures forall i :: 0 <= i < |KeepSegments(segs)| && IsDigits(KeepSegments(segs)[i]) ==>
      exists j :: 0 <= j < |segs| - 1 && segs[j] == KeepSegments(segs)[i] && segs[j + 1] != "" && IsUpper(segs[j + 1][0])
  {
    if |segs| > 0 {
      var rest := KeepSegments(segs[1..]);
      KeptDigitsPrecedeCapitals(segs[1..]);
      var r := KeepSegments(segs);
      forall i | 0 <= i < |r| && IsDigits(r[i])
        ensures exists j :: 0 <= j < |segs| - 1 && segs[j] == r[i] && segs[j + 1] != "" && IsUpper(segs[j + 1][0])
      {
        var next := if |segs| > 1 then Some(segs[1]) else None;
        var keep := segs[0] != "" && TransformationRules.ShouldKeepNumericSegment(segs[0], next);
        if keep && i == 0 {
          assert r[0] == segs[0];
          assert segs[1] != "" && IsUpper(segs[1][0]);
        } else {
          var k := if keep then i - 1 else i;
          assert r[i] == rest[k];
          var j :| 0 <= j < |segs[1..]| - 1 && segs[1..][j] == rest[k] && segs[1..][j + 1] != "" && IsUpper(segs[1..][j + 1][0]);
          assert segs[j + 1] == r[i] && segs[j + 2] == segs[1..][j + 1];
        }
      }
    }
  }

  /** The source path of one match, if any of it survives. */
  function ScriptSourcePath(m: string): (r: Option<string>)
    ensures r.Some? ==> IsPrefix("jbroot/", r.value) && |r.value| > 7
  {
    var path := Join(KeepSegments(Split(NormalizeScriptPath(m), '/')), '/');
    if path != "" then Some("jbroot/" + path) else None
  }

  /** The source paths of the matches, one option per match. */
  function MatchPaths(matches: seq<string>): (r: seq<Option<string>>)
    ensures |r| == |matches|
    ensures forall k :: 0 <= k < |matches| ==> r[k] == ScriptSourcePath(matches[k])
  {
    seq(|matches|, k requires 0 <= k < |matches| => ScriptSourcePath(matches[k]))
  }

  /** The distinct present paths, in order of first appearance. */
  function CollectPaths(paths: seq<Option<string>>): seq<string> {
    if |paths| == 0 then []
    else
      var prev := CollectPaths(paths[..|paths| - 1]);
      match paths[|paths| - 1]
      case Some(p) => if p in prev then prev else prev + [p]
      case None => prev
  }

  predicate NoDuplicates(s: seq<string>) {
    forall i, j :: 0 <= i < j < |s| ==> s[i] != s[j]
  }

  /** The collected paths are exactly the present paths. */
  lemma {:induction false} CollectPathsMembers(paths: seq<Option<string>>)
    ensures forall p :: p in CollectPaths(paths) <==> Some(p) in paths
  {
    if |paths| > 0 {
      var init := paths[..|paths| - 1];
      CollectPathsMembers(init);
      assert paths == init + [paths[|paths| - 1]];
    }
  }

  /** Each path is collected once. */
  lemma {:induction false} CollectPathsDistinct(paths: seq<Option<string>>)
    ensures NoDuplicates(CollectPaths(paths))
  {
    if |paths| > 0 {
      CollectPathsDistinct(paths[..|paths| - 1]);
    }
  }

  /**
   * `_extract_srcpaths_from_script`: `[]` for an empty script or one without
   * references, `None` when no reference leaves a path, and otherwise the
   * distinct paths in order.
   */
  function SrcPathsFromScript(scriptContent: string): (r: Option<seq<string>>)
    ensures r.Some? && |r.value| > 0 ==> |JbrootMatchesFrom(scriptContent, 0)| > 0
    ensures r.Some? ==> forall i :: 0 <= i < |r.value| ==> IsPrefix("jbroot/", r.value[i])
  {
    if scriptContent == "" then Some([])
    else
      var matches := JbrootMatchesFrom(scriptContent, 0);
      if |matches| == 0 then Some([])
      else
        var options := MatchPaths(matches);
        var paths := CollectPaths(options);
        CollectPathsMembers(options);
        assert forall i :: 0 <= i < |paths| ==> IsPrefix("jbroot/", paths[i]) by {
          forall i | 0 <= i < |paths| ensures IsPrefix("jbroot/", paths[i]) {
            assert paths[i] in paths;
            var k :| 0 <= k < |options| && options[k] == Some(paths[i]);
          }
        }
        if |paths| == 0 then None else Some(paths)
  }

  lemma KeepSegmentsStep(segs: seq<string>, i: nat)
    requires i < |segs|
    ensures var next := if i + 1 < |segs| then Some(segs[i + 1]) else None;
      KeepSegments(segs[i..]) ==
        (if segs[i] != "" && TransformationRules.ShouldKeepNumericSegment(segs[i], next) then [segs[i]] else [])
        + KeepSegments(segs[i + 1..])
  {
    assert segs[i..][1..] == segs[i + 1..];
  }

  /** The `for` loop over the split path, with the next segment looked up by index. */
  method FilterScriptSegments(segs: seq<string>) returns (kept: seq<string>)
    ensures kept == KeepSegments(segs)
  {
    kept := [];
    var i := 0;
    while i < |segs|
      invariant i <= |segs|
      invariant kept + KeepSegments(segs[i..]) == KeepSegments(segs)
    {
      var seg := segs[i];
      var next := if i + 1 < |segs| then Some(segs[i + 1]) else None;
      KeepSegmentsStep(segs, i);
      if seg != "" && TransformationRules.ShouldKeepNumericSegment(seg, next) {
        kept := kept + [seg];
      }
      i := i + 1;
    }
  }

  /** Collecting one more option adds its path unless it is absent or already collected. */
  lemma CollectPathsNext(options: seq<Option<string>>, i: nat)
    requires i < |options|
    ensures CollectPaths(options[..i + 1]) ==
      if options[i].Some? && options[i].value !in CollectPaths(options[..i])
      then CollectPaths(options[..i]) + [options[i].value]
      else CollectPaths(options[..i])
  {
    assert options[..i + 1][..i] == options[..i];
  }

  /** `_extract_srcpaths_from_script`, with its loops. */
  method ExtractSrcPathsFromScript(scriptContent: string) returns (r: Option<seq<string>>)
    ensures r == SrcPathsFromScript(scriptContent)
  {
    if scriptContent == "" {
      return Some([]);
    }
    var matches := JbrootMatchesFrom(scriptContent, 0);
    if |matches| == 0 {
      return Some([]);
    }
    ghost var options := MatchPaths(matches);
    var srcPaths: seq<string> := [];
    var i := 0;
    while i < |matches|
      invariant i <= |matches|
      invariant srcPaths == CollectPaths(options[..i])
    {
      var kept := FilterScriptSegments(Split(NormalizeScriptPath(matches[i]), '/'));
      var path := Join(kept, '/');
      CollectPathsNext(options, i);
      assert options[i] == if path != "" then Some("jbroot/" + path) else None;
      if path != "" {
        var fullPath := "jbroot/" + path;
        if fullPath !in srcPaths {
          srcPaths := srcPaths + [fullPath];
        }
      }
      i := i + 1;
    }
    assert options[..i] == options;
    r := if |srcPaths| > 0 then Some(srcPaths) else None;
  }
}
