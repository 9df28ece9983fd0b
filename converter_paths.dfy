/**
 * The two path notations of the transformation converter and the
 * conversions between them: JPK mapping paths such as
 * `[Contacts$Contact.FirstName$]` and the slash paths of the JSON format
 * such as `Contacts/Contact/FirstName`; also the parent paths of a slash
 * path, from which precondition rules are generated.
 */
module ConverterPaths {
  import opened Wrappers
  import opened Strings

  const Brackets: set<char> := {'[', ']'}

  /** `s.strip().strip('[]')`. */
  function Unbracket(s: string): string {
    StripSet(Strip(s), Brackets)
  }

  /** The cleaned target of a mapping: `s.strip().strip('[]').strip()`. */
  function CleanTarget(s: string): string {
    Strip(Unbracket(s))
  }

  /** `_is_precondition`: the unbracketed target ends with `.`. */
  predicate IsPrecondition(targetPath: string) {
    IsSuffix(".", Unbracket(targetPath))
  }

  /** `strip()` keeps a last character that is not whitespace. */
  lemma StripKeepsLast(u: string)
    requires |u| > 0 && u[|u| - 1] !in Whitespace
    ensures |Strip(u)| > 0 && Strip(u)[|Strip(u)| - 1] == u[|u| - 1]
  {
    var l := LStrip(u, Whitespace);
    assert |l| > 0;
    assert l == u[|u| - |l|..];
    assert l[|l| - 1] == u[|u| - 1];
    assert RStrip(l, Whitespace) == l;
  }

  /** A precondition target still ends with `.` once cleaned. */
  lemma PreconditionCleanedEndsWithDot(targetPath: string)
    ensures IsPrecondition(targetPath) ==> IsSuffix(".", CleanTarget(targetPath))
  {
    var u := Unbracket(targetPath);
    if IsSuffix(".", u) {
      assert u[|u| - 1] == '.';
      StripKeepsLast(u);
    }
  }

  // ---------------------------------------------------------------------
  // JPK path to slash path
  // ---------------------------------------------------------------------

  /** The length of the run of `/` starting at `i`. */
  function SlashRun(s: string, i: nat): (n: nat)
    requires i <= |s|
    ensures i + n <= |s|
    decreases |s| - i
  {
    if i < |s| && s[i] == '/' then 1 + SlashRun(s, i + 1) else 0
  }

  lemma SlashRunFacts(s: string, i: nat)
    requires i <= |s|
    ensures forall k :: i <= k < i + SlashRun(s, i) ==> s[k] == '/'
    ensures i + SlashRun(s, i) < |s| ==> s[i + SlashRun(s, i)] != '/'
    decreases |s| - i
  {
    if i < |s| && s[i] == '/' {
      SlashRunFacts(s, i + 1);
    }
  }

  /** `re.sub(r'//{3,}', '//', s)`: every run of four or more slashes becomes `//`. */
  function CollapseSlashes(s: string): (r: string)
    ensures forall c :: c in r && c != '/' ==> c in s
    ensures |s| > 0 ==> |r| > 0 && r[0] == s[0]
    decreases |s|
  {
    if |s| == 0 then ""
    else if s[0] != '/' then [s[0]] + CollapseSlashes(s[1..])
    else
      var n := SlashRun(s, 0);
      assert n >= 1;
      (if n >= 4 then "//" else s[..n]) + CollapseSlashes(s[n..])
  }

  /** No four slashes in a row. */
  predicate NoLongSlashRun(r: string) {
    forall i :: 0 <= i && i + 3 < |r| ==> !(r[i] == '/' && r[i + 1] == '/' && r[i + 2] == '/' && r[i + 3] == '/')
  }

  lemma {:induction false} CollapseNoLongRun(s: string)
    ensures NoLongSlashRun(CollapseSlashes(s))
    decreases |s|
  {
    if |s| > 0 {
      if s[0] != '/' {
        CollapseNoLongRun(s[1..]);
        NoLongRunCons(s[0], CollapseSlashes(s[1..]));
      } else {
        var n := SlashRun(s, 0);
        SlashRunFacts(s, 0);
        CollapseNoLongRun(s[n..]);
        var piece := if n >= 4 then "//" else s[..n];
        NoLongRunAfterShortPiece(piece, CollapseSlashes(s[n..]));
      }
    }
  }

  lemma NoLongRunCons(c: char, rest: string)
    requires c != '/' && NoLongSlashRun(rest)
    ensures NoLongSlashRun([c] + rest)
  {
    var r := [c] + rest;
    forall i | 0 < i && i + 3 < |r|
      ensures !(r[i] == '/' && r[i + 1] == '/' && r[i + 2] == '/' && r[i + 3] == '/')
    {
      assert r[i] == rest[i - 1] && r[i + 1] == rest[i] && r[i + 2] == rest[i + 1] && r[i + 3] == rest[i + 2];
    }
  }

  lemma NoLongRunAfterShortPiece(piece: string, rest: string)
    requires |piece| <= 3 && NoLongSlashRun(rest)
    requires |rest| > 0 ==> rest[0] != '/'
    ensures NoLongSlashRun(piece + rest)
  {
    var r := piece + rest;
    forall i | 0 <= i && i + 3 < |r|
      ensures !(r[i] == '/' && r[i + 1] == '/' && r[i + 2] == '/' && r[i + 3] == '/')
    {
      if i >= |piece| {
        var k := i - |piece|;
        assert r[i] == rest[k] && r[i + 1] == rest[k + 1] && r[i + 2] == rest[k + 2] && r[i + 3] == rest[k + 3];
      } else {
        assert r[|piece|] == rest[0];
      }
    }
  }

  /**
   * The slash form of a JPK path before root translation: brackets and
   * surrounding whitespace stripped, trailing `.`/`$` removed, both
   * separators turned into `/`, and runs of four or more slashes collapsed.
   */
  function SlashPath(jpkPath: string): string {
    var p := RStrip(Unbracket(jpkPath), {'.', '$'});
    var q := Slashed(p);
    if Contains(q, "///") then CollapseSlashes(q) else q
  }

  lemma SlashPathShape(jpkPath: string)
    ensures '$' !in SlashPath(jpkPath) && '.' !in SlashPath(jpkPath)
    ensures NoLongSlashRun(SlashPath(jpkPath))
  {
    var p := RStrip(Unbracket(jpkPath), {'.', '$'});
    var q := Slashed(p);
    assert '$' !in q && '.' !in q;
    if Contains(q, "///") {
      CollapseNoLongRun(q);
    } else {
      NoTripleNoLongRun(q);
    }
  }

  lemma NoTripleNoLongRun(q: string)
    requires !Contains(q, "///")
    ensures NoLongSlashRun(q)
  {
    forall i | 0 <= i && i + 3 < |q|
      ensures !(q[i] == '/' && q[i + 1] == '/' && q[i + 2] == '/')
    {
      assert !OccursAt("///", q, i);
      assert q[i..i + 3][0] == q[i] && q[i..i + 3][1] == q[i + 1] && q[i..i + 3][2] == q[i + 2];
    }
  }

  /**
   * `SALESFORCE_ROOT_TRANSLATIONS` applied to the first segment of a slash
   * path: a first segment `Contacts` becomes `records`.
   */
  function TranslateRootSegment(path: string): string {
    var segs := Split(path, '/');
    if segs[0] == "Contacts" then Join(["records"] + segs[1..], '/') else path
  }

  /** Root translation rewrites exactly the paths `Contacts` and `Contacts/...`. */
  lemma TranslateRootPrefix(path: string)
    ensures TranslateRootSegment(path) ==
      if path == "Contacts" || IsPrefix("Contacts/", path) then "records" + path[8..] else path
  {
    var segs := Split(path, '/');
    JoinSplit(path, '/');
    if segs[0] == "Contacts" {
      if |segs| > 1 {
        assert path == segs[0] + "/" + Join(segs[1..], '/');
        assert (["records"] + segs[1..])[1..] == segs[1..];
        assert path[8..] == "/" + Join(segs[1..], '/');
      }
    } else {
      if path == "Contacts" {
        SplitNoSep(path, '/');
      } else if IsPrefix("Contacts/", path) {
        assert path == "Contacts" + "/" + path[9..];
        SplitPrefix("Contacts", path[9..], '/');
      }
    }
  }

  /**
   * `_convert_path_notation`: the slash form, with the root translated
   * unless translation is skipped. The result never holds a JPK separator
   * and never four slashes in a row.
   */
  function ConvertPathNotation(jpkPath: string, skipTranslation: bool): (r: string)
    ensures '$' !in r && '.' !in r
    ensures NoLongSlashRun(r)
  {
    var p := SlashPath(jpkPath);
    SlashPathShape(jpkPath);
    if skipTranslation then p
    else
      TranslateKeepsShape(p);
      TranslateRootSegment(p)
  }

  lemma TranslateKeepsShape(p: string)
    requires '$' !in p && '.' !in p && NoLongSlashRun(p)
    ensures '$' !in TranslateRootSegment(p) && '.' !in TranslateRootSegment(p)
    ensures NoLongSlashRun(TranslateRootSegment(p))
  {
    TranslateRootPrefix(p);
    if p == "Contacts" || IsPrefix("Contacts/", p) {
      var t := "records" + p[8..];
      assert forall k :: 0 <= k < |t| ==> t[k] == if k < 7 then "records"[k] else p[k + 1];
      assert forall k :: 0 <= k < 7 ==> "records"[k] !in {'/', '$', '.'};
      forall i | 0 <= i && i + 3 < |t|
        ensures !(t[i] == '/' && t[i + 1] == '/' && t[i + 2] == '/' && t[i + 3] == '/')
      {
        if i >= 7 {
          assert !(p[i + 1] == '/' && p[i + 2] == '/' && p[i + 3] == '/' && p[i + 4] == '/');
        }
      }
    }
  }

  // ---------------------------------------------------------------------
  // Parent paths
  // ---------------------------------------------------------------------

  /** `_get_parent_paths`: the joins of the first 1, 2, ... k-1 segments. */
  function GetParentPaths(targetPath: string): seq<string> {
    if targetPath == "" then []
    else
      var segs := Split(targetPath, '/');
      seq(|segs| - 1, i requires 0 <= i < |segs| - 1 => Join(segs[..i + 1], '/'))
  }

  /** The `/`-depth of a path. */
  function Depth(path: string): nat {
    CountChar(path, '/')
  }

  /** The i-th parent of a path joins its first i+1 segments. */
  lemma ParentPathAt(targetPath: string, i: nat)
    requires targetPath != "" && i < |Split(targetPath, '/')| - 1
    ensures |GetParentPaths(targetPath)| == |Split(targetPath, '/')| - 1
    ensures GetParentPaths(targetPath)[i] == Join(Split(targetPath, '/')[..i + 1], '/')
  {
  }

  /**
   * A path with k segments has exactly k-1 parents; the i-th has depth i,
   * is followed by `/` in the path, and each parent is a proper prefix of
   * every later one.
   */
  lemma ParentPathsShape(targetPath: string)
    ensures targetPath == "" ==> GetParentPaths(targetPath) == []
    ensures targetPath != "" ==> |GetParentPaths(targetPath)| == Depth(targetPath)
    ensures forall i :: 0 <= i < |GetParentPaths(targetPath)| ==>
      IsPrefix(GetParentPaths(targetPath)[i] + "/", targetPath) && Depth(GetParentPaths(targetPath)[i]) == i
    ensures forall i, j :: 0 <= i < j < |GetParentPaths(targetPath)| ==>
      IsPrefix(GetParentPaths(targetPath)[i] + "/", GetParentPaths(targetPath)[j])
  {
    if targetPath != "" {
      ParentPathsCount(targetPath);
      ParentPathsPrefixPath(targetPath);
      ParentPathsChain(targetPath);
    }
  }

  lemma ParentPathsCount(targetPath: string)
    requires targetPath != ""
    ensures |GetParentPaths(targetPath)| == Depth(targetPath)
  {
    JoinSplit(targetPath, '/');
    CountJoin(Split(targetPath, '/'), '/');
  }

  lemma ParentPathsPrefixPath(targetPath: string)
    requires targetPath != ""
    ensures forall i :: 0 <= i < |GetParentPaths(targetPath)| ==>
      IsPrefix(GetParentPaths(targetPath)[i] + "/", targetPath) && Depth(GetParentPaths(targetPath)[i]) == i
  {
    var segs := Split(targetPath, '/');
    var r := GetParentPaths(targetPath);
    JoinSplit(targetPath, '/');
    forall i | 0 <= i < |r|
      ensures IsPrefix(r[i] + "/", targetPath) && Depth(r[i]) == i
    {
      ParentPathAt(targetPath, i);
      ParentPrefix(segs, i);
    }
  }

  lemma ParentPathsChain(targetPath: string)
    requires targetPath != ""
    ensures forall i, j :: 0 <= i < j < |GetParentPaths(targetPath)| ==>
      IsPrefix(GetParentPaths(targetPath)[i] + "/", GetParentPaths(targetPath)[j])
  {
    var segs := Split(targetPath, '/');
    var r := GetParentPaths(targetPath);
    forall i, j | 0 <= i < j < |r|
      ensures IsPrefix(r[i] + "/", r[j])
    {
      ParentPathAt(targetPath, i);
      ParentPathAt(targetPath, j);
      ParentOfParent(segs, i, j);
    }
  }

  lemma ParentPrefix(segs: seq<string>, i: nat)
    requires i + 1 < |segs|
    requires forall k :: 0 <= k < |segs| ==> '/' !in segs[k]
    ensures IsPrefix(Join(segs[..i + 1], '/') + "/", Join(segs, '/'))
    ensures Depth(Join(segs[..i + 1], '/')) == i
  {
    JoinPrefix(segs, i + 1, '/');
    CountJoin(segs[..i + 1], '/');
  }

  lemma ParentOfParent(segs: seq<string>, i: nat, j: nat)
    requires i < j && j + 1 < |segs|
    ensures IsPrefix(Join(segs[..i + 1], '/') + "/", Join(segs[..j + 1], '/'))
  {
    var longer := segs[..j + 1];
    JoinPrefix(longer, i + 1, '/');
    assert longer[..i + 1] == segs[..i + 1];
  }

  // ---------------------------------------------------------------------
  // Slash path back to JPK notation
  // ---------------------------------------------------------------------

  /** The separator written after segment `i`: `.` after the second, `$` otherwise. */
  function JpkSuffix(i: nat): string {
    if i == 1 then "." else "$"
  }

  /** Every segment followed by its separator. */
  function JpkConcat(segs: seq<string>): string {
    if |segs| == 0 then ""
    else JpkConcat(segs[..|segs| - 1]) + segs[|segs| - 1] + JpkSuffix(|segs| - 1)
  }

  /**
   * `_convert_path_to_jpk_notation`: `a$`, `a$b.`, `a$b.c$`, ...; a loop
   * element of two or more segments ends with `.` instead of `$`.
   */
  function ConvertPathToJpkNotation(targetPath: string, isLoopElement: bool): string {
    if targetPath == "" then ""
    else
      var segs := Split(targetPath, '/');
      if |segs| == 1 then segs[0] + "$"
      else
        var res := JpkConcat(segs);
        if isLoopElement && IsSuffix("$", res) then res[..|res| - 1] + "." else res
  }

  lemma JpkConcatEnds(segs: seq<string>)
    requires |segs| >= 1
    ensures |JpkConcat(segs)| > 0 && JpkConcat(segs)[|JpkConcat(segs)| - 1] == JpkSuffix(|segs| - 1)[0]
  {
  }

  /**
   * A single segment gets `$` whatever the loop flag; a longer path ends
   * with `.` when it is a loop element or has exactly two segments, and
   * with `$` otherwise.
   */
  lemma JpkNotationEnding(targetPath: string, isLoopElement: bool)
    requires targetPath != ""
    ensures '/' !in targetPath ==> ConvertPathToJpkNotation(targetPath, isLoopElement) == targetPath + "$"
    ensures '/' in targetPath ==>
      var r := ConvertPathToJpkNotation(targetPath, isLoopElement);
      |r| > 0 && r[|r| - 1] == (if isLoopElement || Depth(targetPath) == 1 then '.' else '$')
  {
    var segs := Split(targetPath, '/');
    JoinSplit(targetPath, '/');
    CountJoin(segs, '/');
    if '/' !in targetPath {
      SplitNoSep(targetPath, '/');
    } else {
      assert |segs| != 1;
      JpkConcatEnds(segs);
    }
  }

  /** Both JPK separators turned into `/`. */
  function Slashed(s: string): string {
    ReplaceChar(ReplaceChar(s, '$', '/'), '.', '/')
  }

  lemma SlashedAppend(a: string, b: string)
    ensures Slashed(a + b) == Slashed(a) + Slashed(b)
  {
    ReplaceCharAppend(a, b, '$', '/');
    ReplaceCharAppend(ReplaceChar(a, '$', '/'), ReplaceChar(b, '$', '/'), '.', '/');
  }

  lemma {:induction false} SlashedJpkConcat(segs: seq<string>)
    requires |segs| >= 1
    requires forall i :: 0 <= i < |segs| ==> '$' !in segs[i] && '.' !in segs[i]
    ensures Slashed(JpkConcat(segs)) == Join(segs, '/') + "/"
  {
    var init := segs[..|segs| - 1];
    var last := segs[|segs| - 1];
    var sfx := JpkSuffix(|segs| - 1);
    assert JpkConcat(segs) == JpkConcat(init) + last + sfx;
    SlashedAppend(JpkConcat(init) + last, sfx);
    SlashedAppend(JpkConcat(init), last);
    assert Slashed(last) == last;
    assert Slashed(sfx) == "/";
    if |segs| == 1 {
      assert JpkConcat(init) == "";
      assert Slashed("") == "";
    } else {
      SlashedJpkConcat(init);
      JoinSnoc(init, last, '/');
      assert init + [last] == segs;
    }
  }

  lemma JoinStartsWithFirst(parts: seq<string>, sep: char)
    requires |parts| >= 1 && |parts[0]| > 0
    ensures |Join(parts, sep)| > 0 && Join(parts, sep)[0] == parts[0][0]
  {
  }

  lemma {:induction false} JoinNoDoubleSep(parts: seq<string>, sep: char)
    requires |parts| >= 1
    requires forall i :: 0 <= i < |parts| ==> |parts[i]| > 0 && sep !in parts[i]
    ensures forall i :: 0 <= i < |Join(parts, sep)| - 1 ==> !(Join(parts, sep)[i] == sep && Join(parts, sep)[i + 1] == sep)
    ensures Join(parts, sep)[|Join(parts, sep)| - 1] != sep
  {
    if |parts| > 1 {
      var rest := Join(parts[1..], sep);
      JoinNoDoubleSep(parts[1..], sep);
      JoinStartsWithFirst(parts[1..], sep);
      var j := Join(parts, sep);
      assert j == parts[0] + [sep] + rest;
      forall i | 0 <= i < |j| - 1 ensures !(j[i] == sep && j[i + 1] == sep) {
        if i >= |parts[0]| + 1 {
          assert j[i] == rest[i - |parts[0]| - 1] && j[i + 1] == rest[i - |parts[0]|];
        } else if i == |parts[0]| {
          assert j[i + 1] == rest[0];
        } else {
          assert j[i] == parts[0][i];
        }
      }
    }
  }

  /** `strip(cs)` leaves text whose ends are outside `cs`. */
  lemma StripSetFixed(s: string, cs: set<char>)
    requires |s| > 0 && s[0] !in cs && s[|s| - 1] !in cs
    ensures StripSet(s, cs) == s
  {
    assert LStrip(s, cs) == s;
    assert RStrip(s, cs) == s;
  }

  /**
   * The JPK form of a joined path is its separator-suffixed concatenation,
   * with only the last character possibly changed to `.`.
   */
  lemma JpkOfJoin(segs: seq<string>, isLoopElement: bool) returns (jpk: string, res: string)
    requires |segs| >= 1 && |segs[0]| > 0
    requires forall i :: 0 <= i < |segs| ==> '/' !in segs[i]
    ensures jpk == ConvertPathToJpkNotation(Join(segs, '/'), isLoopElement) && res == JpkConcat(segs)
    ensures |res| > 0 && |jpk| == |res| && jpk[..|jpk| - 1] == res[..|res| - 1]
    ensures jpk[|jpk| - 1] == '$' || jpk[|jpk| - 1] == '.'
  {
    jpk := ConvertPathToJpkNotation(Join(segs, '/'), isLoopElement);
    res := JpkConcat(segs);
    JoinStartsWithFirst(segs, '/');
    SplitJoin(segs, '/');
    JpkConcatEnds(segs);
    if |segs| == 1 {
      assert JpkConcat(segs) == JpkConcat([]) + segs[0] + "$";
    }
  }

  lemma SlashedPrefix(s: string, k: nat)
    requires k <= |s|
    ensures |Slashed(s)| == |s| && Slashed(s[..k]) == Slashed(s)[..k]
  {
  }

  /**
   * Round trip: writing a slash path in JPK notation and reading it back
   * gives the path again, for paths of non-empty segments free of `$` and
   * `.` that start with neither whitespace nor a bracket.
   */
  lemma JpkNotationRoundTrip(segs: seq<string>, isLoopElement: bool)
    requires |segs| >= 1
    requires forall i :: 0 <= i < |segs| ==> |segs[i]| > 0 && '/' !in segs[i] && '$' !in segs[i] && '.' !in segs[i]
    requires segs[0][0] !in Whitespace && segs[0][0] !in Brackets
    ensures SlashPath(ConvertPathToJpkNotation(Join(segs, '/'), isLoopElement)) == Join(segs, '/')
  {
    var path := Join(segs, '/');
    var jpk, res := JpkOfJoin(segs, isLoopElement);
    var body := res[..|res| - 1];
    assert jpk[..|jpk| - 1] == body;
    JoinNoDoubleSep(segs, '/');
    assert Slashed(body) == path && |body| > 0 && body[|body| - 1] !in {'.', '$'} && jpk[0] == segs[0][0] by {
      SlashedJpkConcat(segs);
      SlashedPrefix(res, |res| - 1);
      JpkStartsWithFirst(segs);
      JoinStartsWithFirst(segs, '/');
      assert Slashed(body)[|body| - 1] == path[|path| - 1];
    }
    assert Unbracket(jpk) == jpk by {
      var last := jpk[|jpk| - 1];
      assert last == '$' || last == '.';
      IsSpaceIsWhitespace(last);
      assert last !in Brackets;
      StripFixed(jpk);
      StripSetFixed(jpk, Brackets);
    }
    NoDoubleSlashNoTriple(path);
    SlashPathOfTerminated(jpk, body);
  }

  lemma NoDoubleSlashNoTriple(path: string)
    requires forall i :: 0 <= i < |path| - 1 ==> !(path[i] == '/' && path[i + 1] == '/')
    ensures !Contains(path, "///")
  {
    forall j | 0 <= j
      ensures !OccursAt("///", path, j)
    {
      if j + 3 <= |path| {
        assert path[j..j + 3][0] == path[j] && path[j..j + 3][1] == path[j + 1];
      }
    }
  }

  /** A JPK path that is already stripped and ends in one separator reads as its body. */
  lemma SlashPathOfTerminated(jpk: string, body: string)
    requires |jpk| > 0 && Unbracket(jpk) == jpk && jpk[..|jpk| - 1] == body
    requires jpk[|jpk| - 1] in {'.', '$'}
    requires |body| > 0 && body[|body| - 1] !in {'.', '$'}
    requires !Contains(Slashed(body), "///")
    ensures SlashPath(jpk) == Slashed(body)
  {
    assert RStrip(jpk, {'.', '$'}) == RStrip(body, {'.', '$'});
    assert RStrip(body, {'.', '$'}) == body;
  }

  lemma {:induction false} JpkStartsWithFirst(segs: seq<string>)
    requires |segs| >= 1 && |segs[0]| > 0
    ensures |JpkConcat(segs)| > 0 && JpkConcat(segs)[0] == segs[0][0]
  {
    if |segs| > 1 {
      JpkStartsWithFirst(segs[..|segs| - 1]);
      assert segs[..|segs| - 1][0] == segs[0];
    }
  }
}
