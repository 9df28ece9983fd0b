/**
 * The conversion of a JPK field-structure entry into the JSON document
 * notation of a schema node: `N` (name), `MN`/`MX` (occurrence bounds),
 * `NIL`, `T` (value type), `C` (children) and `O` (options with a label).
 * A conversion that would raise in the source yields `Err` with the name of
 * the exception.
 */
module FieldNotation {
  import opened Wrappers
  import opened Strings
  import opened JsonValues
  import opened Sequences

  /** An upper occurrence bound: a count, or `'unbounded'`. */
  datatype MaxOccurs = Bounded(n: int) | Unbounded

  function MaxToJson(m: MaxOccurs): Json {
    match m
    case Bounded(n) => Num(n)
    case Unbounded => Str("unbounded")
  }

  /** The type codes whose elements are required. */
  predicate IsRequiredTypeCode(typeCode: Json) {
    typeCode == Str("0x1") || typeCode == Str("0x21")
  }

  /** `_infer_occurs_from_type`: the fixed table of JPK type codes, `(0, 1)` for any other value. */
  function InferOccursFromType(typeCode: Json): (int, MaxOccurs) {
    if typeCode == Str("0x1") then (1, Bounded(1))
    else if typeCode == Str("0x9") then (0, Unbounded)
    else if typeCode == Str("0x24") then (0, Bounded(1))
    else if typeCode == Str("0x21") then (1, Bounded(1))
    else (0, Bounded(1))
  }

  /**
   * Only the two required codes give a minimum of one, only the array code
   * `0x9` is unbounded, and every other bound is a single element.
   */
  lemma InferOccursSpec(typeCode: Json)
    ensures var (mn, mx) := InferOccursFromType(typeCode);
      (mn == 1 <==> IsRequiredTypeCode(typeCode))
      && (mn == 0 <==> !IsRequiredTypeCode(typeCode))
      && (mx == Unbounded <==> typeCode == Str("0x9"))
      && (mx != Unbounded ==> mx == Bounded(1))
  {
  }

  /** `str(value_type)` as far as the type table can tell values apart. */
  function ValueTypeKey(valueType: Json): string {
    match valueType
    case Str(s) => s
    case Num(n) => IntToString(n)
    case _ => ""
  }

  /** `_map_value_type`: JPK value-type codes 8, 4, 5, 6, 7 to JSON type names; `'string'` otherwise. */
  function MapValueType(valueType: Json): (r: string)
    ensures r in {"string", "int", "double", "boolean", "date"}
    ensures r != "string" ==> |ValueTypeKey(valueType)| == 1 && IsAsciiDigit(ValueTypeKey(valueType)[0])
  {
    var key := ValueTypeKey(valueType);
    if key == "8" then "string"
    else if key == "4" then "int"
    else if key == "5" then "double"
    else if key == "6" then "boolean"
    else if key == "7" then "date"
    else "string"
  }

  /** The integer and string forms of the same code map to the same type. */
  lemma MapValueTypeNumberOrText(n: nat)
    requires n < 10
    ensures MapValueType(Num(n)) == MapValueType(Str(NatToString(n)))
  {
  }

  // ---------------------------------------------------------------------
  // Labels
  // ---------------------------------------------------------------------

  predicate IsLowerAscii(c: char) { 'a' <= c <= 'z' }

  /** `re.sub(r'([a-z])([A-Z])', r'\1 \2', s)`: a space between a lower- and an upper-case letter. */
  function SplitCamel(s: string): (r: string)
    ensures forall c :: c in r ==> c in s || c == ' '
    ensures |s| > 0 ==> |r| > 0 && r[0] == s[0]
    ensures forall i :: 0 <= i < |r| - 1 ==> !(IsLowerAscii(r[i]) && IsUpper(r[i + 1]))
    decreases |s|
  {
    if |s| >= 2 && IsLowerAscii(s[0]) && IsUpper(s[1]) then [s[0], ' ', s[1]] + SplitCamel(s[2..])
    else if |s| == 0 then ""
    else [s[0]] + SplitCamel(s[1..])
  }

  /** Splitting only inserts characters: the text survives in order. */
  lemma {:induction false} SplitCamelKeepsText(s: string)
    ensures IsSubsequence(s, SplitCamel(s))
    decreases |s|
  {
    if |s| >= 2 && IsLowerAscii(s[0]) && IsUpper(s[1]) {
      SplitCamelKeepsText(s[2..]);
      assert IsSubsequence([s[0], s[1]], [s[0], ' ', s[1]]) by {
        assert [s[0], ' ', s[1]][..2] == [s[0], ' '];
        assert IsSubsequence([s[0]], [s[0]]);
        SubsequenceSnoc([s[0]], [s[0]], ' ');
      }
      SubsequenceAppend([s[0], s[1]], [s[0], ' ', s[1]], s[2..], SplitCamel(s[2..]));
      assert s == [s[0], s[1]] + s[2..];
    } else if |s| > 0 {
      SplitCamelKeepsText(s[1..]);
      assert IsSubsequence([s[0]], [s[0]]);
      SubsequenceAppend([s[0]], [s[0]], s[1..], SplitCamel(s[1..]));
      assert s == [s[0]] + s[1..];
    }
  }

  /** One character of `str.title()`: a letter is upper-cased at the start of a run of letters, lower-cased inside one. */
  function TitleChar(c: char, prevCased: bool): char {
    if !IsAlpha(c) then c else if prevCased then LowerChar(c) else UpperChar(c)
  }

  /** Python `str.title()` on ASCII text, after a character that is (`prevCased`) or is not a letter. */
  function TitleFrom(s: string, prevCased: bool): (r: string)
    ensures |r| == |s|
  {
    if |s| == 0 then "" else [TitleChar(s[0], prevCased)] + TitleFrom(s[1..], IsAlpha(s[0]))
  }

  function Title(s: string): string {
    TitleFrom(s, false)
  }

  /** Each character of the title-cased text depends only on itself and on whether the one before it is a letter. */
  lemma {:induction false} TitleFromSpec(s: string, prevCased: bool)
    ensures forall i :: 0 <= i < |s| ==>
      TitleFrom(s, prevCased)[i] == TitleChar(s[i], if i == 0 then prevCased else IsAlpha(s[i - 1]))
  {
    if |s| > 0 {
      TitleFromSpec(s[1..], IsAlpha(s[0]));
      assert TitleFrom(s, prevCased)[0] == TitleChar(s[0], prevCased);
      forall i | 1 <= i < |s|
        ensures TitleFrom(s, prevCased)[i] == TitleChar(s[i], IsAlpha(s[i - 1]))
      {
        assert TitleFrom(s, prevCased)[i] == TitleFrom(s[1..], IsAlpha(s[0]))[i - 1];
        assert s[1..][i - 1] == s[i];
        if i > 1 {
          assert s[1..][i - 2] == s[i - 1];
        }
      }
    }
  }

  /** `_generate_label`'s first steps: `typ` and `xsi:` removed, camel case split. */
  function CamelSpaced(fieldName: string): string {
    SplitCamel(ReplaceAll(ReplaceAll(fieldName, "typ", ""), "xsi:", ""))
  }

  /** Underscores to spaces, then each pair of spaces to one. */
  function SpacedWords(spaced: string): string {
    ReplaceAll(ReplaceChar(spaced, '_', ' '), "  ", " ")
  }

  /** `_generate_label`. */
  function GenerateLabel(fieldName: string): string {
    Title(Strip(ReplaceAll(SpacedWords(CamelSpaced(fieldName)), "__c", "")))
  }

  lemma SpacedWordsNoUnderscore(spaced: string)
    ensures '_' !in SpacedWords(spaced)
  {
    if '_' in SpacedWords(spaced) {
      ReplaceAllChars(ReplaceChar(spaced, '_', ' '), "  ", " ", '_');
    }
  }

  lemma NoUnderscoreNoCustomSuffix(t: string)
    requires '_' !in t
    ensures ReplaceAll(t, "__c", "") == t
  {
    forall j: int | 0 <= j && j + 3 <= |t|
      ensures !OccursAt("__c", t, j)
    {
      assert t[j] in t;
      assert t[j..j + 3][0] == t[j] != '_';
    }
    assert !Contains(t, "__c");
  }

  /**
   * Underscores are replaced by spaces before the `__c` suffix is looked for,
   * so that removal never finds anything: the label of `Name__c` keeps a
   * trailing ` C`.
   */
  lemma CustomSuffixRemovalInert(fieldName: string)
    ensures ReplaceAll(SpacedWords(CamelSpaced(fieldName)), "__c", "") == SpacedWords(CamelSpaced(fieldName))
  {
    var words := SpacedWords(CamelSpaced(fieldName));
    SpacedWordsNoUnderscore(CamelSpaced(fieldName));
    NoUnderscoreNoCustomSuffix(words);
  }

  lemma TitleCharFacts(c: char, prevCased: bool)
    ensures IsAlpha(TitleChar(c, prevCased)) <==> IsAlpha(c)
    ensures !IsAlpha(c) ==> TitleChar(c, prevCased) == c
    ensures IsAlpha(c) ==> (IsUpper(TitleChar(c, prevCased)) <==> !prevCased)
  {
  }

  /** Title-casing keeps every non-letter and makes a letter upper-case exactly when it starts a run of letters. */
  lemma TitleShape(s: string)
    ensures |Title(s)| == |s|
    ensures forall i :: 0 <= i < |s| ==> (IsAlpha(Title(s)[i]) <==> IsAlpha(s[i])) && (!IsAlpha(s[i]) ==> Title(s)[i] == s[i])
    ensures forall i :: 0 <= i < |s| && IsAlpha(Title(s)[i]) ==> (IsUpper(Title(s)[i]) <==> i == 0 || !IsAlpha(Title(s)[i - 1]))
  {
    forall i | 0 <= i < |s|
      ensures (IsAlpha(Title(s)[i]) <==> IsAlpha(s[i])) && (!IsAlpha(s[i]) ==> Title(s)[i] == s[i])
    {
      TitleAt(s, i);
    }
    forall i | 0 <= i < |s| && IsAlpha(Title(s)[i])
      ensures IsUpper(Title(s)[i]) <==> i == 0 || !IsAlpha(Title(s)[i - 1])
    {
      TitleAt(s, i);
      if i > 0 {
        TitleAt(s, i - 1);
      }
    }
  }

  /** One character of the title-cased text. */
  lemma TitleAt(s: string, i: int)
    requires 0 <= i < |s|
    ensures |Title(s)| == |s|
    ensures IsAlpha(Title(s)[i]) <==> IsAlpha(s[i])
    ensures !IsAlpha(s[i]) ==> Title(s)[i] == s[i]
    ensures IsAlpha(s[i]) ==> (IsUpper(Title(s)[i]) <==> i == 0 || !IsAlpha(s[i - 1]))
  {
    TitleFromSpec(s, false);
    TitleCharFacts(s[i], if i == 0 then false else IsAlpha(s[i - 1]));
  }

  /** The shape of a label, for the text title-cased after stripping. */
  predicate IsLabelShaped(text: string) {
    '_' !in text
    && (|text| > 0 ==> !IsSpace(text[0]) && !IsSpace(text[|text| - 1]))
    && forall i :: 0 <= i < |text| && IsAlpha(text[i]) ==> (IsUpper(text[i]) <==> i == 0 || !IsAlpha(text[i - 1]))
  }

  lemma TitleOfStrippedShape(words: string)
    requires '_' !in words
    ensures IsLabelShaped(Title(Strip(words)))
  {
    var left := LStrip(words, Whitespace);
    var stripped := RStrip(left, Whitespace);
    assert Strip(words) == stripped;
    assert '_' !in stripped by {
      assert forall c :: c in left ==> c in words by {
        assert left == words[|words| - |left|..];
      }
      assert stripped == left[..|stripped|];
    }
    TitleShape(stripped);
    if |stripped| > 0 {
      IsSpaceIsWhitespace(stripped[0]);
      IsSpaceIsWhitespace(stripped[|stripped| - 1]);
    }
  }

  /**
   * A label has no underscores and no surrounding whitespace, and each
   * letter is upper-case exactly when it starts a run of letters.
   */
  lemma LabelShape(fieldName: string)
    ensures IsLabelShaped(GenerateLabel(fieldName))
  {
    var words := SpacedWords(CamelSpaced(fieldName));
    CustomSuffixRemovalInert(fieldName);
    SpacedWordsNoUnderscore(CamelSpaced(fieldName));
    TitleOfStrippedShape(words);
  }

  // ---------------------------------------------------------------------
  // Occurrence bounds
  // ---------------------------------------------------------------------

  /** Python `int(x)` for a value that is not `None`: `None` where it raises. */
  function PyInt(x: Json): Option<int> {
    match x
    case Str(s) => ParseInt(s)
    case Num(n) => Some(n)
    case Bool(b) => Some(if b then 1 else 0)
    case _ => None
  }

  /** The minimum the source picks when the JTR gives only a maximum. */
  function DefaultMinOccurs(jtrMax: Json): Result<int> {
    if jtrMax == Str("-1") then Ok(1)
    else if jtrMax.Str? then
      match ParseInt(jtrMax.s)
      case None => Err("ValueError")
      case Some(v) => Ok(if v == -1 then 1 else if v > 1 then 0 else 1)
    else if jtrMax == Num(-1) then Ok(1)
    else if jtrMax.Num? && jtrMax.n > 1 then Ok(0)
    else Ok(1)
  }

  /** Occurrence bounds taken from the JTR `min_occurs` / `max_occurs` attributes. */
  function JtrOccurs(jtrMin: Json, jtrMax: Json): Result<(int, MaxOccurs)> {
    var minOccurs := if jtrMin != Null then Ok(PyInt(jtrMin).GetOr(0)) else DefaultMinOccurs(jtrMax);
    var maxOccurs :=
      if jtrMax == Str("-1") || jtrMax == Num(-1) then Unbounded
      else if jtrMax != Null then Bounded(PyInt(jtrMax).GetOr(1))
      else Bounded(1);
    match minOccurs
    case Err(e) => Err(e)
    case Ok(mn) => Ok((mn, maxOccurs))
  }

  lemma ParseMinusOne()
    ensures ParseInt("-1") == Some(-1)
  {
    assert "-1"[0] !in Whitespace && "-1"[1] !in Whitespace;
    StripFixed("-1");
    assert "-1"[1..] == "1";
    ParseDigits("1");
  }

  /**
   * A JTR maximum of -1, as text or as a number, makes the element
   * unbounded and, without a JTR minimum, required.
   */
  lemma JtrUnboundedSpec(jtrMin: Json, jtrMax: Json)
    requires jtrMax == Str("-1") || jtrMax == Num(-1)
    ensures JtrOccurs(jtrMin, jtrMax).Ok?
    ensures JtrOccurs(jtrMin, jtrMax).value.1 == Unbounded
    ensures jtrMin == Null ==> JtrOccurs(jtrMin, jtrMax) == Ok((1, Unbounded))
  {
  }

  /**
   * Without a JTR minimum, an integer maximum above one makes the element
   * optional and any other integer maximum makes it required; a textual
   * maximum that is not an integer raises.
   */
  lemma JtrDefaultMinSpec(jtrMax: Json)
    requires jtrMax != Null
    ensures jtrMax.Num? ==> JtrOccurs(Null, jtrMax).Ok? && (JtrOccurs(Null, jtrMax).value.0 == 0 <==> jtrMax.n > 1)
    ensures jtrMax.Str? ==> (JtrOccurs(Null, jtrMax).Err? <==> ParseInt(jtrMax.s).None?)
    ensures jtrMax.Str? && ParseInt(jtrMax.s).Some? ==>
      JtrOccurs(Null, jtrMax).Ok? && (JtrOccurs(Null, jtrMax).value.0 == 0 <==> ParseInt(jtrMax.s).value > 1)
  {
    if jtrMax == Str("-1") {
      ParseMinusOne();
    }
  }

  /** An explicit JTR minimum is used as given (0 when it is not an integer), and a missing maximum is 1. */
  lemma JtrExplicitMinSpec(jtrMin: Json, jtrMax: Json)
    requires jtrMin != Null
    ensures JtrOccurs(jtrMin, jtrMax).Ok?
    ensures JtrOccurs(jtrMin, jtrMax).value.0 == PyInt(jtrMin).GetOr(0)
    ensures jtrMax == Null ==> JtrOccurs(jtrMin, jtrMax).value.1 == Bounded(1)
  {
  }

  /** A direct child of the Salesforce `records` element, which repeats. */
  predicate IsRecordsChild(fieldPath: string, parentPath: string) {
    (IsPrefix("records.", fieldPath) && CountChar(fieldPath, '.') == 1) || parentPath == "records"
  }

  /** The occurrence bounds of a field: from the JTR when it has them, else the `records` rule, else the type table. */
  function FieldOccurs(field: Json, parentPath: string, currentPath: string): Result<(int, MaxOccurs)> {
    var jtrMin := Get(field, "min_occurs");
    var jtrMax := Get(field, "max_occurs");
    if jtrMin != Null || jtrMax != Null then JtrOccurs(jtrMin, jtrMax)
    else
      var path := GetOr(field, "path", Str(""));
      if Truthy(path) && !path.Str? then Err("AttributeError")
      else
        var fieldPath := if Truthy(path) then path.s else currentPath;
        if IsRecordsChild(fieldPath, parentPath) then Ok((1, Unbounded))
        else Ok(InferOccursFromType(GetOr(field, "type", Str(""))))
  }

  // ---------------------------------------------------------------------
  // Field conversion
  // ---------------------------------------------------------------------

  /** The text a field's name contributes to the dotted path of its children. */
  function NameText(name: Json): string {
    if name.Str? then name.s else ""
  }

  function FieldName(field: Json): Json {
    GetOr(field, "name", Str(""))
  }

  function CurrentPath(field: Json, parentPath: string): string {
    if parentPath != "" then parentPath + "." + NameText(FieldName(field)) else NameText(FieldName(field))
  }

  function ChildFields(field: Json): Json {
    GetOr(field, "children", Arr([]))
  }

  /** The node without its children and options: `N`, `MN`, `MX`, and `NIL` / `T` when they apply. */
  function BaseNode(name: Json, minOccurs: int, maxOccurs: MaxOccurs, valueType: Json): map<string, Json> {
    var base := map["N" := name, "MN" := Num(minOccurs), "MX" := MaxToJson(maxOccurs)];
    var withNil := if minOccurs == 0 then base["NIL" := Bool(true)] else base;
    if Truthy(valueType) then withNil["T" := Str(MapValueType(valueType))] else withNil
  }

  /** `_convert_field_to_json_notation`. */
  function ConvertField(field: Json, parentPath: string): Result<Json>
    decreases field, 3
  {
    if !field.Obj? then Err("AttributeError")
    else
      var currentPath := CurrentPath(field, parentPath);
      BuildNode(field, currentPath, FieldOccurs(field, parentPath, currentPath))
  }

  /** The converted node, once the occurrence bounds are known (or have raised). */
  function BuildNode(field: Json, currentPath: string, occurs: Result<(int, MaxOccurs)>): Result<Json>
    requires field.Obj?
    decreases field, 2
  {
    match occurs
    case Err(e) => Err(e)
    case Ok(bounds) =>
      var node := BaseNode(FieldName(field), bounds.0, bounds.1, Get(field, "value_type"));
      WithLabel(FieldName(field), WithChildren(field, currentPath, node))
  }

  /** The node with `C` added when the field has children. */
  function WithChildren(field: Json, currentPath: string, node: map<string, Json>): Result<map<string, Json>>
    requires field.Obj?
    decreases field, 1
  {
    var children := ChildFields(field);
    if !Truthy(children) then Ok(node)
    else if !children.Arr? then Err(if children.Num? || children.Bool? then "TypeError" else "AttributeError")
    else
      match CollectResults(ChildResults(field, currentPath))
      case Err(e) => Err(e)
      case Ok(cs) => Ok(node["C" := Arr(cs)])
  }

  /** `[convert(child, current_path) for child in children]`, each child's outcome separately. */
  function ChildResults(field: Json, currentPath: string): (r: seq<Result<Json>>)
    requires field.Obj? && ChildFields(field).Arr?
    ensures |r| == |ChildFields(field).items|
    decreases field, 0
  {
    var items := ChildFields(field).items;
    seq(|items|, i requires 0 <= i < |items| => ConvertField(items[i], currentPath))
  }

  /** The node with `O` (its label) added when the field has a name. */
  function WithLabel(name: Json, node: Result<map<string, Json>>): Result<Json> {
    match node
    case Err(e) => Err(e)
    case Ok(fields) =>
      if !Truthy(name) then Ok(Obj(fields))
      else if !name.Str? then Err("AttributeError")
      else Ok(Obj(fields["O" := Obj(map["label" := Str(GenerateLabel(name.s))])]))
  }

  /**
   * The shape of a converted node: its name is the field's name, `NIL` is
   * present exactly when the minimum is zero, `T` exactly when the field has
   * a value type, `C` exactly when it has children (one converted node per
   * child), and `O` exactly when it has a name.
   */
  lemma ConvertFieldShape(field: Json, parentPath: string)
    requires ConvertField(field, parentPath).Ok?
    ensures var occurs := FieldOccurs(field, parentPath, CurrentPath(field, parentPath));
      var r := ConvertField(field, parentPath).value;
      occurs.Ok? && r.Obj? && "N" in r.fields && "MN" in r.fields && "MX" in r.fields
      && r.fields["N"] == FieldName(field)
      && r.fields["MN"] == Num(occurs.value.0)
      && r.fields["MX"] == MaxToJson(occurs.value.1)
      && ("NIL" in r.fields <==> occurs.value.0 == 0)
      && ("T" in r.fields <==> Truthy(Get(field, "value_type")))
      && ("O" in r.fields <==> Truthy(FieldName(field)))
      && ("C" in r.fields <==> Truthy(ChildFields(field)))
  {
    var currentPath := CurrentPath(field, parentPath);
    BuildNodeShape(field, currentPath, FieldOccurs(field, parentPath, currentPath));
  }

  lemma BuildNodeShape(field: Json, currentPath: string, occurs: Result<(int, MaxOccurs)>)
    requires field.Obj? && BuildNode(field, currentPath, occurs).Ok?
    ensures var r := BuildNode(field, currentPath, occurs).value;
      occurs.Ok? && r.Obj? && "N" in r.fields && "MN" in r.fields && "MX" in r.fields
      && r.fields["N"] == FieldName(field)
      && r.fields["MN"] == Num(occurs.value.0)
      && r.fields["MX"] == MaxToJson(occurs.value.1)
      && ("NIL" in r.fields <==> occurs.value.0 == 0)
      && ("T" in r.fields <==> Truthy(Get(field, "value_type")))
      && ("O" in r.fields <==> Truthy(FieldName(field)))
      && ("C" in r.fields <==> Truthy(ChildFields(field)))
  {
    var node := BaseNode(FieldName(field), occurs.value.0, occurs.value.1, Get(field, "value_type"));
    var withChildren := WithChildren(field, currentPath, node);
    BaseNodeKeys(FieldName(field), occurs.value.0, occurs.value.1, Get(field, "value_type"));
    WithChildrenKeeps(field, currentPath, node);
    WithLabelKeeps(FieldName(field), withChildren);
  }

  lemma BaseNodeKeys(name: Json, minOccurs: int, maxOccurs: MaxOccurs, valueType: Json)
    ensures var node := BaseNode(name, minOccurs, maxOccurs, valueType);
      "N" in node && "MN" in node && "MX" in node && "C" !in node && "O" !in node
      && node["N"] == name && node["MN"] == Num(minOccurs) && node["MX"] == MaxToJson(maxOccurs)
      && ("NIL" in node <==> minOccurs == 0)
      && ("T" in node <==> Truthy(valueType))
  {
  }

  lemma WithChildrenKeeps(field: Json, currentPath: string, node: map<string, Json>)
    requires field.Obj? && WithChildren(field, currentPath, node).Ok?
    ensures var m := WithChildren(field, currentPath, node).value;
      ("C" in m <==> "C" in node || Truthy(ChildFields(field)))
      && forall k :: k != "C" ==> (k in m <==> k in node) && (k in node ==> m[k] == node[k])
  {
  }

  lemma WithLabelKeeps(name: Json, node: Result<map<string, Json>>)
    requires WithLabel(name, node).Ok?
    ensures var r := WithLabel(name, node).value;
      node.Ok? && r.Obj?
      && ("O" in r.fields <==> "O" in node.value || Truthy(name))
      && forall k :: k != "O" ==> (k in r.fields <==> k in node.value) && (k in node.value ==> r.fields[k] == node.value[k])
  {
  }

  /** Each child of a converted node is the conversion of the matching child field. */
  lemma ConvertFieldChildren(field: Json, parentPath: string)
    requires ConvertField(field, parentPath).Ok?
    requires Truthy(ChildFields(field))
    ensures ChildFields(field).Arr?
    ensures var r := ConvertField(field, parentPath).value;
      var children := ChildFields(field).items;
      r.Obj? && "C" in r.fields && r.fields["C"].Arr? && |r.fields["C"].items| == |children|
      && forall i :: 0 <= i < |children| ==>
           ConvertField(children[i], CurrentPath(field, parentPath)) == Ok(r.fields["C"].items[i])
  {
    var currentPath := CurrentPath(field, parentPath);
    BuildNodeChildren(field, currentPath, FieldOccurs(field, parentPath, currentPath));
  }

  lemma BuildNodeChildren(field: Json, currentPath: string, occurs: Result<(int, MaxOccurs)>)
    requires field.Obj? && BuildNode(field, currentPath, occurs).Ok?
    requires Truthy(ChildFields(field))
    ensures ChildFields(field).Arr?
    ensures var r := BuildNode(field, currentPath, occurs).value;
      var children := ChildFields(field).items;
      r.Obj? && "C" in r.fields && r.fields["C"].Arr? && |r.fields["C"].items| == |children|
      && forall i :: 0 <= i < |children| ==> ConvertField(children[i], currentPath) == Ok(r.fields["C"].items[i])
  {
    var node := BaseNode(FieldName(field), occurs.value.0, occurs.value.1, Get(field, "value_type"));
    var withChildren := WithChildren(field, currentPath, node);
    WithLabelKeeps(FieldName(field), withChildren);
    var rs := ChildResults(field, currentPath);
    assert forall i :: 0 <= i < |rs| ==> rs[i] == ConvertField(ChildFields(field).items[i], currentPath);
  }

  /**
   * Without JTR bounds, a field directly under `records` is a required
   * repeating element, whatever its type code.
   */
  lemma RecordsChildRepeats(field: Json)
    requires field.Obj? && Get(field, "min_occurs") == Null && Get(field, "max_occurs") == Null
    requires !Truthy(GetOr(field, "path", Str("")))
    requires ConvertField(field, "records").Ok?
    ensures var r := ConvertField(field, "records").value;
      r.Obj? && "MN" in r.fields && "MX" in r.fields
      && r.fields["MN"] == Num(1) && r.fields["MX"] == Str("unbounded") && "NIL" !in r.fields
  {
    ConvertFieldShape(field, "records");
    assert FieldOccurs(field, "records", CurrentPath(field, "records")) == Ok((1, Unbounded));
  }
}
