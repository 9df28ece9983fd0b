/**
 * The conversion trace logger: a buffer of decision, source-data and
 * reasoning entries, each admitted only when logging is enabled and the
 * entry's required verbosity does not exceed the configured one.
 * Timestamps and the Markdown file written at the end are not modelled;
 * the grouping of entries into the file's sections is.
 */
module TraceLogging {
  import opened Wrappers
  import opened Strings
  import opened JsonValues

  datatype Verbosity = Minimal | Normal | Detailed | Debug {
    /** The enum's integer value. */
    function Value(): nat {
      match this
      case Minimal => 1
      case Normal => 2
      case Detailed => 3
      case Debug => 4
    }

    /** The enum member's name. */
    function Name(): string {
      match this
      case Minimal => "MINIMAL"
      case Normal => "NORMAL"
      case Detailed => "DETAILED"
      case Debug => "DEBUG"
    }
  }

  /** The keys of `from_string`'s table. */
  const VerbosityNames: seq<string> := ["minimal", "normal", "detailed", "debug"]

  /** `VerbosityLevel.from_string`: a case-insensitive lookup that raises `ValueError` on unknown names. */
  function VerbosityFromString(level: string): (r: Result<Verbosity>)
    ensures r.Ok? <==> Lower(level) in VerbosityNames
    ensures r.Ok? ==> Lower(level) == Lower(r.value.Name())
  {
    var key := Lower(level);
    if key == "minimal" then Ok(Minimal)
    else if key == "normal" then Ok(Normal)
    else if key == "detailed" then Ok(Detailed)
    else if key == "debug" then Ok(Debug)
    else Err("Unknown verbosity level: " + level)
  }

  /** Every level is found again from its own name, in any letter case. */
  lemma VerbosityNameRoundTrip(v: Verbosity, spelling: string)
    requires Lower(spelling) == Lower(v.Name())
    ensures VerbosityFromString(spelling) == Ok(v)
  {
    assert Lower(spelling)[0] == LowerChar(v.Name()[0]);
    assert Lower(spelling)[1] == LowerChar(v.Name()[1]);
  }

  datatype EntryKind = Decision | SourceData | Reasoning

  /**
   * One buffered entry: its kind, its heading (the decision, the source
   * type or the reasoning), its payload (the context or the source data)
   * and the verbosity it required.
   */
  datatype Entry = Entry(kind: EntryKind, heading: string, payload: Json, level: Verbosity)

  /** `context or {}`. */
  function ContextOrEmpty(context: Json): (r: Json)
    ensures Truthy(context) ==> r == context
    ensures !Truthy(context) ==> r == Obj(map[])
  {
    if Truthy(context) then context else Obj(map[])
  }

  class TraceLogger {
    var enabled: bool
    var verbosity: Verbosity
    var outputDirectory: string
    var logFileName: Option<string>
    var entries: seq<Entry>

    /** Every buffered entry was admitted by the configured level, and a disabled logger holds none. */
    ghost predicate Valid()
      reads this
    {
      (|entries| > 0 ==> enabled) &&
      forall i :: 0 <= i < |entries| ==> entries[i].level.Value() <= verbosity.Value()
    }

    constructor(enabled: bool, verbosity: Verbosity, outputDirectory: string, logFileName: Option<string>)
      ensures Valid()
      ensures this.enabled == enabled && this.verbosity == verbosity
      ensures this.outputDirectory == outputDirectory && this.logFileName == logFileName
      ensures entries == []
    {
      this.enabled := enabled;
      this.verbosity := verbosity;
      this.outputDirectory := outputDirectory;
      this.logFileName := logFileName;
      entries := [];
    }

    /** Whether an entry requiring `required` is recorded. */
    predicate Admits(required: Verbosity)
      reads this
    {
      enabled && required.Value() <= verbosity.Value()
    }

    /** Appends `e` when its level is admitted; the shared body of the three `log_*` methods. */
    method Append(e: Entry)
      requires Valid()
      modifies this
      ensures Valid()
      ensures entries == if old(Admits(e.level)) then old(entries) + [e] else old(entries)
      ensures enabled == old(enabled) && verbosity == old(verbosity)
      ensures outputDirectory == old(outputDirectory) && logFileName == old(logFileName)
    {
      if !enabled || e.level.Value() > verbosity.Value() {
        return;
      }
      entries := entries + [e];
    }

    /** `log_decision`; a missing `verbosity_required` means NORMAL. */
    method LogDecision(decision: string, context: Json, required: Option<Verbosity>)
      requires Valid()
      modifies this
      ensures Valid()
      ensures var e := Entry(Decision, decision, ContextOrEmpty(context), required.GetOr(Normal));
        entries == if old(Admits(e.level)) then old(entries) + [e] else old(entries)
      ensures enabled == old(enabled) && verbosity == old(verbosity)
      ensures outputDirectory == old(outputDirectory) && logFileName == old(logFileName)
    {
      Append(Entry(Decision, decision, ContextOrEmpty(context), required.GetOr(Normal)));
    }

    /** `log_source_data`; a missing `verbosity_required` means DETAILED. */
    method LogSourceData(sourceType: string, sourceData: Json, required: Option<Verbosity>)
      requires Valid()
      modifies this
      ensures Valid()
      ensures var e := Entry(SourceData, sourceType, sourceData, required.GetOr(Detailed));
        entries == if old(Admits(e.level)) then old(entries) + [e] else old(entries)
      ensures enabled == old(enabled) && verbosity == old(verbosity)
      ensures outputDirectory == old(outputDirectory) && logFileName == old(logFileName)
    {
      Append(Entry(SourceData, sourceType, sourceData, required.GetOr(Detailed)));
    }

    /** `log_reasoning`; a missing `verbosity_required` means DETAILED. */
    method LogReasoning(reasoning: string, context: Json, required: Option<Verbosity>)
      requires Valid()
      modifies this
      ensures Valid()
      ensures var e := Entry(Reasoning, reasoning, ContextOrEmpty(context), required.GetOr(Detailed));
        entries == if old(Admits(e.level)) then old(entries) + [e] else old(entries)
      ensures enabled == old(enabled) && verbosity == old(verbosity)
      ensures outputDirectory == old(outputDirectory) && logFileName == old(logFileName)
    {
      Append(Entry(Reasoning, reasoning, ContextOrEmpty(context), required.GetOr(Detailed)));
    }

    /**
     * The path `write_log` writes to, or `None` when logging is disabled:
     * the configured file name, or `<stem>_<timestamp>.md` without one.
     * The clock reading is the parameter `timestamp`; the file write is not modelled.
     */
    method WriteLog(jpkStem: string, timestamp: string) returns (path: Option<string>)
      ensures path.None? <==> !enabled
      ensures path.Some? ==> IsPrefix(outputDirectory + "/", path.value)
      ensures path.Some? && logFileName.Some? && logFileName.value != "" ==> path.value == outputDirectory + "/" + logFileName.value
      ensures path.Some? && (logFileName.None? || logFileName.value == "") ==> IsSuffix(".md", path.value)
    {
      if !enabled {
        return None;
      }
      var filename;
      if logFileName.Some? && logFileName.value != "" {
        filename := logFileName.value;
      } else {
        filename := jpkStem + "_" + timestamp + ".md";
      }
      path := Some(outputDirectory + "/" + filename);
      assert (outputDirectory + "/" + filename)[..|outputDirectory + "/"|] == outputDirectory + "/";
    }
  }

  /** The entries of one kind, in buffer order: the list comprehensions that fill each Markdown section. */
  function OfKind(es: seq<Entry>, k: EntryKind): (r: seq<Entry>)
    ensures |r| <= |es|
    ensures forall i :: 0 <= i < |r| ==> r[i].kind == k
    ensures forall e :: e in r <==> e in es && e.kind == k
  {
    if |es| == 0 then []
    else if es[|es| - 1].kind == k then OfKind(es[..|es| - 1], k) + [es[|es| - 1]]
    else OfKind(es[..|es| - 1], k)
  }

  /** Selecting from a concatenation selects from each part: the entries of a kind keep their buffer order. */
  lemma {:induction false} OfKindAppend(a: seq<Entry>, b: seq<Entry>, k: EntryKind)
    ensures OfKind(a + b, k) == OfKind(a, k) + OfKind(b, k)
    decreases |b|
  {
    if |b| == 0 {
      assert a + b == a;
    } else {
      var b' := b[..|b| - 1];
      assert (a + b)[..|a + b| - 1] == a + b';
      OfKindAppend(a, b', k);
    }
  }

  /** The three section counts in the Markdown summary add up to the total entry count. */
  lemma {:induction false} SectionCountsSum(es: seq<Entry>)
    ensures |OfKind(es, Decision)| + |OfKind(es, SourceData)| + |OfKind(es, Reasoning)| == |es|
  {
    if |es| > 0 {
      SectionCountsSum(es[..|es| - 1]);
    }
  }
}
