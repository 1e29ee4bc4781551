/** The process-wide, read-only category tables of the report tool and the pure
    rules derived from a column name: its statistics unit, its rate unit, the
    name of its companion capacity column, and its sanitised statistics name. */
module Categories {
  import opened Wrappers

  /** Columns charted by default: the vmstat columns, then the jstat ones. */
  const SelectedCategories: set<string> := {
    "r", "b", "swpd", "bi", "bo", "in", "cs", "us", "sy", "id", "wa", "st",
    "Timestamp", "S0", "S1", "E", "O", "P", "EC", "OC", "PC", "EU", "OU", "PU",
    "YGC", "YGCT", "FGC", "FGCT", "GCT",
    "YGC#d/dt", "YGCT#d/dt", "FGC#d/dt", "FGCT#d/dt", "GCT#d/dt"
  }

  /** Memory-region capacity columns: never charted on their own. */
  const CapacityCategories: set<string> := {"S0C", "S1C", "EC", "OC", "PC"}

  /** Monotonic counters (GC event counts and times): they also get a rate chart. */
  const CounterCategories: set<string> := {"YGC", "YGCT", "FGC", "FGCT", "GCT"}

  /** Chart titles by category. */
  const Translator: map<string, string> := map[
    "r" := "Processes waiting for runtime",
    "b" := "Processes in uninterruptible sleep",
    "swpd" := "Virtual memory used",
    "free" := "Idle memory",
    "buff" := "Memory used as buffers",
    "cache" := "Memory used as cache",
    "inact" := "Inactive memory",
    "active" := "Active memory",
    "si" := "Memory swapped in from disk (/s)",
    "so" := "Memory swapped to disk (/s)",
    "bi" := "IO: Blocks received (/s)",
    "bo" := "IO: Blocks sent (/s)",
    "in" := "Interrupts, including the clock (/s)",
    "cs" := "Context switches (/s)",
    "us" := "User time (%)",
    "sy" := "System time (%)",
    "id" := "Idle time (%)",
    "wa" := "Waiting for IO time (%)",
    "st" := "Time stolen from a virtual machine (%)",
    "Timestamp" := "Timestamp",
    "Loaded" := "Number of classes loaded",
    "Unloaded" := "Number of classes unloaded",
    "Bytes" := "Number of Kbytes loaded / unloaded (?)",
    "Time" := "Time spent in the tasks",
    "Compiled" := "Number of compilation tasks performed",
    "Failed" := "Number of compilation tasks that failed",
    "Invalid" := "Number of compilation tasks that were invalidated",
    "FailedType" := "Compile type of the last failed compilation",
    "FailedMethod" := "Class name and method for the last failed compilation",
    "NGCMN" := "Minimum new generation capacity (KB)",
    "NGCMX" := "Maximum new generation capacity (KB)",
    "NGC" := "New generation capacity (KB)",
    "NGU" := "New generation usage (KB)",
    "S0CMX" := "Maximum survivor space 0 capacity (KB)",
    "S0C" := "Survivor space 0 capacity (KB)",
    "S1CMX" := "Maximum survivor space 1 capacity (KB)",
    "S1C" := "Survivor space 0 capacity (KB)",
    "S0U" := "Survivor space 0 usage (KB)",
    "S1U" := "Survivor space 1 usage (KB)",
    "S0" := "Survivor space 0 usage (%)",
    "S1" := "Survivor space 1 usage (%)",
    "ECMX" := "Maximum eden space capacity (KB)",
    "EC" := "Eden space capacity (KB)",
    "EU" := "Eden space usage (KB)",
    "E" := "Eden space usage (%)",
    "TT" := "Tenuring threshold",
    "MTT" := "Maximum tenuring threshold",
    "DSS" := "Desired survivor size (KB)",
    "OGCMN" := "Minimum old generation capacity (KB)",
    "OGCMX" := "Maximum old generation capacity (KB)",
    "OGC" := "Old generation capacity (KB)",
    "OC" := "Old space capacity (KB)",
    "OU" := "Old space usage (KB)",
    "O" := "Old space usage (%)",
    "PGCMN" := "Minimum permanent generation capacity (KB)",
    "PGCMX" := "Maximum permanent generation capacity (KB)",
    "PGC" := "Permanent generation capacity (KB)",
    "PC" := "Permanent space capacity (KB)",
    "PU" := "Permanent space usage (KB)",
    "P" := "Permanent space usage (%)",
    "YGC" := "Number of young generation GC Events",
    "YGCT" := "Young garbage collection total time",
    "FGC" := "Number of full GC Events",
    "FGCT" := "Full garbage collection total time",
    "GCT" := "Total garbage collection total time",
    "YGC#d/dt" := "Young generation GC Events per second",
    "YGCT#d/dt" := "Young garbage collection time per second",
    "FGC#d/dt" := "Full GC Events per second",
    "FGCT#d/dt" := "Full garbage collection time per second",
    "GCT#d/dt" := "Total garbage collection time per second",
    "Size" := "Number of bytes of bytecode for the method",
    "Type" := "Compilation type",
    "Method" := "Method name is the method within the given class"
  ]

  /** Suffix appended to a counter's name for the key of its rate chart. */
  const RateSuffix: string := "#d/dt"

  predicate EndsWith(s: string, c: char) {
    |s| > 0 && s[|s| - 1] == c
  }

  predicate StringEndsWith(s: string, suffix: string) {
    |suffix| <= |s| && s[|s| - |suffix|..] == suffix
  }

  predicate StartsWith(s: string, prefix: string) {
    |prefix| <= |s| && s[..|prefix|] == prefix
  }

  /** The chart title: the translator's entry, or none (a null title). */
  function Title(category: string): (t: Option<string>)
    ensures t.Some? <==> category in Translator
    ensures t.Some? ==> t.value == Translator[category]
  {
    if category in Translator then Some(Translator[category]) else None
  }

  /** Every counter's rate chart has a title. */
  lemma RateTitles()
    ensures forall c :: c in CounterCategories ==> Title(c + RateSuffix).Some?
  {
    forall c | c in CounterCategories
      ensures c + RateSuffix in Translator
    {
      if c == "YGC" { assert c + RateSuffix == "YGC#d/dt"; }
      else if c == "YGCT" { assert c + RateSuffix == "YGCT#d/dt"; }
      else if c == "FGC" { assert c + RateSuffix == "FGC#d/dt"; }
      else if c == "FGCT" { assert c + RateSuffix == "FGCT#d/dt"; }
      else { assert c + RateSuffix == "GCT#d/dt"; }
    }
  }

  /** The unit of a statistics block: decided by the last character alone. */
  function Unit(name: string): (u: string)
    ensures u == "kbytes" <==> EndsWith(name, 'U')
    ensures u == "sec" <==> EndsWith(name, 'T')
    ensures u == "collections" <==> EndsWith(name, 'C')
    ensures u == "unit" <==> !(EndsWith(name, 'U') || EndsWith(name, 'T') || EndsWith(name, 'C'))
  {
    var unit := if EndsWith(name, 'C') then "collections" else "unit";
    if EndsWith(name, 'U') then "kbytes" else if EndsWith(name, 'T') then "sec" else unit
  }

  /** The unit of the statistics of a counter's rate series. */
  function RateUnit(name: string): (u: string)
    ensures u == "sec/sec" <==> EndsWith(name, 'T')
    ensures u == "collections/sec" <==> !EndsWith(name, 'T')
  {
    if EndsWith(name, 'T') then "sec/sec" else "collections/sec"
  }

  /** The companion capacity column of a usage column: drop the last character
      and append "C". The source throws on an empty name, hence the requires. */
  function CapacityName(name: string): (c: string)
    requires |name| > 0
    ensures |c| == |name| && EndsWith(c, 'C')
    ensures forall k :: 0 <= k < |name| - 1 ==> c[k] == name[k]
  {
    name[..|name| - 1] + "C"
  }

  lemma CapacityNameExamples()
    ensures CapacityName("EU") == "EC"
    ensures CapacityName("S0U") == "S0C"
    ensures CapacityName("S0") == "SC"
    ensures CapacityName("E") == "C"
  {
  }

  /** Exactly these usage columns have a companion capacity category: a
      three-character name starting with "S0" or "S1", or a two-character name
      starting with 'E', 'O' or 'P'. */
  lemma CapacityNameMatches(name: string)
    requires |name| > 0
    ensures CapacityName(name) in CapacityCategories <==>
              (|name| == 3 && (name[..2] == "S0" || name[..2] == "S1")) ||
              (|name| == 2 && (name[0] == 'E' || name[0] == 'O' || name[0] == 'P'))
  {
    var c := CapacityName(name);
    if |name| == 3 && (name[..2] == "S0" || name[..2] == "S1") {
      assert c == name[..2] + "C";
    }
    if |name| == 2 && (name[0] == 'E' || name[0] == 'O' || name[0] == 'P') {
      assert c == [name[0]] + "C";
    }
    assert c[..|c| - 1] == name[..|name| - 1];
    if c == "S0C" {
      assert name[..2] == c[..2] == "S0";
    } else if c == "S1C" {
      assert name[..2] == c[..2] == "S1";
    } else if c == "EC" || c == "OC" || c == "PC" {
      assert name[0] == c[0];
    }
  }

  predicate IsAsciiAlphanumeric(c: char) {
    ('a' <= c <= 'z') || ('A' <= c <= 'Z') || ('0' <= c <= '9')
  }

  predicate AllAlphanumeric(s: string) {
    forall k :: 0 <= k < |s| ==> IsAsciiAlphanumeric(s[k])
  }

  /** The category name of a statistics line: every character outside
      [a-zA-Z0-9] removed. */
  function Sanitize(s: string): (r: string)
    ensures AllAlphanumeric(r)
    ensures |r| <= |s|
  {
    if |s| == 0 then ""
    else if IsAsciiAlphanumeric(s[|s| - 1]) then Sanitize(s[..|s| - 1]) + [s[|s| - 1]]
    else Sanitize(s[..|s| - 1])
  }

  /** Sanitising works character by character: together with SanitizeChar this
      says that it keeps exactly the alphanumeric characters, in order. */
  lemma {:induction false} SanitizeAppend(a: string, b: string)
    ensures Sanitize(a + b) == Sanitize(a) + Sanitize(b)
  {
    if |b| > 0 {
      var b' := b[..|b| - 1];
      assert (a + b)[..|a + b| - 1] == a + b';
      SanitizeAppend(a, b');
    } else {
      assert a + b == a;
    }
  }

  lemma SanitizeChar(c: char)
    ensures Sanitize([c]) == if IsAsciiAlphanumeric(c) then [c] else []
  {
    assert [c][..0] == [];
  }

  /** A name that is already alphanumeric is left as it is. */
  lemma {:induction false} SanitizeAlphanumeric(s: string)
    requires AllAlphanumeric(s)
    ensures Sanitize(s) == s
  {
    if |s| > 0 {
      SanitizeAlphanumeric(s[..|s| - 1]);
      assert s[..|s| - 1] + [s[|s| - 1]] == s;
    }
  }

  lemma SanitizeIdempotent(s: string)
    ensures Sanitize(Sanitize(s)) == Sanitize(s)
  {
    SanitizeAlphanumeric(Sanitize(s));
  }

  /** Rate charts of counters end up with "ddt" appended: "YGC#d/dt" becomes "YGCddt". */
  lemma SanitizeRateName(name: string)
    ensures Sanitize(name + RateSuffix) == Sanitize(name) + "ddt"
  {
    SanitizeAppend(name, RateSuffix);
    var s := RateSuffix;
    assert s[..4] == "#d/d" && s[..3] == "#d/" && s[..2] == "#d" && s[..1] == "#" && s[..0] == "";
    assert s[..4][..3] == s[..3] && s[..3][..2] == s[..2] && s[..2][..1] == s[..1] && s[..1][..0] == s[..0];
    assert Sanitize(s[..1]) == "";
    assert Sanitize(s[..2]) == "d";
    assert Sanitize(s[..3]) == "d";
    assert Sanitize(s[..4]) == "dd";
    assert Sanitize(s) == "ddt";
  }
}
