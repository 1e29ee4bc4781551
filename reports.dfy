/** The assembly of one report (Report.createReports): the header line and the
    data rows of one parsed CSV file become an ordered map from category key to
    chart, and, when statistics are on, the list of statistics blocks written to
    the stats file, in the order they are written. The rendering of the charts
    into the PDF document is not part of this model. */
module Reports {
  import opened Wrappers
  import opened Numbers
  import opened Categories
  import opened Series
  import opened Statistics
  import opened Arguments
  import opened ChartMaps

  /** The run-time exceptions that escape createReports and end the program. */
  datatype Crash =
    | MissingHeader                       // no first line, an empty first line, or nothing after "procs"
    | NoDataRows                          // values.get(0) on an empty list of rows
    | RowTooShort(row: nat, column: nat)  // value[i] beyond the end of a row
    | NotANumber(row: nat, column: nat)   // parseDouble on a cell outside row 0
    | EmptyCategoryName(column: nat)      // substring(0, -1) on an empty column name

  /** The insertion-ordered category map and the statistics blocks. */
  datatype Report = Report(charts: seq<Chart>, stats: seq<Stats>)

  /** The number reader the tool applies to cells (Double.parseDouble); None
      stands for its NumberFormatException. Numbers.ParseDouble is the one the
      tool uses (see ReportOfFile). */
  type Reader = string -> Option<real>

  /** Double.parseDouble(row[i]) on data row r. */
  function Cell(parse: Reader, row: seq<string>, r: nat, i: nat): Result<real, Crash> {
    if i >= |row| then Failure(RowTooShort(r, i))
    else match parse(row[i])
      case Some(x) => Success(x)
      case None => Failure(NotANumber(r, i))
  }

  /** Column i of every data row, or the exception of the first row whose cell
      is missing or not a number. */
  function ColumnValues(parse: Reader, rows: seq<seq<string>>, i: nat): (c: Result<seq<real>, Crash>)
    ensures c.Success? ==> |c.value| == |rows|
  {
    if |rows| == 0 then Success([])
    else
      var n := |rows| - 1;
      match ColumnValues(parse, rows[..n], i)
      case Failure(e) => Failure(e)
      case Success(prefix) =>
        match Cell(parse, rows[n], n, i)
        case Failure(e) => Failure(e)
        case Success(x) => Success(prefix + [x])
  }

  /** A column reads every row's cell in order: it holds every cell's number,
      or fails with the exception of the first row whose cell is missing or
      not a number. */
  lemma {:induction false} ColumnValuesMeaning(parse: Reader, rows: seq<seq<string>>, i: nat)
    ensures var c := ColumnValues(parse, rows, i);
      && (c.Success? ==> forall r :: 0 <= r < |rows| ==> Cell(parse, rows[r], r, i) == Success(c.value[r]))
      && (c.Success? <==> forall r :: 0 <= r < |rows| ==> Cell(parse, rows[r], r, i).Success?)
      && (c.Failure? ==>
            && (c.error.RowTooShort? || c.error.NotANumber?)
            && c.error.row < |rows|
            && Cell(parse, rows[c.error.row], c.error.row, i) == Failure(c.error)
            && forall q :: 0 <= q < c.error.row ==> Cell(parse, rows[q], q, i).Success?)
  {
    if |rows| > 0 {
      var n := |rows| - 1;
      ColumnValuesMeaning(parse, rows[..n], i);
      assert forall r :: 0 <= r < n ==> rows[..n][r] == rows[r];
    }
  }

  /** Once a prefix of the rows fails, the whole column fails the same way. */
  lemma {:induction false} ColumnFailureStays(parse: Reader, rows: seq<seq<string>>, m: nat, i: nat)
    requires m <= |rows| && ColumnValues(parse, rows[..m], i).Failure?
    ensures ColumnValues(parse, rows, i) == ColumnValues(parse, rows[..m], i)
  {
    if m < |rows| {
      var n := |rows| - 1;
      assert rows[..n][..m] == rows[..m];
      ColumnFailureStays(parse, rows[..n], m, i);
    } else {
      assert rows[..m] == rows;
    }
  }

  /** Report.getDoubleFromValues over the data rows. */
  method GetDoubleFromValues(parse: Reader, rows: seq<seq<string>>, i: nat) returns (c: Result<seq<real>, Crash>)
    ensures c == ColumnValues(parse, rows, i)
  {
    var valueData := new real[|rows|];
    var n := 0;
    assert rows[..0] == [];
    while n < |rows|
      invariant 0 <= n <= |rows|
      invariant ColumnValues(parse, rows[..n], i) == Success(valueData[..n])
    {
      var value := rows[n];
      assert rows[..n + 1][..n] == rows[..n];
      if i >= |value| {
        ColumnFailureStays(parse, rows, n + 1, i);
        return Failure(RowTooShort(n, i));
      }
      var x := parse(value[i]);
      if x.None? {
        ColumnFailureStays(parse, rows, n + 1, i);
        return Failure(NotANumber(n, i));
      }
      assert Cell(parse, rows[n], n, i) == Success(x.value);
      ghost var before := valueData[..n];
      valueData[n] := x.value;
      assert valueData[..n + 1] == before + [x.value];
      n := n + 1;
    }
    assert rows[..n] == rows;
    assert valueData[..n] == valueData[..];
    c := Success(valueData[..]);
  }

  /** The first column named x, or |h| when there is none. */
  function FirstIndex(h: seq<string>, x: string): (j: nat)
    ensures j <= |h| && (j < |h| <==> x in h)
    ensures j < |h| ==> h[j] == x
    ensures forall k :: 0 <= k < j ==> h[k] != x
  {
    if |h| == 0 then 0
    else if h[0] == x then 0
    else 1 + FirstIndex(h[1..], x)
  }

  /** The search for the companion capacity column, stopping at the first match. */
  method FindColumn(h: seq<string>, x: string) returns (j: nat)
    ensures j == FirstIndex(h, x)
  {
    j := 0;
    while j < |h|
      invariant 0 <= j <= |h|
      invariant forall k :: 0 <= k < j ==> h[k] != x
    {
      if h[j] == x {
        return;
      }
      j := j + 1;
    }
  }

  /** The column passes the table filters: selected (or all charts on) and not
      a capacity column. */
  predicate Charted(name: string, opts: Options) {
    (name in SelectedCategories || opts.allCharts) && name !in CapacityCategories
  }

  /** The capacity series that goes first in the chart of column i. */
  function CapacityLines(parse: Reader, h: seq<string>, rows: seq<seq<string>>, i: nat, xs: seq<real>)
    : (c: Result<seq<Line>, Crash>)
    requires i < |h| && |h[i]| > 0
    ensures c.Success? ==> |c.value| <= 1
  {
    var companion := CapacityName(h[i]);
    if companion !in CapacityCategories then Success([])
    else
      var j := FirstIndex(h, companion);
      if j == |h| then Success([])
      else match ColumnValues(parse, rows, j)
        case Failure(e) => Failure(e)
        case Success(v) => Success([Line(h[i] + " capacity", xs, v)])
  }

  /** There is a capacity series exactly when the companion name is a capacity
      category that appears in the header; it plots the first column of that
      name, and fails as reading that column fails. */
  lemma CapacityLinesMeaning(parse: Reader, h: seq<string>, rows: seq<seq<string>>, i: nat, xs: seq<real>)
    requires i < |h| && |h[i]| > 0
    ensures var c := CapacityLines(parse, h, rows, i, xs); var companion := CapacityName(h[i]);
      && (c.Success? ==> (|c.value| == 1 <==> companion in CapacityCategories && companion in h))
      && (c.Success? && |c.value| == 1 ==>
            && c.value[0].name == h[i] + " capacity"
            && c.value[0].xs == xs
            && ColumnValues(parse, rows, FirstIndex(h, companion)) == Success(c.value[0].ys))
      && (c.Failure? ==> companion in CapacityCategories && companion in h
                         && ColumnValues(parse, rows, FirstIndex(h, companion)) == Failure(c.error))
      && (c.Success? ==> forall l :: l in c.value ==> l.xs == xs && |l.ys| == |rows|)
  {
  }

  /** The chart of a numeric column: capacity (if any), running average, raw. */
  function MainChart(name: string, xs: seq<real>, capacity: seq<Line>, raw: seq<real>): Chart {
    Chart(name, capacity + [Line(name + " average", xs, Means(raw)), Line(name, xs, raw)])
  }

  /** The rate chart of a counter: running average of the rate, then the rate. */
  function RateChart(name: string, xs: seq<real>, raw: seq<real>): Chart {
    var rate := Diff(raw);
    Chart(name + RateSuffix, [Line(name + " average", xs, Means(rate)), Line(name, xs, rate)])
  }

  /** The keys a numeric column puts into the map: its name, and its rate key for a counter. */
  function ColumnKeys(name: string): seq<string> {
    [name] + (if name in CounterCategories then [name + RateSuffix] else [])
  }

  /** The statistics blocks of a numeric column, one per key it puts: its own,
      and its rate's for a counter. */
  function ColumnStats(name: string, raw: seq<real>): (s: seq<Stats>)
    requires |raw| > 0
    ensures |s| == |ColumnKeys(name)|
    ensures forall q :: 0 <= q < |s| ==> s[q].category == Sanitize(ColumnKeys(name)[q]) && s[q].samples == |raw| - 1
  {
    [StatsOf(name, Unit(name), raw)]
      + (if name in CounterCategories then [StatsOf(name + RateSuffix, RateUnit(name), Diff(raw))] else [])
  }

  // ----- One column's contribution and the column loop -----

  /** What one column contributes when it passes: its charts, main then rate,
      and the statistics blocks it writes. */
  datatype Part = Part(charts: seq<Chart>, stats: seq<Stats>)

  /** The contribution of each column by index: a failure, None for a skipped
      column, or its part. */
  type Column = nat -> Result<Option<Part>, Crash>

  /** The charts a numeric column puts, keyed by its keys. */
  function ColumnCharts(name: string, xs: seq<real>, capacity: seq<Line>, raw: seq<real>): (cs: seq<Chart>)
    ensures Keys(cs) == ColumnKeys(name)
  {
    [MainChart(name, xs, capacity, raw)] + (if name in CounterCategories then [RateChart(name, xs, raw)] else [])
  }

  /** One iteration of the column loop, apart from the puts into the map: the
      filters, the exceptions it throws, and what it would put and write. */
  function ColumnPart(parse: Reader, h: seq<string>, rows: seq<seq<string>>, opts: Options, xs: seq<real>, i: nat)
    : Result<Option<Part>, Crash>
    requires i < |h|
  {
    var name := h[i];
    if !Charted(name, opts) then Success(None)
    else if |rows| == 0 then Failure(NoDataRows)
    else if i >= |rows[0]| then Failure(RowTooShort(0, i))
    else if parse(rows[0][i]).None? then Success(None)
    else match ColumnValues(parse, rows, i)
      case Failure(e) => Failure(e)
      case Success(raw) =>
        if |name| == 0 then Failure(EmptyCategoryName(i))
        else match CapacityLines(parse, h, rows, i, xs)
          case Failure(e) => Failure(e)
          case Success(capacity) =>
            Success(Some(Part(ColumnCharts(name, xs, capacity, raw),
                              if opts.statsFile then ColumnStats(name, raw) else [])))
  }

  /** The columns of a header over its data rows. */
  function Columns(parse: Reader, h: seq<string>, rows: seq<seq<string>>, opts: Options, xs: seq<real>): Column {
    (i: nat) => if i < |h| then ColumnPart(parse, h, rows, opts, xs, i) else Success(None)
  }

  lemma ColumnsAt(parse: Reader, h: seq<string>, rows: seq<seq<string>>, opts: Options, xs: seq<real>, i: nat)
    requires i < |h|
    ensures Columns(parse, h, rows, opts, xs)(i) == ColumnPart(parse, h, rows, opts, xs, i)
  {
  }

  /** Adds a column's contribution to the report: its charts are put into the
      map in order and its statistics blocks are appended. */
  function AddColumn(acc: Report, c: Result<Option<Part>, Crash>): Result<Report, Crash> {
    match c
    case Failure(e) => Failure(e)
    case Success(None) => Success(acc)
    case Success(Some(p)) => Success(Report(PutAll(acc.charts, p.charts), acc.stats + p.stats))
  }

  /** The report after the first k columns. */
  function Fold(column: Column, k: nat): Result<Report, Crash> {
    if k == 0 then Success(Report([], []))
    else match Fold(column, k - 1)
      case Failure(e) => Failure(e)
      case Success(acc) => AddColumn(acc, column(k - 1))
  }

  /** The report of a header and its data rows, on the x-axis period * n. */
  function Build(parse: Reader, h: seq<string>, rows: seq<seq<string>>, opts: Options): Result<Report, Crash> {
    Fold(Columns(parse, h, rows, opts, Axis(opts.period, |rows|)), |h|)
  }

  /** What a column added; nothing when it was skipped or failed. */
  function Contribution(c: Result<Option<Part>, Crash>): Part {
    if c.Success? && c.value.Some? then c.value.value else Part([], [])
  }

  /** Every chart put by the first k columns, in order. */
  function Puts(column: Column, k: nat): seq<Chart> {
    if k == 0 then [] else Puts(column, k - 1) + Contribution(column(k - 1)).charts
  }

  /** Every statistics block written by the first k columns, in order. */
  function Written(column: Column, k: nat): seq<Stats> {
    if k == 0 then [] else Written(column, k - 1) + Contribution(column(k - 1)).stats
  }

  /** Once a column fails, the whole report fails the same way. */
  lemma {:induction false} FoldFailureStays(column: Column, k: nat, m: nat)
    requires k <= m && Fold(column, k).Failure?
    ensures Fold(column, m) == Fold(column, k)
  {
    if k < m {
      FoldFailureStays(column, k, m - 1);
    }
  }

  /** One more column of the loop. */
  lemma FoldNext(column: Column, i: nat, acc: Report)
    requires Fold(column, i) == Success(acc)
    ensures Fold(column, i + 1) == AddColumn(acc, column(i))
  {
  }

  /** A successful report went through every column without an exception. */
  lemma {:induction false} FoldSuccess(column: Column, i: nat, k: nat)
    requires i < k && Fold(column, k).Success?
    ensures Fold(column, i).Success? && column(i).Success?
  {
    if i < k - 1 {
      FoldSuccess(column, i, k - 1);
    }
  }

  /** None of the first k columns throws. */
  predicate NoneThrows(column: Column, k: nat) {
    forall i :: 0 <= i < k ==> column(i).Success?
  }

  lemma FoldNoneThrows(column: Column, k: nat)
    requires Fold(column, k).Success?
    ensures NoneThrows(column, k)
  {
    forall i | 0 <= i < k
      ensures column(i).Success?
    {
      FoldSuccess(column, i, k);
    }
  }

  /** The map's key order is that of the keys put, each at its first put. */
  lemma {:induction false} FoldKeys(column: Column, k: nat)
    requires Fold(column, k).Success?
    ensures Keys(Fold(column, k).value.charts) == InsertAll(Keys(Puts(column, k)))
  {
    if k > 0 {
      FoldKeys(column, k - 1);
      var acc := Fold(column, k - 1).value;
      var p := Contribution(column(k - 1));
      PutAllKeys(acc.charts, p.charts, Keys(Puts(column, k - 1)));
      KeysConcat(Puts(column, k - 1), p.charts);
    }
  }

  /** Without a key put twice, the map is every chart put, in put order. */
  lemma {:induction false} FoldFresh(column: Column, k: nat)
    requires Fold(column, k).Success? && NoDup(Keys(Puts(column, k)))
    ensures Fold(column, k).value.charts == Puts(column, k)
  {
    if k > 0 {
      var before := Puts(column, k - 1);
      var p := Contribution(column(k - 1));
      KeysConcat(before, p.charts);
      NoDupPrefix(Keys(Puts(column, k)), |before|);
      assert Keys(Puts(column, k))[..|before|] == Keys(before);
      FoldFresh(column, k - 1);
      PutAllFresh(before, p.charts);
    }
  }

  /** The statistics blocks are every block written, in order. */
  lemma {:induction false} FoldStats(column: Column, k: nat)
    requires Fold(column, k).Success?
    ensures Fold(column, k).value.stats == Written(column, k)
  {
    if k > 0 {
      FoldStats(column, k - 1);
    }
  }

  /** Every chart of the map is one that was put. */
  lemma {:induction false} FoldMembers(column: Column, k: nat)
    requires Fold(column, k).Success?
    ensures forall c :: c in Fold(column, k).value.charts ==> c in Puts(column, k)
  {
    if k > 0 {
      FoldMembers(column, k - 1);
      var acc := Fold(column, k - 1).value;
      PutAllMembers(acc.charts, Contribution(column(k - 1)).charts);
    }
  }

  lemma {:induction false} PutsPrefix(column: Column, i: nat, k: nat)
    requires i <= k
    ensures Puts(column, i) <= Puts(column, k)
  {
    if i < k {
      PutsPrefix(column, i, k - 1);
    }
  }

  /** The header and the data rows of a parsed file: a first line whose first
      field starts with "procs" is skipped and the next line is the header. */
  function SplitHeader(lines: seq<seq<string>>): (s: Result<(seq<string>, seq<seq<string>>), Crash>)
    ensures s.Failure? <==>
              |lines| == 0 || |lines[0]| == 0 || (StartsWith(lines[0][0], "procs") && |lines| == 1)
    ensures s.Failure? ==> s.error == MissingHeader
    ensures s.Success? && StartsWith(lines[0][0], "procs") ==> s.value == (lines[1], lines[2..])
    ensures s.Success? && !StartsWith(lines[0][0], "procs") ==> s.value == (lines[0], lines[1..])
  {
    if |lines| == 0 || |lines[0]| == 0 then Failure(MissingHeader)
    else if StartsWith(lines[0][0], "procs") then
      if |lines| < 2 then Failure(MissingHeader) else Success((lines[1], lines[2..]))
    else Success((lines[0], lines[1..]))
  }

  /** The report of one parsed CSV file. */
  function ReportOf(parse: Reader, lines: seq<seq<string>>, opts: Options): Result<Report, Crash> {
    match SplitHeader(lines)
    case Failure(e) => Failure(e)
    case Success(split) => Build(parse, split.0, split.1, opts)
  }

  /** The report with the tool's own number reader. */
  function ReportOfFile(lines: seq<seq<string>>, opts: Options): Result<Report, Crash> {
    ReportOf(ParseDouble, lines, opts)
  }

  // ----- The keys of the category map -----

  /** Column i contributes: it passes the filters and its row-0 cell is numeric. */
  predicate Kept(parse: Reader, h: seq<string>, rows: seq<seq<string>>, opts: Options, i: nat)
    requires i < |h|
  {
    Charted(h[i], opts) && |rows| > 0 && i < |rows[0]| && parse(rows[0][i]).Some?
  }

  /** The keys column i puts into the map, in order. */
  function Added(parse: Reader, h: seq<string>, rows: seq<seq<string>>, opts: Options, i: nat): seq<string>
    requires i < |h|
  {
    if Kept(parse, h, rows, opts, i) then ColumnKeys(h[i]) else []
  }

  /** What each column puts into the map, by column index. */
  type Source = nat -> seq<string>

  /** Every put of the first k columns of a source, in order. */
  function Log(added: Source, k: nat): seq<string> {
    if k == 0 then [] else Log(added, k - 1) + added(k - 1)
  }

  /** The keys the columns of a header put. */
  function AddedBy(parse: Reader, h: seq<string>, rows: seq<seq<string>>, opts: Options): Source {
    (i: nat) => if i < |h| then Added(parse, h, rows, opts, i) else []
  }

  /** Every put of the first k columns of a header, in order. */
  function KeyLog(parse: Reader, h: seq<string>, rows: seq<seq<string>>, opts: Options, k: nat): seq<string>
    requires k <= |h|
  {
    Log(AddedBy(parse, h, rows, opts), k)
  }

  /** A header with distinct names, none of which looks like a rate key. */
  predicate PlainHeader(h: seq<string>) {
    NoDup(h) && forall a :: 0 <= a < |h| ==> !StringEndsWith(h[a], RateSuffix)
  }

  /** What a column contributes when it throws nothing: nothing when it is not
      kept; otherwise its charts and, when statistics are on, its blocks. */
  lemma ColumnPartShape(parse: Reader, h: seq<string>, rows: seq<seq<string>>, opts: Options, xs: seq<real>, i: nat)
    requires i < |h| && ColumnPart(parse, h, rows, opts, xs, i).Success?
    ensures var c := ColumnPart(parse, h, rows, opts, xs, i).value;
      && (c.Some? <==> Kept(parse, h, rows, opts, i))
      && (c.Some? ==>
            && ColumnValues(parse, rows, i).Success? && |h[i]| > 0 && CapacityLines(parse, h, rows, i, xs).Success?
            && var raw := ColumnValues(parse, rows, i).value;
               && c.value.charts == ColumnCharts(h[i], xs, CapacityLines(parse, h, rows, i, xs).value, raw)
               && c.value.stats == if opts.statsFile then ColumnStats(h[i], raw) else [])
  {
  }

  /** Each of the first n columns puts the keys the source records for it. */
  predicate KeysAgree(column: Column, added: Source, n: nat) {
    forall i :: 0 <= i < n && column(i).Success? ==> Keys(Contribution(column(i)).charts) == added(i)
  }

  lemma ColumnsKeys(parse: Reader, h: seq<string>, rows: seq<seq<string>>, opts: Options, xs: seq<real>)
    ensures KeysAgree(Columns(parse, h, rows, opts, xs), AddedBy(parse, h, rows, opts), |h|)
  {
    var column := Columns(parse, h, rows, opts, xs);
    forall i | 0 <= i < |h| && column(i).Success?
      ensures Keys(Contribution(column(i)).charts) == AddedBy(parse, h, rows, opts)(i)
    {
      assert column(i) == ColumnPart(parse, h, rows, opts, xs, i);
      ColumnPartShape(parse, h, rows, opts, xs, i);
    }
  }

  /** The keys put by columns that throw nothing are the log of the source. */
  lemma {:induction false} PutsKeys(column: Column, added: Source, k: nat)
    requires NoneThrows(column, k) && KeysAgree(column, added, k)
    ensures Keys(Puts(column, k)) == Log(added, k)
  {
    if k > 0 {
      assert column(k - 1).Success?;
      PutsKeys(column, added, k - 1);
      KeysConcat(Puts(column, k - 1), Contribution(column(k - 1)).charts);
    }
  }

  lemma {:induction false} LogPrefix(added: Source, i: nat, k: nat)
    requires i <= k
    ensures Log(added, i) <= Log(added, k)
  {
    if i < k {
      LogPrefix(added, i, k - 1);
    }
  }

  /** The keys of column i sit in the log right after those of the columns before it. */
  lemma LogAt(added: Source, i: nat, k: nat, q: nat)
    requires i < k && q < |added(i)|
    ensures |Log(added, i)| + q < |Log(added, k)|
    ensures Log(added, k)[|Log(added, i)| + q] == added(i)[q]
  {
    LogPrefix(added, i + 1, k);
    assert Log(added, i + 1) == Log(added, i) + added(i);
  }

  /** The log of the first j columns holds all keys of column i < j. */
  lemma LogAfter(added: Source, i: nat, j: nat)
    requires i < j
    ensures |Log(added, i)| + |added(i)| <= |Log(added, j)|
  {
    LogPrefix(added, i + 1, j);
  }

  /** A key in the log was put by one of the columns before. */
  lemma {:induction false} LogSource(added: Source, k: nat, x: string) returns (j: nat)
    requires x in Log(added, k)
    ensures j < k && x in added(j)
  {
    assert k > 0;
    if x in added(k - 1) {
      j := k - 1;
    } else {
      j := LogSource(added, k - 1, x);
    }
  }

  /** A key put by one of the columns is in the log from then on. */
  lemma LogHas(added: Source, j: nat, k: nat, x: string)
    requires j < k && x in added(j)
    ensures x in Log(added, k)
  {
    LogPrefix(added, j + 1, k);
  }

  /** No two of the first k columns put the same key, and none puts one twice. */
  predicate Separate(added: Source, k: nat) {
    && (forall j :: 0 <= j < k ==> NoDup(added(j)))
    && (forall j, m, x :: 0 <= j < m < k && x in added(j) ==> x !in added(m))
  }

  lemma NoDupConcat(a: seq<string>, b: seq<string>)
    requires NoDup(a) && NoDup(b)
    requires forall x :: x in a ==> x !in b
    ensures NoDup(a + b)
  {
    forall p, q | 0 <= p < q < |a + b|
      ensures (a + b)[p] != (a + b)[q]
    {
      if q >= |a| && p < |a| {
        assert (a + b)[p] in a;
        assert (a + b)[q] == b[q - |a|];
      }
    }
  }

  /** The log of separate columns has no key twice. */
  lemma {:induction false} LogDistinct(added: Source, k: nat)
    requires Separate(added, k)
    ensures NoDup(Log(added, k))
  {
    if k > 0 {
      assert Separate(added, k - 1);
      LogDistinct(added, k - 1);
      var log := Log(added, k - 1);
      forall x | x in log
        ensures x !in added(k - 1)
      {
        var j := LogSource(added, k - 1, x);
      }
      NoDupConcat(log, added(k - 1));
    }
  }

  /** A key in the header's log was put by one of the columns before. */
  lemma KeyLogSource(parse: Reader, h: seq<string>, rows: seq<seq<string>>, opts: Options, k: nat, x: string)
    returns (j: nat)
    requires k <= |h| && x in KeyLog(parse, h, rows, opts, k)
    ensures j < k && x in Added(parse, h, rows, opts, j)
  {
    j := LogSource(AddedBy(parse, h, rows, opts), k, x);
  }

  /** A key put by one of the columns is in the header's log from then on. */
  lemma KeyLogHas(parse: Reader, h: seq<string>, rows: seq<seq<string>>, opts: Options, j: nat, k: nat, x: string)
    requires j < k <= |h| && x in Added(parse, h, rows, opts, j)
    ensures x in KeyLog(parse, h, rows, opts, k)
  {
    LogHas(AddedBy(parse, h, rows, opts), j, k, x);
  }

  /** The keys put are the kept columns' names and, for kept counters, their rate keys. */
  lemma KeyLogMembers(parse: Reader, h: seq<string>, rows: seq<seq<string>>, opts: Options, k: nat, x: string)
    requires k <= |h|
    ensures x in KeyLog(parse, h, rows, opts, k) <==> exists j :: 0 <= j < k && x in Added(parse, h, rows, opts, j)
  {
    if x in KeyLog(parse, h, rows, opts, k) {
      var j := KeyLogSource(parse, h, rows, opts, k, x);
    }
    forall j | 0 <= j < k && x in Added(parse, h, rows, opts, j)
      ensures x in KeyLog(parse, h, rows, opts, k)
    {
      KeyLogHas(parse, h, rows, opts, j, k, x);
    }
  }

  lemma RateKeyEnds(name: string)
    ensures StringEndsWith(name + RateSuffix, RateSuffix)
  {
    assert (name + RateSuffix)[|name|..] == RateSuffix;
  }

  lemma RateKeyCancels(a: string, b: string)
    requires a + RateSuffix == b + RateSuffix
    ensures a == b
  {
    assert a == (a + RateSuffix)[..|a|];
    assert b == (b + RateSuffix)[..|b|];
  }

  /** Two different columns of a plain header never put the same key. */
  lemma AddedDisjoint(parse: Reader, h: seq<string>, rows: seq<seq<string>>, opts: Options, j: nat, m: nat, x: string)
    requires PlainHeader(h) && j < m < |h|
    requires x in Added(parse, h, rows, opts, j)
    ensures x !in Added(parse, h, rows, opts, m)
  {
    RateKeyEnds(h[j]);
    RateKeyEnds(h[m]);
    if x == h[j] + RateSuffix && x == h[m] + RateSuffix {
      RateKeyCancels(h[j], h[m]);
    }
  }

  /** A column never puts the same key twice: a rate key is longer than the name. */
  lemma AddedDistinct(parse: Reader, h: seq<string>, rows: seq<seq<string>>, opts: Options, j: nat)
    requires j < |h|
    ensures NoDup(Added(parse, h, rows, opts, j))
  {
    var added := Added(parse, h, rows, opts, j);
    if |added| == 2 {
      assert |added[1]| == |added[0]| + |RateSuffix|;
    }
  }

  /** A plain header never puts a key twice. */
  lemma KeyLogDistinct(parse: Reader, h: seq<string>, rows: seq<seq<string>>, opts: Options, k: nat)
    requires k <= |h| && PlainHeader(h)
    ensures NoDup(KeyLog(parse, h, rows, opts, k))
  {
    var added := AddedBy(parse, h, rows, opts);
    forall j | 0 <= j < k
      ensures NoDup(added(j))
    {
      AddedDistinct(parse, h, rows, opts, j);
    }
    forall j, m, x | 0 <= j < m < k && x in added(j)
      ensures x !in added(m)
    {
      AddedDisjoint(parse, h, rows, opts, j, m, x);
    }
    LogDistinct(added, k);
  }

  /** The map's keys are exactly the keys put; on a plain header they are in put
      order, with no key put twice. */
  lemma ChartKeys(parse: Reader, h: seq<string>, rows: seq<seq<string>>, opts: Options)
    requires Build(parse, h, rows, opts).Success?
    ensures forall x :: x in Keys(Build(parse, h, rows, opts).value.charts) <==> x in KeyLog(parse, h, rows, opts, |h|)
    ensures PlainHeader(h) ==> Keys(Build(parse, h, rows, opts).value.charts) == KeyLog(parse, h, rows, opts, |h|)
  {
    var column := Columns(parse, h, rows, opts, Axis(opts.period, |rows|));
    var log := KeyLog(parse, h, rows, opts, |h|);
    FoldKeys(column, |h|);
    ColumnsKeys(parse, h, rows, opts, Axis(opts.period, |rows|));
    FoldNoneThrows(column, |h|);
    PutsKeys(column, AddedBy(parse, h, rows, opts), |h|);
    InsertAllMembers(log);
    if PlainHeader(h) {
      KeyLogDistinct(parse, h, rows, opts, |h|);
      InsertAllDistinct(log);
    }
  }

  /** A key put by column j is its name, or its rate key when it is a counter. */
  lemma AddedFrom(parse: Reader, h: seq<string>, rows: seq<seq<string>>, opts: Options, j: nat, x: string)
    requires j < |h| && x in Added(parse, h, rows, opts, j)
    ensures Kept(parse, h, rows, opts, j)
    ensures x == h[j] || (x == h[j] + RateSuffix && h[j] in CounterCategories)
  {
  }

  lemma SameColumn(h: seq<string>, i: nat, j: nat)
    requires NoDup(h) && i < |h| && j < |h| && h[i] == h[j]
    ensures i == j
  {
  }

  /** On a plain header, a column's name is put exactly when it is kept. */
  lemma NamePut(parse: Reader, h: seq<string>, rows: seq<seq<string>>, opts: Options, i: nat)
    requires PlainHeader(h) && i < |h|
    ensures h[i] in KeyLog(parse, h, rows, opts, |h|) <==> Kept(parse, h, rows, opts, i)
  {
    var name := h[i];
    if name in KeyLog(parse, h, rows, opts, |h|) {
      var j := KeyLogSource(parse, h, rows, opts, |h|, name);
      AddedFrom(parse, h, rows, opts, j, name);
      RateKeyEnds(h[j]);
      assert !StringEndsWith(h[i], RateSuffix);
      SameColumn(h, i, j);
    }
    if Kept(parse, h, rows, opts, i) {
      KeyLogHas(parse, h, rows, opts, i, |h|, name);
    }
  }

  /** On a plain header, a column's rate key is put exactly when it is a kept counter. */
  lemma RateKeyPut(parse: Reader, h: seq<string>, rows: seq<seq<string>>, opts: Options, i: nat)
    requires PlainHeader(h) && i < |h|
    ensures h[i] + RateSuffix in KeyLog(parse, h, rows, opts, |h|) <==>
              Kept(parse, h, rows, opts, i) && h[i] in CounterCategories
  {
    var key := h[i] + RateSuffix;
    if key in KeyLog(parse, h, rows, opts, |h|) {
      var j := KeyLogSource(parse, h, rows, opts, |h|, key);
      AddedFrom(parse, h, rows, opts, j, key);
      RateKeyEnds(h[i]);
      assert !StringEndsWith(h[j], RateSuffix);
      RateKeyCancels(h[i], h[j]);
      SameColumn(h, i, j);
    }
    if Kept(parse, h, rows, opts, i) && h[i] in CounterCategories {
      KeyLogHas(parse, h, rows, opts, i, |h|, key);
    }
  }

  /** On a plain header, a column has a chart exactly when it is kept, and a
      rate chart exactly when it is a kept counter. */
  lemma ColumnCharted(parse: Reader, h: seq<string>, rows: seq<seq<string>>, opts: Options, i: nat)
    requires Build(parse, h, rows, opts).Success? && PlainHeader(h) && i < |h|
    ensures h[i] in Keys(Build(parse, h, rows, opts).value.charts) <==> Kept(parse, h, rows, opts, i)
    ensures h[i] + RateSuffix in Keys(Build(parse, h, rows, opts).value.charts) <==>
              Kept(parse, h, rows, opts, i) && h[i] in CounterCategories
  {
    ChartKeys(parse, h, rows, opts);
    NamePut(parse, h, rows, opts, i);
    RateKeyPut(parse, h, rows, opts, i);
  }

  /** Each kept column's key sits at the number of keys put before it, its
      rate key right after it, and later columns come later. */
  lemma ChartOrder(parse: Reader, h: seq<string>, rows: seq<seq<string>>, opts: Options, i: nat, j: nat)
    requires i < j <= |h| && Kept(parse, h, rows, opts, i)
    ensures var log := KeyLog(parse, h, rows, opts, |h|); var p := |KeyLog(parse, h, rows, opts, i)|;
      && p < |log| && log[p] == h[i]
      && (h[i] in CounterCategories ==> p + 1 < |log| && log[p + 1] == h[i] + RateSuffix)
      && p + |Added(parse, h, rows, opts, i)| <= |KeyLog(parse, h, rows, opts, j)|
  {
    var added := AddedBy(parse, h, rows, opts);
    KeptKeys(parse, h, rows, opts, i);
    LogAt(added, i, |h|, 0);
    if h[i] in CounterCategories {
      LogAt(added, i, |h|, 1);
    }
    LogAfter(added, i, j);
  }

  /** A kept column puts its name, then its rate key when it is a counter. */
  lemma KeptKeys(parse: Reader, h: seq<string>, rows: seq<seq<string>>, opts: Options, i: nat)
    requires i < |h| && Kept(parse, h, rows, opts, i)
    ensures var added := AddedBy(parse, h, rows, opts)(i);
      && added == Added(parse, h, rows, opts, i)
      && 0 < |added| && added[0] == h[i]
      && (h[i] in CounterCategories ==> 1 < |added| && added[1] == h[i] + RateSuffix)
  {
  }

  // ----- The charts of the category map -----

  /** The charts of column i sit at position p of the map. */
  predicate ChartsAt(parse: Reader, h: seq<string>, rows: seq<seq<string>>, xs: seq<real>, i: nat,
                     charts: seq<Chart>, p: nat)
    requires i < |h|
  {
    && ColumnValues(parse, rows, i).Success? && |h[i]| > 0 && CapacityLines(parse, h, rows, i, xs).Success?
    && var raw := ColumnValues(parse, rows, i).value;
       && p < |charts| && charts[p] == MainChart(h[i], xs, CapacityLines(parse, h, rows, i, xs).value, raw)
       && (h[i] in CounterCategories ==> p + 1 < |charts| && charts[p + 1] == RateChart(h[i], xs, raw))
  }

  /** On a plain header, the chart of each kept column sits at its key's place:
      the first capacity column of its companion name (if that is a capacity
      category), the running average, then the raw values; a counter's rate
      chart follows with the running average of the rate and the rate. */
  lemma ChartContents(parse: Reader, h: seq<string>, rows: seq<seq<string>>, opts: Options, i: nat)
    requires Build(parse, h, rows, opts).Success? && PlainHeader(h) && i < |h| && Kept(parse, h, rows, opts, i)
    ensures ChartsAt(parse, h, rows, Axis(opts.period, |rows|), i, Build(parse, h, rows, opts).value.charts,
                     |KeyLog(parse, h, rows, opts, i)|)
  {
    var xs := Axis(opts.period, |rows|);
    var column := Columns(parse, h, rows, opts, xs);
    KeyLogDistinct(parse, h, rows, opts, |h|);
    ColumnsKeys(parse, h, rows, opts, xs);
    FoldNoneThrows(column, |h|);
    PutsKeys(column, AddedBy(parse, h, rows, opts), |h|);
    FoldFresh(column, |h|);
    FoldSuccess(column, i, |h|);
    assert NoneThrows(column, i);
    PutsKeys(column, AddedBy(parse, h, rows, opts), i);
    ColumnAt(parse, h, rows, opts, xs, i);
    PutsAt(column, i, |h|, 0);
    if h[i] in CounterCategories {
      PutsAt(column, i, |h|, 1);
    }
  }

  /** A kept column's own charts, as ChartsAt states them at position 0. */
  lemma ColumnAt(parse: Reader, h: seq<string>, rows: seq<seq<string>>, opts: Options, xs: seq<real>, i: nat)
    requires i < |h| && Kept(parse, h, rows, opts, i) && Columns(parse, h, rows, opts, xs)(i).Success?
    ensures ChartsAt(parse, h, rows, xs, i, Contribution(Columns(parse, h, rows, opts, xs)(i)).charts, 0)
  {
    assert Columns(parse, h, rows, opts, xs)(i) == ColumnPart(parse, h, rows, opts, xs, i);
    ColumnPartShape(parse, h, rows, opts, xs, i);
  }

  /** The charts of column i follow the charts of the columns before it. */
  lemma PutsAt(column: Column, i: nat, k: nat, q: nat)
    requires i < k && q < |Contribution(column(i)).charts|
    ensures |Puts(column, i)| + q < |Puts(column, k)|
    ensures Puts(column, k)[|Puts(column, i)| + q] == Contribution(column(i)).charts[q]
  {
    PutsPrefix(column, i + 1, k);
    assert Puts(column, i + 1) == Puts(column, i) + Contribution(column(i)).charts;
  }

  /** Every series of chart c is drawn over xs with n points. */
  predicate ChartAligned(c: Chart, xs: seq<real>, n: nat) {
    forall l :: l in c.lines ==> l.xs == xs && |l.ys| == n
  }

  /** Every series of a column's charts is drawn over xs with one point per sample. */
  lemma ColumnChartsAligned(name: string, xs: seq<real>, capacity: seq<Line>, raw: seq<real>)
    requires |xs| == |raw|
    requires forall l :: l in capacity ==> l.xs == xs && |l.ys| == |raw|
    ensures forall c :: c in ColumnCharts(name, xs, capacity, raw) ==> ChartAligned(c, xs, |raw|)
  {
    var cs := ColumnCharts(name, xs, capacity, raw);
    assert ChartAligned(cs[0], xs, |raw|);
    if name in CounterCategories {
      assert ChartAligned(cs[1], xs, |raw|);
    }
  }

  /** Every chart each of the first k columns puts is aligned with xs and has n points. */
  predicate PartsAligned(column: Column, xs: seq<real>, n: nat, k: nat) {
    forall i :: 0 <= i < k && column(i).Success? ==>
      forall c :: c in Contribution(column(i)).charts ==> ChartAligned(c, xs, n)
  }

  lemma ColumnsAligned(parse: Reader, h: seq<string>, rows: seq<seq<string>>, opts: Options, xs: seq<real>)
    requires |xs| == |rows|
    ensures PartsAligned(Columns(parse, h, rows, opts, xs), xs, |rows|, |h|)
  {
    var column := Columns(parse, h, rows, opts, xs);
    forall i | 0 <= i < |h| && column(i).Success?
      ensures forall c :: c in Contribution(column(i)).charts ==> ChartAligned(c, xs, |rows|)
    {
      assert column(i) == ColumnPart(parse, h, rows, opts, xs, i);
      ColumnPartShape(parse, h, rows, opts, xs, i);
      if Kept(parse, h, rows, opts, i) {
        CapacityLinesMeaning(parse, h, rows, i, xs);
        ColumnChartsAligned(h[i], xs, CapacityLines(parse, h, rows, i, xs).value, ColumnValues(parse, rows, i).value);
      }
    }
  }

  lemma {:induction false} PutsAligned(column: Column, xs: seq<real>, n: nat, k: nat)
    requires NoneThrows(column, k) && PartsAligned(column, xs, n, k)
    ensures forall c :: c in Puts(column, k) ==> ChartAligned(c, xs, n)
  {
    if k > 0 {
      assert column(k - 1).Success?;
      assert PartsAligned(column, xs, n, k - 1);
      PutsAligned(column, xs, n, k - 1);
    }
  }

  /** Every series of every chart is drawn over the same x-axis and has one
      point per data row. */
  lemma LinesAligned(parse: Reader, h: seq<string>, rows: seq<seq<string>>, opts: Options)
    requires Build(parse, h, rows, opts).Success?
    ensures forall c, l :: c in Build(parse, h, rows, opts).value.charts && l in c.lines ==>
              l.xs == Axis(opts.period, |rows|) && |l.ys| == |rows|
  {
    var xs := Axis(opts.period, |rows|);
    var column := Columns(parse, h, rows, opts, xs);
    FoldMembers(column, |h|);
    ColumnsAligned(parse, h, rows, opts, xs);
    FoldNoneThrows(column, |h|);
    PutsAligned(column, xs, |rows|, |h|);
    forall c | c in Build(parse, h, rows, opts).value.charts
      ensures ChartAligned(c, xs, |rows|)
    {
      assert c in Puts(column, |h|);
    }
  }

  // ----- The statistics blocks -----

  /** Block p is named after key p and counts the given number of samples. */
  predicate Named(stats: seq<Stats>, log: seq<string>, samples: int) {
    |stats| == |log| && forall p :: 0 <= p < |stats| ==> stats[p].category == Sanitize(log[p]) && stats[p].samples == samples
  }

  lemma NamedConcat(a: seq<Stats>, b: seq<Stats>, x: seq<string>, y: seq<string>, samples: int)
    requires Named(a, x, samples) && Named(b, y, samples)
    ensures Named(a + b, x + y, samples)
  {
    forall p | 0 <= p < |a + b|
      ensures (a + b)[p].category == Sanitize((x + y)[p]) && (a + b)[p].samples == samples
    {
      if p < |a| {
        assert (a + b)[p] == a[p] && (x + y)[p] == x[p];
      } else {
        assert (a + b)[p] == b[p - |a|] && (x + y)[p] == y[p - |x|];
      }
    }
  }

  /** Each of the first n columns writes one block per key the source records
      for it, each counting the given samples, or none when statistics are off. */
  predicate BlocksAgree(column: Column, added: Source, n: nat, statsFile: bool, samples: int) {
    forall i :: 0 <= i < n && column(i).Success? ==>
      if statsFile then Named(Contribution(column(i)).stats, added(i), samples)
      else Contribution(column(i)).stats == []
  }

  lemma ColumnsBlocks(parse: Reader, h: seq<string>, rows: seq<seq<string>>, opts: Options, xs: seq<real>)
    ensures BlocksAgree(Columns(parse, h, rows, opts, xs), AddedBy(parse, h, rows, opts), |h|,
                        opts.statsFile, |rows| - 1)
  {
    var column := Columns(parse, h, rows, opts, xs);
    var added := AddedBy(parse, h, rows, opts);
    forall i | 0 <= i < |h| && column(i).Success?
      ensures if opts.statsFile then Named(Contribution(column(i)).stats, added(i), |rows| - 1)
              else Contribution(column(i)).stats == []
    {
      assert column(i) == ColumnPart(parse, h, rows, opts, xs, i);
      ColumnPartShape(parse, h, rows, opts, xs, i);
    }
  }

  lemma {:induction false} WrittenBlocks(column: Column, added: Source, k: nat, statsFile: bool, samples: int)
    requires NoneThrows(column, k) && BlocksAgree(column, added, k, statsFile, samples)
    ensures statsFile ==> Named(Written(column, k), Log(added, k), samples)
    ensures !statsFile ==> Written(column, k) == []
  {
    if k > 0 {
      assert column(k - 1).Success?;
      WrittenBlocks(column, added, k - 1, statsFile, samples);
      if statsFile {
        NamedConcat(Written(column, k - 1), Contribution(column(k - 1)).stats,
                    Log(added, k - 1), added(k - 1), samples);
      }
    }
  }

  /** One statistics block per key put, in put order, named after the key with
      its non-alphanumeric characters removed and counting one sample fewer
      than there are rows; none at all when statistics are off. */
  lemma StatsBlocks(parse: Reader, h: seq<string>, rows: seq<seq<string>>, opts: Options)
    requires Build(parse, h, rows, opts).Success?
    ensures var stats := Build(parse, h, rows, opts).value.stats; var log := KeyLog(parse, h, rows, opts, |h|);
      && (opts.statsFile ==>
            && |stats| == |log|
            && forall p :: 0 <= p < |stats| ==> stats[p].category == Sanitize(log[p]) && stats[p].samples == |rows| - 1)
      && (!opts.statsFile ==> stats == [])
  {
    var xs := Axis(opts.period, |rows|);
    var column := Columns(parse, h, rows, opts, xs);
    FoldStats(column, |h|);
    ColumnsBlocks(parse, h, rows, opts, xs);
    FoldNoneThrows(column, |h|);
    WrittenBlocks(column, AddedBy(parse, h, rows, opts), |h|, opts.statsFile, |rows| - 1);
  }

  /** The blocks column i writes, as ChartsAt states its charts: the statistics
      of its values under its own unit at position p and, for a counter, those
      of its rate under the rate unit right after. */
  predicate StatsAt(parse: Reader, h: seq<string>, rows: seq<seq<string>>, i: nat, stats: seq<Stats>, p: nat)
    requires i < |h|
  {
    && ColumnValues(parse, rows, i).Success? && |rows| > 0
    && var raw := ColumnValues(parse, rows, i).value;
       && p < |stats| && stats[p] == StatsOf(h[i], Unit(h[i]), raw)
       && (h[i] in CounterCategories ==>
             p + 1 < |stats| && stats[p + 1] == StatsOf(h[i] + RateSuffix, RateUnit(h[i]), Diff(raw)))
  }

  lemma {:induction false} WrittenPrefix(column: Column, i: nat, k: nat)
    requires i <= k
    ensures Written(column, i) <= Written(column, k)
  {
    if i < k {
      WrittenPrefix(column, i, k - 1);
    }
  }

  /** The blocks of column i follow the blocks of the columns before it. */
  lemma WrittenAt(column: Column, i: nat, k: nat, q: nat)
    requires i < k && q < |Contribution(column(i)).stats|
    ensures |Written(column, i)| + q < |Written(column, k)|
    ensures Written(column, k)[|Written(column, i)| + q] == Contribution(column(i)).stats[q]
  {
    WrittenPrefix(column, i + 1, k);
    assert Written(column, i + 1) == Written(column, i) + Contribution(column(i)).stats;
  }

  /** A kept column's own blocks, as StatsAt states them at position 0. */
  lemma ColumnStatsAt(parse: Reader, h: seq<string>, rows: seq<seq<string>>, opts: Options, xs: seq<real>, i: nat)
    requires i < |h| && opts.statsFile && Kept(parse, h, rows, opts, i)
    requires Columns(parse, h, rows, opts, xs)(i).Success?
    ensures StatsAt(parse, h, rows, i, Contribution(Columns(parse, h, rows, opts, xs)(i)).stats, 0)
  {
    assert Columns(parse, h, rows, opts, xs)(i) == ColumnPart(parse, h, rows, opts, xs, i);
    ColumnPartShape(parse, h, rows, opts, xs, i);
  }

  /** With statistics on, the blocks at a kept column's key position are the
      statistics of its values under its unit and, for a counter, those of its
      rate under the rate unit. */
  lemma StatsContents(parse: Reader, h: seq<string>, rows: seq<seq<string>>, opts: Options, i: nat)
    requires Build(parse, h, rows, opts).Success? && opts.statsFile && i < |h| && Kept(parse, h, rows, opts, i)
    ensures StatsAt(parse, h, rows, i, Build(parse, h, rows, opts).value.stats, |KeyLog(parse, h, rows, opts, i)|)
  {
    var xs := Axis(opts.period, |rows|);
    var column := Columns(parse, h, rows, opts, xs);
    FoldStats(column, |h|);
    ColumnsBlocks(parse, h, rows, opts, xs);
    WrittenPosition(column, AddedBy(parse, h, rows, opts), i, |h|, |rows| - 1);
    ColumnStatsAt(parse, h, rows, opts, xs, i);
    WrittenStatsAt(parse, h, rows, column, i, |h|);
  }

  /** Before column i come exactly the blocks of the keys put before it. */
  lemma WrittenPosition(column: Column, added: Source, i: nat, k: nat, samples: int)
    requires i < k && Fold(column, k).Success? && BlocksAgree(column, added, k, true, samples)
    ensures column(i).Success? && |Written(column, i)| == |Log(added, i)|
  {
    FoldSuccess(column, i, k);
    FoldNoneThrows(column, i);
    assert BlocksAgree(column, added, i, true, samples);
    WrittenBlocks(column, added, i, true, samples);
  }

  /** Column i's blocks, placed after the blocks of the columns before it. */
  lemma WrittenStatsAt(parse: Reader, h: seq<string>, rows: seq<seq<string>>, column: Column, i: nat, k: nat)
    requires i < k && i < |h| && StatsAt(parse, h, rows, i, Contribution(column(i)).stats, 0)
    ensures StatsAt(parse, h, rows, i, Written(column, k), |Written(column, i)|)
  {
    WrittenAt(column, i, k, 0);
    if h[i] in CounterCategories {
      WrittenAt(column, i, k, 1);
    }
  }

  /** With no data rows the report is empty when no column passes the filters,
      and the first column that does makes createReports throw. */
  lemma {:induction false} EmptyData(parse: Reader, h: seq<string>, opts: Options, xs: seq<real>, k: nat)
    requires k <= |h|
    ensures Fold(Columns(parse, h, [], opts, xs), k) ==
              if exists j :: 0 <= j < k && Charted(h[j], opts) then Failure(NoDataRows) else Success(Report([], []))
  {
    if k > 0 {
      EmptyData(parse, h, opts, xs, k - 1);
      assert Columns(parse, h, [], opts, xs)(k - 1) == ColumnPart(parse, h, [], opts, xs, k - 1);
      if exists j :: 0 <= j < k - 1 && Charted(h[j], opts) {
        var j :| 0 <= j < k - 1 && Charted(h[j], opts);
        assert 0 <= j < k;
      }
    }
  }

  // ----- The loop of createReports -----

  /** The search for the companion capacity column of column i and the
      reading of its values. */
  method CapacitySeries(parse: Reader, h: seq<string>, rows: seq<seq<string>>, i: nat, xs: seq<real>)
    returns (c: Result<seq<Line>, Crash>)
    requires i < |h| && |h[i]| > 0
    ensures c == CapacityLines(parse, h, rows, i, xs)
  {
    var name := h[i];
    var companion := CapacityName(name);
    if companion !in CapacityCategories {
      return Success([]);
    }
    var j := FindColumn(h, companion);
    if j == |h| {
      return Success([]);
    }
    var capacityData := GetDoubleFromValues(parse, rows, j);
    if capacityData.Failure? {
      return Failure(capacityData.error);
    }
    c := Success([Line(name + " capacity", xs, capacityData.value)]);
  }

  /** The charts and blocks of a kept column whose values have been read: the
      first statistics block, the capacity series, the running average, the
      main chart, and for a counter the rate, its block and its chart. */
  method ChartColumn(parse: Reader, h: seq<string>, rows: seq<seq<string>>, opts: Options, xs: seq<real>,
                     i: nat, raw: seq<real>, acc: Report)
    returns (r: Result<Report, Crash>)
    requires i < |h| && Kept(parse, h, rows, opts, i) && ColumnValues(parse, rows, i) == Success(raw)
    ensures r == AddColumn(acc, ColumnPart(parse, h, rows, opts, xs, i))
  {
    var name := h[i];
    var stats := acc.stats;
    if opts.statsFile {
      var block := WriteStatsToFile(name, Unit(name), raw, true);
      stats := stats + [block.value];
    }
    if |name| == 0 {
      return Failure(EmptyCategoryName(i));
    }
    var capacity := CapacitySeries(parse, h, rows, i, xs);
    if capacity.Failure? {
      return Failure(capacity.error);
    }
    var average := RunningAverage(raw);
    var main := Chart(name, capacity.value + [Line(name + " average", xs, average.value), Line(name, xs, raw)]);
    var charts := Put(acc.charts, main);
    PutAllOne(acc.charts, main);
    if name in CounterCategories {
      var diffValueData := DiffOperator(raw);
      if opts.statsFile {
        var block := WriteStatsToFile(name + RateSuffix, RateUnit(name), diffValueData, true);
        stats := stats + [block.value];
      }
      var diffAverage := RunningAverage(diffValueData);
      var rate := Chart(name + RateSuffix, [Line(name + " average", xs, diffAverage.value), Line(name, xs, diffValueData)]);
      PutAllTwo(acc.charts, main, rate);
      charts := Put(charts, rate);
    }
    assert stats == acc.stats + (if opts.statsFile then ColumnStats(name, raw) else []);
    r := Success(Report(charts, stats));
  }

  /** The body of the column loop of Report.createReports: the filters, the
      check of the row-0 cell, and the reading of the column. The statistics
      stream is open exactly when statistics are on. */
  method ProcessColumn(parse: Reader, h: seq<string>, rows: seq<seq<string>>, opts: Options, xs: seq<real>,
                       i: nat, acc: Report)
    returns (r: Result<Report, Crash>)
    requires i < |h|
    ensures r == AddColumn(acc, ColumnPart(parse, h, rows, opts, xs, i))
  {
    var name := h[i];
    if !(name in SelectedCategories || opts.allCharts) {
      return Success(acc);
    }
    if name in CapacityCategories {
      return Success(acc);
    }
    if |rows| == 0 {
      return Failure(NoDataRows);
    }
    if i >= |rows[0]| {
      return Failure(RowTooShort(0, i));
    }
    if parse(rows[0][i]).None? {
      return Success(acc);
    }
    var valueData := GetDoubleFromValues(parse, rows, i);
    if valueData.Failure? {
      return Failure(valueData.error);
    }
    r := ChartColumn(parse, h, rows, opts, xs, i, valueData.value, acc);
  }

  /** The x-axis and the column loop of Report.createReports. */
  method CreateCharts(parse: Reader, categories: seq<string>, values: seq<seq<string>>, opts: Options)
    returns (r: Result<Report, Crash>)
    ensures r == Build(parse, categories, values, opts)
  {
    var referenceData := ReferenceData(opts.period, |values|);
    ghost var column := Columns(parse, categories, values, opts, referenceData);
    var acc := Report([], []);
    var i := 0;
    while i < |categories|
      invariant 0 <= i <= |categories|
      invariant Fold(column, i) == Success(acc)
    {
      var next := ProcessColumn(parse, categories, values, opts, referenceData, i, acc);
      ColumnsAt(parse, categories, values, opts, referenceData, i);
      FoldNext(column, i, acc);
      if next.Failure? {
        FoldFailureStays(column, i + 1, |categories|);
        return next;
      }
      acc := next.value;
      i := i + 1;
    }
    r := Success(acc);
  }

  /** Report.createReports on one parsed CSV file, up to the rendering: the
      header checks, then the column loop. */
  method CreateReports(parse: Reader, lines: seq<seq<string>>, opts: Options) returns (r: Result<Report, Crash>)
    ensures r == ReportOf(parse, lines, opts)
  {
    if |lines| == 0 || |lines[0]| == 0 {
      return Failure(MissingHeader);
    }
    var categories: seq<string>;
    var values: seq<seq<string>>;
    if StartsWith(lines[0][0], "procs") {
      if |lines| < 2 {
        return Failure(MissingHeader);
      }
      categories, values := lines[1], lines[2..];
    } else {
      categories, values := lines[0], lines[1..];
    }
    r := CreateCharts(parse, categories, values, opts);
  }
}
