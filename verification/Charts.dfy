/** The read path: time_range and get_time_series_by_subgroup. */
module Charts {
  import opened TimeGrid
  import opened CountStats
  import opened CountTables
  import opened SourceData
  import opened Queries
  import opened FillMachine
  import opened FillSafety

  // ----- time_range

  /** times lists exactly the grid points from from to to, in order and one step apart. */
  ghost predicate IsGridRange(times: seq<int>, from: int, to: int, f: Frequency) {
    && (forall t :: t in times <==> OnGrid(t, f) && from <= t <= to)
    && forall i :: 0 < i < |times| ==> times[i] == times[i - 1] + f.Step()
  }

  function Padded(start: int, end: int, f: Frequency, minLength: Option<nat>): int {
    match minLength
    case None => start
    case Some(n) => Min(start, end - (n - 1) * f.Step())
  }

  /** A grid point up to last that is not before start, or is among the last minLength. */
  predicate IsShown(t: int, start: int, last: int, f: Frequency, minLength: Option<nat>) {
    OnGrid(t, f) && t <= last && (start <= t || (minLength.Some? && last - minLength.value * f.Step() < t))
  }

  /** times lists these, in order and one step apart. */
  ghost predicate IsChartRange(times: seq<int>, start: int, last: int, f: Frequency, minLength: Option<nat>) {
    && (forall t :: t in times <==> IsShown(t, start, last, f, minLength))
    && forall i :: 0 < i < |times| ==> times[i] == times[i - 1] + f.Step()
  }

  lemma {:induction false} GridDown(last: int, n: nat, f: Frequency)
    requires OnGrid(last, f)
    ensures OnGrid(last - n * f.Step(), f)
    decreases n
  {
    hide OnGrid;
    if n > 0 {
      GridDown(last, n - 1, f);
      NextMultiple(n - 1, f.Step());
      GridStep(last - (n - 1) * f.Step(), f);
    }
  }

  lemma PaddedIsChartRange(times: seq<int>, start: int, last: int, f: Frequency, minLength: Option<nat>)
    requires OnGrid(last, f) && IsGridRange(times, Padded(start, last, f, minLength), last, f)
    ensures IsChartRange(times, start, last, f, minLength)
  {
    hide OnGrid;
    if minLength.Some? {
      var n, step := minLength.value, f.Step();
      GridDown(last, n, f);
      assert (n - 1) * step == n * step - step;
      forall t | OnGrid(t, f) ensures last - n * step < t <==> last - (n - 1) * step <= t {
        if last - n * step < t { GridGap(last - n * step, t, f); }
      }
    }
  }

  function Reversed(s: seq<int>): (r: seq<int>)
    ensures |r| == |s| && forall i :: 0 <= i < |s| ==> r[i] == s[|s| - 1 - i]
  {
    if s == [] then [] else Reversed(s[1..]) + [s[0]]
  }

  lemma NextMultiple(n: nat, step: int)
    ensures (n + 1) * step == n * step + step
  {
  }

  lemma MultiplesGrow(n: int, m: int, step: int)
    requires n <= m && step > 0
    ensures n * step <= m * step
  {
  }

  /** times holds, latest first, the grid points after current up to last. */
  ghost predicate Descending(times: seq<int>, last: int, current: int, f: Frequency) {
    && OnGrid(current, f) && current <= last
    && (forall t :: t in times <==> OnGrid(t, f) && current < t <= last)
    && (forall i :: 0 < i < |times| ==> times[i] == times[i - 1] - f.Step())
    && (times != [] ==> times[|times| - 1] == current + f.Step())
  }

  lemma DescendingStep(times: seq<int>, last: int, current: int, f: Frequency)
    requires Descending(times, last, current, f)
    ensures Descending(times + [current], last, current - f.Step(), f)
  {
    hide OnGrid;
    GridStep(current, f);
    forall t ensures t in times + [current] <==> OnGrid(t, f) && current - f.Step() < t <= last {
      if OnGrid(t, f) && t < current { GridGap(t, current, f); }
    }
  }

  /** Once current has passed from, the reversed list is the grid range. */
  lemma DescendingReversed(times: seq<int>, last: int, current: int, from: int, f: Frequency)
    requires Descending(times, last, current, f) && current < from
    requires times != [] ==> from <= times[|times| - 1]
    ensures IsGridRange(Reversed(times), from, last, f)
  {
    hide OnGrid, Reversed, Descending;
    ReversedMembers(times);
    assert forall i :: 0 < i < |times| ==>
      times[i] == times[i - 1] - f.Step() by { DescendingSteps(times, last, current, f); }
    ReversedOrder(times, f.Step());
    forall t ensures t in times <==> OnGrid(t, f) && from <= t <= last {
      DescendingFrom(times, last, current, from, f, t);
    }
  }

  lemma DescendingSteps(times: seq<int>, last: int, current: int, f: Frequency)
    requires Descending(times, last, current, f)
    ensures forall i :: 0 < i < |times| ==> times[i] == times[i - 1] - f.Step()
  {
  }

  lemma DescendingFrom(times: seq<int>, last: int, current: int, from: int, f: Frequency, t: int)
    requires Descending(times, last, current, f) && current < from
    requires times != [] ==> from <= times[|times| - 1]
    ensures t in times <==> OnGrid(t, f) && from <= t <= last
  {
    hide OnGrid;
    if t in times {
      assert times[..|times| - 1 + 1] == times;
      AtLeastTheLast(times, |times| - 1, t, f);
    }
  }

  lemma ReversedOrder(s: seq<int>, step: int)
    requires forall i :: 0 < i < |s| ==> s[i] == s[i - 1] - step
    ensures |Reversed(s)| == |s| && forall i :: 0 < i < |s| ==> Reversed(s)[i] == Reversed(s)[i - 1] + step
  {
    var r := Reversed(s);
    forall i | 0 < i < |s| ensures r[i] == r[i - 1] + step {
      var j := |s| - i;
      assert r[i] == s[j - 1] && r[i - 1] == s[j];
    }
  }

  lemma {:induction false} AtLeastTheLast(times: seq<int>, n: nat, t: int, f: Frequency)
    requires n < |times| && forall i :: 0 < i < |times| ==> times[i] == times[i - 1] - f.Step()
    requires t in times[..n + 1]
    ensures times[n] <= t
  {
    if n > 0 && t != times[n] {
      assert times[..n + 1] == times[..n] + [times[n]];
      AtLeastTheLast(times, n - 1, t, f);
    }
  }

  method TimeRange(start: int, end: int, f: Frequency, minLength: Option<nat>) returns (times: seq<int>)
    ensures IsGridRange(times, Padded(start, Floor(end, f), f, minLength), Floor(end, f), f)
    ensures IsChartRange(times, start, Floor(end, f), f, minLength)
    ensures minLength.Some? ==> |times| >= minLength.value
  {
    hide OnGrid, Floor, Descending, IsGridRange, IsChartRange;
    var last := Floor(end, f);
    var from := Padded(start, last, f, minLength);
    times := [];
    var current := last;
    assert Descending(times, last, current, f) by { NoneYet(last, f); }
    while current >= from
      invariant Descending(times, last, current, f)
      invariant current == last - |times| * f.Step()
      invariant times != [] ==> from <= times[|times| - 1]
      decreases current - from + f.Step()
    {
      DescendingStep(times, last, current, f);
      NextMultiple(|times|, f.Step());
      times := times + [current];
      current := current - f.Step();
    }
    if minLength.Some? && |times| < minLength.value {
      MultiplesGrow(|times|, minLength.value - 1, f.Step());
    }
    DescendingReversed(times, last, current, from, f);
    times := Reversed(times);
    PaddedIsChartRange(times, start, last, f, minLength);
  }

  lemma NoneYet(last: int, f: Frequency)
    requires OnGrid(last, f)
    ensures Descending([], last, last, f)
  {
  }

  lemma ReversedMembers(s: seq<int>)
    ensures forall t {:trigger t in Reversed(s)} {:trigger t in s} :: t in Reversed(s) <==> t in s
  {
    var r := Reversed(s);
    forall t | t in s ensures t in r {
      var i :| 0 <= i < |s| && s[i] == t;
      assert r[|s| - 1 - i] == t;
    }
  }

  // ----- get_chart_data: the window

  datatype ChartError = StartAfterEnd | NoData
  datatype Window = Ok(endTimes: seq<int>) | Err(error: ChartError)

  function ChartEnd(fills: Fills, stat: CountStat, end: Option<int>): Option<int> {
    if end.Some? then end else LastSuccessfulFill(fills, stat)
  }

  /** Where the default end lies: at what is completed, less a rest of the day while a day is being filled. */
  ghost predicate IsLast(last: int, fills: Fills, stat: CountStat, end: Option<int>) {
    match end
    case Some(e) => last == Floor(e, stat.Frequency())
    case None =>
      stat in fills
      && (OnGrid(fills[stat].endTime, stat.Frequency()) ==> last == LastCompleted(fills[stat], stat))
  }

  /** times are the end_times of a chart from start on. */
  ghost predicate IsWindow(times: seq<int>, fills: Fills, stat: CountStat, start: int, end: Option<int>,
      minLength: Option<nat>)
  {
    exists last :: IsLast(last, fills, stat, end) && IsChartRange(times, start, last, stat.Frequency(), minLength)
  }

  /** start is after the end: the given one, or the default one, which while an end_time is STARTED is one
      hour before it, whatever the frequency; or nothing has been filled. */
  predicate NoDataFrom(from: int, fills: Fills, stat: CountStat, end: Option<int>) {
    match end
    case Some(e) => from > e
    case None =>
      stat !in fills || from > if fills[stat].phase.Done? then fills[stat].endTime else fills[stat].endTime - HOUR
  }

  /** The end_times of a chart, for a realm created at created. */
  method ChartTimes(fills: Fills, stat: CountStat, created: int, start: Option<int>, end: Option<int>,
      minLength: Option<nat>)
    returns (r: Window)
    ensures r == Err(StartAfterEnd) <==> start.Some? && end.Some? && start.value > end.value
    ensures r == Err(NoData) <==>
      !(start.Some? && end.Some? && start.value > end.value)
      && NoDataFrom(if start.Some? then start.value else created, fills, stat, end)
    ensures r.Ok? ==>
      IsWindow(r.endTimes, fills, stat, if start.Some? then start.value else created, end, minLength)
  {
    hide OnGrid, Floor, Padded, IsChartRange, IsGridRange;
    if start.Some? && end.Some? && start.value > end.value { return Err(StartAfterEnd); }
    var from := if start.Some? then start.value else created;
    var last := ChartEnd(fills, stat, end);
    if last.None? || from > last.value { return Err(NoData); }
    var times := TimeRange(from, last.value, stat.Frequency(), minLength);
    if end.None? && OnGrid(fills[stat].endTime, stat.Frequency()) { LastFillIsLastCompleted(fills, stat); }
    assert IsLast(Floor(last.value, stat.Frequency()), fills, stat, end);
    return Ok(times);
  }

  // ----- get_time_series_by_subgroup

  /** table_filtered_to_id. */
  predicate OwnKey(k: Key, table: TableName, id: int) {
    match table
    case UserTable => k.UserKey? && k.user == id
    case StreamTable => k.StreamKey? && k.stream == id
    case RealmTable => k.RealmKey? && k.realm == id
    case InstallationTable => true
  }

  function Queryset(rows: seq<Row>, table: TableName, id: int, stat: CountStat): seq<Row> {
    if rows == [] then []
    else if OwnKey(rows[0].key, table, id) && rows[0].stat == stat then [rows[0]] + Queryset(rows[1..], table, id, stat)
    else Queryset(rows[1..], table, id, stat)
  }

  /** What the nested dictionary answers: the last row wins, and a missing one is 0. */
  function LastValue(rows: seq<Row>, g: Subgroup, t: int): int {
    if rows == [] then 0
    else
      var r := rows[|rows| - 1];
      if r.subgroup == g && r.endTime == t then r.value else LastValue(rows[..|rows| - 1], g, t)
  }

  predicate HasSubgroup(rows: seq<Row>, g: Subgroup) { exists r :: r in rows && r.subgroup == g }

  function Series(rows: seq<Row>, g: Subgroup, endTimes: seq<int>): seq<int> {
    seq(|endTimes|, i requires 0 <= i < |endTimes| => LastValue(rows, g, endTimes[i]))
  }

  datatype Label = Label(subgroup: Subgroup, name: string)

  ghost predicate DistinctLabels(labels: seq<Label>) {
    forall i, j :: 0 <= i < j < |labels| ==> labels[i].name != labels[j].name
  }

  type ValueDicts = map<Subgroup, map<int, int>>

  function Lookup(dicts: ValueDicts, g: Subgroup, t: int): int {
    if g in dicts && t in dicts[g] then dicts[g][t] else 0
  }

  predicate Wanted(l: Label, rows: seq<Row>, includeEmpty: bool) {
    includeEmpty || HasSubgroup(rows, l.subgroup)
  }

  ghost predicate IsWanted(name: string, rows: seq<Row>, labels: seq<Label>, includeEmpty: bool) {
    exists i :: 0 <= i < |labels| && labels[i].name == name && Wanted(labels[i], rows, includeEmpty)
  }

  /** One array for each of the labels that is wanted: its subgroup's series. */
  ghost predicate IsValueArrays(arrays: map<string, seq<int>>, rows: seq<Row>, labels: seq<Label>, endTimes: seq<int>,
      includeEmpty: bool) {
    && (forall name :: name in arrays <==> IsWanted(name, rows, labels, includeEmpty))
    && forall i :: 0 <= i < |labels| && labels[i].name in arrays ==>
      arrays[labels[i].name] == Series(rows, labels[i].subgroup, endTimes)
  }

  /** The nested dictionary value_dicts. */
  method NestedDicts(rows: seq<Row>) returns (dicts: ValueDicts)
    ensures forall g, t :: Lookup(dicts, g, t) == LastValue(rows, g, t)
    ensures forall g :: g in dicts <==> HasSubgroup(rows, g)
  {
    dicts := map[];
    for i := 0 to |rows|
      invariant forall g, t :: Lookup(dicts, g, t) == LastValue(rows[..i], g, t)
      invariant forall g :: g in dicts <==> HasSubgroup(rows[..i], g)
    {
      var r := rows[i];
      assert rows[..i + 1][..i] == rows[..i];
      var inner := if r.subgroup in dicts then dicts[r.subgroup] else map[];
      ghost var before := dicts;
      dicts := dicts[r.subgroup := inner[r.endTime := r.value]];
      assert forall q :: q in rows[..i + 1] <==> q in rows[..i] || q == r;
      forall g, t
        ensures Lookup(dicts, g, t)
          == if g == r.subgroup && t == r.endTime then r.value else Lookup(before, g, t)
      {
      }
    }
    assert rows[..|rows|] == rows;
  }

  /** get_time_series_by_subgroup up to the special case of the client stat. */
  method ValueArrays(table: seq<Row>, name: TableName, id: int, stat: CountStat, endTimes: seq<int>,
      labels: seq<Label>, includeEmpty: bool) returns (arrays: map<string, seq<int>>)
    requires DistinctLabels(labels)
    ensures IsValueArrays(arrays, Queryset(table, name, id, stat), labels, endTimes, includeEmpty)
  {
    hide Queryset, LastValue, HasSubgroup, Lookup;
    var rows := Queryset(table, name, id, stat);
    var dicts := NestedDicts(rows);
    arrays := map[];
    for i := 0 to |labels|
      invariant forall name :: name in arrays <==>
        exists j :: 0 <= j < i && labels[j].name == name && Wanted(labels[j], rows, includeEmpty)
      invariant forall j :: 0 <= j < i && labels[j].name in arrays ==>
        arrays[labels[j].name] == Series(rows, labels[j].subgroup, endTimes)
    {
      var g := labels[i].subgroup;
      if g in dicts || includeEmpty {
        var values := seq(|endTimes|, k requires 0 <= k < |endTimes| => Lookup(dicts, g, endTimes[k]));
        assert values == Series(rows, g, endTimes);
        arrays := arrays[labels[i].name := values];
      }
    }
  }
}
