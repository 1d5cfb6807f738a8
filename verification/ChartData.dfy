/** get_time_series_by_subgroup with the rewriting of the client arrays. */
module ChartData {
  import opened CountStats
  import opened CountTables
  import opened Charts
  import opened ClientLabels

  /** The sum at t over the labels that client_label_map maps to q. */
  function MergedValue(labels: seq<Label>, q: string, rows: seq<Row>, t: int): int {
    if labels == [] then 0
    else
      (if ClientLabel(labels[0].name) == q then LastValue(rows, labels[0].subgroup, t) else 0)
      + MergedValue(labels[1..], q, rows, t)
  }

  ghost predicate IsMapped(q: string, rows: seq<Row>, labels: seq<Label>, includeEmpty: bool) {
    exists i :: 0 <= i < |labels| && ClientLabel(labels[i].name) == q && Wanted(labels[i], rows, includeEmpty)
  }

  /** One array for each new label that a wanted label is mapped to: the sums of the old series. A
      new label without an array has no values but 0. */
  ghost predicate IsMergedSeries(arrays: Arrays, rows: seq<Row>, labels: seq<Label>, endTimes: seq<int>,
      includeEmpty: bool) {
    && (forall q :: q in arrays <==> IsMapped(q, rows, labels, includeEmpty))
    && Rectangular(arrays, |endTimes|)
    && forall q, i :: 0 <= i < |endTimes| ==> Column(arrays, i)(q) == MergedValue(labels, q, rows, endTimes[i])
  }

  ghost function Names(labels: seq<Label>): set<string> { set i | 0 <= i < |labels| :: labels[i].name }

  ghost predicate ValuesAre(arrays: Arrays, labels: seq<Label>, rows: seq<Row>, i: nat, t: int) {
    forall j :: 0 <= j < |labels| ==> Column(arrays, i)(labels[j].name) == LastValue(rows, labels[j].subgroup, t)
  }

  lemma {:induction false} AbsentSubgroup(rows: seq<Row>, g: Subgroup, t: int)
    requires !HasSubgroup(rows, g)
    ensures LastValue(rows, g, t) == 0
  {
    if rows != [] {
      assert forall r :: r in rows[..|rows| - 1] ==> r in rows;
      assert rows[|rows| - 1] in rows;
      AbsentSubgroup(rows[..|rows| - 1], g, t);
    }
  }

  lemma ArrayValues(arrays: Arrays, rows: seq<Row>, labels: seq<Label>, endTimes: seq<int>, includeEmpty: bool, i: nat)
    requires IsValueArrays(arrays, rows, labels, endTimes, includeEmpty) && i < |endTimes|
    ensures ValuesAre(arrays, labels, rows, i, endTimes[i])
  {
    hide LastValue;
    forall j | 0 <= j < |labels|
      ensures Column(arrays, i)(labels[j].name) == LastValue(rows, labels[j].subgroup, endTimes[i])
    {
      if labels[j].name !in arrays {
        assert !Wanted(labels[j], rows, includeEmpty);
        AbsentSubgroup(rows, labels[j].subgroup, endTimes[i]);
      }
    }
  }

  lemma {:induction false} MergedSum(arrays: Arrays, labels: seq<Label>, q: string, rows: seq<Row>, i: nat, t: int)
    requires DistinctLabels(labels) && ValuesAre(arrays, labels, rows, i, t)
    ensures SumSet(SameLabel(Names(labels), q), Column(arrays, i)) == MergedValue(labels, q, rows, t)
  {
    hide ClientLabel, SumSet, LastValue;
    if labels == [] {
      assert SameLabel(Names(labels), q) == {};
      SumSetEmpty(Column(arrays, i));
    } else {
      var rest, name := labels[1..], labels[0].name;
      assert forall j :: 0 <= j < |rest| ==> rest[j] == labels[j + 1];
      MergedSum(arrays, rest, q, rows, i, t);
      assert name !in Names(rest);
      assert Names(labels) == Names(rest) + {name};
      SameLabelAdd(Names(rest), name, q);
      if ClientLabel(name) == q { SumSetAdd(SameLabel(Names(rest), q), Column(arrays, i), name); }
    }
  }

  /** Labels without an array add nothing. */
  lemma {:induction false} SumSetPadded(s: set<string>, more: set<string>, f: string -> int)
    requires s !! more && forall l :: l in more ==> f(l) == 0
    ensures SumSet(s + more, f) == SumSet(s, f)
  {
    hide SumSet;
    if more == {} {
      assert s + more == s;
    } else {
      var l :| l in more;
      SumSetPadded(s, more - {l}, f);
      SumSetAdd(s + (more - {l}), f, l);
      assert s + more == s + (more - {l}) + {l};
    }
  }

  lemma MergedColumn(mapped: Arrays, arrays: Arrays, rows: seq<Row>, labels: seq<Label>, endTimes: seq<int>,
      includeEmpty: bool, q: string, i: nat)
    requires DistinctLabels(labels) && IsValueArrays(arrays, rows, labels, endTimes, includeEmpty) && i < |endTimes|
    requires Merged(mapped, arrays, arrays.Keys, |endTimes|)
    ensures Column(mapped, i)(q) == MergedValue(labels, q, rows, endTimes[i])
  {
    hide ClientLabel, SumSet, LastValue, MergedValue;
    var s, all := SameLabel(arrays.Keys, q), SameLabel(Names(labels), q);
    ArrayValues(arrays, rows, labels, endTimes, includeEmpty, i);
    MergedSum(arrays, labels, q, rows, i, endTimes[i]);
    assert arrays.Keys <= Names(labels);
    assert all == s + (all - s);
    SumSetPadded(s, all - s, Column(arrays, i));
    if q !in mapped {
      assert s == {};
      SumSetEmpty(Column(arrays, i));
    }
  }

  /** get_time_series_by_subgroup. */
  method TimeSeriesBySubgroup(table: seq<Row>, name: TableName, id: int, stat: CountStat, endTimes: seq<int>,
      labels: seq<Label>, includeEmpty: bool)
    returns (arrays: Arrays)
    requires DistinctLabels(labels)
    ensures var rows := Queryset(table, name, id, stat);
      if stat.MessagesSentByClient? then IsMergedSeries(arrays, rows, labels, endTimes, includeEmpty)
      else IsValueArrays(arrays, rows, labels, endTimes, includeEmpty)
  {
    hide ClientLabel, SumSet, LastValue, MergedValue, Queryset, Wanted, Column;
    var valueArrays := ValueArrays(table, name, id, stat, endTimes, labels, includeEmpty);
    if !stat.MessagesSentByClient? { return valueArrays; }
    arrays := RewriteClientArrays(valueArrays, |endTimes|);
    ghost var rows := Queryset(table, name, id, stat);
    forall q, i | 0 <= i < |endTimes| ensures Column(arrays, i)(q) == MergedValue(labels, q, rows, endTimes[i]) {
      MergedColumn(arrays, valueArrays, rows, labels, endTimes, includeEmpty, q, i);
    }
    forall q ensures q in arrays <==> IsMapped(q, rows, labels, includeEmpty) {
      if q in arrays {
        var l :| l in valueArrays.Keys && ClientLabel(l) == q;
        assert IsWanted(l, rows, labels, includeEmpty);
      }
      if i :| 0 <= i < |labels| && ClientLabel(labels[i].name) == q && Wanted(labels[i], rows, includeEmpty) {
        assert labels[i].name in valueArrays.Keys by { assert IsWanted(labels[i].name, rows, labels, includeEmpty); }
      }
    }
  }
}
