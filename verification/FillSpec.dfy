/** What the count tables are meant to hold: for each stat and each filled end_time, the rows
    that its query and its roll-ups give on the source alone. */
module FillSpec {
  import opened TimeGrid
  import opened Grouping
  import opened CountStats
  import opened CountTables
  import opened SourceData
  import opened Queries
  import opened FillMachine

  /** The rows of UserCount that stat's query reads, recomputed from the source. */
  function DependencyRows(stat: CountStat, src: Source, t: int): seq<Row> {
    if stat.RealmActiveHumans? then
      Pull(ActiveUsersAudit, src, [], t - ActiveUsersAudit.Interval(), t)
      + Pull(FifteenDayActives, src, [], t - FifteenDayActives.Interval(), t)
    else []
  }

  /** The rows of stat's output table at t. */
  function BaseRows(stat: CountStat, src: Source, t: int): seq<Row> {
    if stat.Logging? then At(Logged(src.increments, stat), stat, t)
    else Pull(stat, src, DependencyRows(stat, src, t), t - stat.Interval(), t)
  }

  function RealmRows(stat: CountStat, src: Source, t: int): seq<Row> {
    if stat.Output() == RealmTable then BaseRows(stat, src, t)
    else RealmRollup(src.realms, BaseRows(stat, src, t), stat, t)
  }

  /** The rows of table k at t. */
  function TableRows(stat: CountStat, src: Source, t: int, k: TableName): seq<Row> {
    match k
    case RealmTable => RealmRows(stat, src, t)
    case InstallationTable => InstallationRollup(RealmRows(stat, src, t), stat, t)
    case _ => if stat.Output() == k then BaseRows(stat, src, t) else []
  }

  /** The rows of table k for all grid points after the epoch up to t. */
  function Filled(stat: CountStat, src: Source, t: int, k: TableName): seq<Row>
    decreases t - Epoch(src)
  {
    if t <= Epoch(src) then []
    else Filled(stat, src, t - stat.Step(), k) + TableRows(stat, src, t, k)
  }

  lemma BaseRowsStamped(stat: CountStat, src: Source, t: int)
    ensures Stamped(BaseRows(stat, src, t), stat, t)
  {
    if stat.Logging? {
      AtMembers(Logged(src.increments, stat), stat, t, Row(InstallationKey, stat, Null, t, 0));
    } else {
      StampSpec(PullEntries(stat, src, DependencyRows(stat, src, t), t - stat.Interval(), t), stat, t);
    }
  }

  lemma TableRowsStamped(stat: CountStat, src: Source, t: int, k: TableName)
    ensures Stamped(TableRows(stat, src, t, k), stat, t)
  {
    BaseRowsStamped(stat, src, t);
    StampSpec(GroupSum(JoinRealms(src.realms, At(BaseRows(stat, src, t), stat, t))), stat, t);
    StampSpec(GroupSum(BySubgroup(At(RealmRows(stat, src, t), stat, t))), stat, t);
  }

  /** Filled up to t, the table holds at u exactly the rows of u. */
  lemma {:induction false} AtFilled(stat: CountStat, src: Source, t: int, k: TableName, u: int)
    requires OnGrid(t, stat.Frequency()) && OnGrid(u, stat.Frequency())
    ensures At(Filled(stat, src, t, k), stat, u) == if Epoch(src) < u <= t then TableRows(stat, src, u, k) else []
    ensures u > t ==> Without(Filled(stat, src, t, k), stat, u) == Filled(stat, src, t, k)
    decreases t - Epoch(src)
  {
    hide TableRows;
    if t > Epoch(src) {
      var before, rows := Filled(stat, src, t - stat.Step(), k), TableRows(stat, src, t, k);
      GridStep(t, stat.Frequency());
      AtFilled(stat, src, t - stat.Step(), k, u);
      TableRowsStamped(stat, src, t, k);
      AtConcat(before, rows, stat, u);
      WithoutConcat(before, rows, stat, u);
      SelectStamped(rows, stat, t, stat, u);
      if u < t { GridGap(u, t, stat.Frequency()); }
    }
  }

  /** Two sources that agree on every window closed by t fill the tables alike. */
  lemma {:induction false} FilledAgree(stat: CountStat, src: Source, src': Source, t: int, k: TableName)
    requires Epoch(src) == Epoch(src') && OnGrid(t, stat.Frequency())
    requires forall u :: OnGrid(u, stat.Frequency()) && Epoch(src) < u <= t ==>
      TableRows(stat, src, u, k) == TableRows(stat, src', u, k)
    ensures Filled(stat, src, t, k) == Filled(stat, src', t, k)
    decreases t - Epoch(src)
  {
    hide TableRows;
    if t > Epoch(src) {
      GridStep(t, stat.Frequency());
      FilledAgree(stat, src, src', t - stat.Step(), k);
    }
  }

  lemma {:induction false} OfIncrement(table: seq<Row>, stat: CountStat, slot: Slot, t: int, amount: int,
      other: CountStat)
    ensures Of(IncrementRow(table, stat, slot, t, amount), other)
      == if other == stat then IncrementRow(Of(table, stat), stat, slot, t, amount) else Of(table, other)
  {
    if table != [] {
      var row, rest := table[0], table[1..];
      if row == Row(slot.key, stat, slot.subgroup, t, row.value) {
        assert IncrementRow(table, stat, slot, t, amount)[1..] == rest;
      } else {
        OfIncrement(rest, stat, slot, t, amount, other);
        assert IncrementRow(table, stat, slot, t, amount)[1..] == IncrementRow(rest, stat, slot, t, amount);
        if row.stat == stat == other { assert Of(table, stat)[1..] == Of(rest, stat); }
      }
    }
  }
}
