/** Crash recovery is exact: in every reachable state each stat's rows are what FillSpec says. */
module FillExactness {
  import opened TimeGrid
  import opened CountStats
  import opened CountTables
  import opened SourceData
  import opened Queries
  import opened FillMachine
  import opened FillSafety
  import opened FillSpec

  /** Whether the run has already inserted the rows of table k for the end_time it is filling. */
  predicate Written(stat: CountStat, point: Point, k: TableName) {
    match point
    case RollRealm => k == stat.Output()
    case RollInstallation => k == stat.Output() || k == RealmTable
    case Finish => true
    case _ => false
  }

  predicate IsFilling(point: Point) {
    point.Pulling? || point.RollRealm? || point.RollInstallation? || point.Finish?
  }

  predicate AlreadyUndone(stat: CountStat, point: Point, k: TableName) {
    var tables := stat.UndoTables();
    point.Reset? || (point.Undo? && exists i :: 0 <= i < point.deleted && i < |tables| && tables[i] == k)
  }

  /** The rows stat has in a table k that its runs write. An end_time that is STARTED has all of
      its rows in k or none of them; which of the two is known while a run is at work. */
  ghost predicate ViewOk(s: State, stat: CountStat, k: TableName) {
    var view := Of(s.db.Table(k), stat);
    if stat !in s.db.fills then view == []
    else
      var f := s.db.fills[stat];
      if f.phase.Done? then view == Filled(stat, s.src, f.endTime, k)
      else
        var before := Filled(stat, s.src, f.endTime - stat.Step(), k);
        var after := before + TableRows(stat, s.src, f.endTime, k);
        && (view == before || view == after)
        && (s.job.Busy? && s.job.stat == stat ==>
              && (AlreadyUndone(stat, s.job.point, k) ==> view == before)
              && (IsFilling(s.job.point) ==> view == if Written(stat, s.job.point, k) then after else before))
  }

  ghost predicate ViewsOk(s: State, stat: CountStat) {
    forall k :: k in stat.UndoTables() ==> ViewOk(s, stat, k)
  }

  /** Logging: the output table holds what the increments put there and no run changes it. */
  ghost predicate LogOk(s: State, stat: CountStat)
    requires stat.Logging?
  {
    forall k :: k !in stat.UndoTables() ==>
      Of(s.db.Table(k), stat) == if k == stat.Output() then Logged(s.src.increments, stat) else []
  }

  /** While a run fills an end_time, the view of its stat is known. */
  lemma FillingView(s: State, k: TableName)
    requires s.job.Busy? && IsFilling(s.job.point)
    requires var Busy(stat, _, time, _) := s.job; stat in s.db.fills && s.db.fills[stat] == FillState(time, Started)
    ensures var Busy(stat, _, time, point) := s.job;
      var before := Filled(stat, s.src, time - stat.Step(), k);
      var now := if Written(stat, point, k) then before + TableRows(stat, s.src, time, k) else before;
      ViewOk(s, stat, k) <==> Of(s.db.Table(k), stat) == now
  {
    hide Filled, TableRows, Of;
  }

  // ----- logging stats lose nothing

  lemma LogOkStep(s: State, e: Event, stat: CountStat)
    requires stat.Logging? && LogOk(s, stat) && Safe(s)
    ensures LogOk(Apply(s, e), stat)
  {
    hide Of, Logged, IncrementRow, Safe;
    forall k | k !in stat.UndoTables()
      ensures Of(Apply(s, e).db.Table(k), stat)
        == if k == stat.Output() then Logged(Apply(s, e).src.increments, stat) else []
    {
      if e.Step? && s.job.Busy? {
        WriteKeepsLogged(s, stat, k);
      } else if e.Log? && Fits(e.increment) {
        LogGrows(s, e.increment, stat, k);
      }
    }
  }

  lemma WriteKeepsLogged(s: State, stat: CountStat, k: TableName)
    requires s.job.Busy? && Safe(s) && k !in stat.UndoTables()
    ensures Of(Write(s).db.Table(k), stat) == Of(s.db.Table(k), stat)
    ensures Write(s).src == s.src
  {
    hide Of, Pull, RealmRollup, InstallationRollup, Without;
    WriteElsewhere(s, stat, k);
  }

  lemma LogGrows(s: State, i: Increment, stat: CountStat, k: TableName)
    requires Fits(i) && stat.Logging? && LogOk(s, stat) && k !in stat.UndoTables()
    ensures Of(Apply(s, Log(i)).db.Table(k), stat)
      == if k == stat.Output() then Logged(Apply(s, Log(i)).src.increments, stat) else []
  {
    hide Of, IncrementRow;
    OfIncrement(s.db.Table(i.stat.Output()), i.stat, i.slot, i.EndTime(), i.amount, stat);
    assert (s.src.increments + [i])[..|s.src.increments|] == s.src.increments;
  }

  /** Inserted rows are seen by their own stat in their own table alone. */
  lemma InsertSeen(db: Db, j: TableName, rows: seq<Row>, busy: CountStat, t: int, k: TableName, stat: CountStat)
    requires Stamped(rows, busy, t)
    ensures Of(db.With(j, db.Table(j) + rows).Table(k), stat)
      == if k == j && stat == busy then Of(db.Table(k), stat) + rows else Of(db.Table(k), stat)
  {
    OfConcat(db.Table(j), rows, stat);
    SelectStamped(rows, busy, t, stat, t);
  }

  lemma PullStamped(stat: CountStat, src: Source, table: seq<Row>, start: int, end: int)
    requires !stat.Logging?
    ensures Stamped(Pull(stat, src, table, start, end), stat, end)
  {
    StampSpec(PullEntries(stat, src, table, start, end), stat, end);
  }

  lemma PullingWrites(s: State)
    requires s.job.Busy? && s.job.point.Pulling? && JobOk(s.db.fills, Epoch(s.src), s.job)
    ensures !s.job.stat.Logging?
    ensures var Busy(stat, _, time, _) := s.job;
      var k, rows := stat.Output(), Pull(stat, s.src, s.db.user, time - stat.Interval(), time);
      Write(s).db == s.db.With(k, s.db.Table(k) + rows)
  {
    hide Pull, RealmRollup, InstallationRollup, Without, OnGrid, TargetReached, Enter, Loop;
  }

  /** The filling writes before the last one move the run on and leave the FillStates alone. */
  lemma FillingMoves(s: State)
    requires s.job.Busy? && IsFilling(s.job.point) && !s.job.point.Finish?
    requires JobOk(s.db.fills, Epoch(s.src), s.job)
    ensures Write(s).src == s.src && Write(s).db.fills == s.db.fills
    ensures Write(s).job == s.job.(point :=
      match s.job.point
      case Pulling => SummaryPoint(s.job.stat)
      case RollRealm => RollInstallation
      case _ => Finish)
  {
    hide Pull, RealmRollup, InstallationRollup, OnGrid, TargetReached;
  }

  lemma PullElsewhere(s: State, stat: CountStat, k: TableName)
    requires s.job.Busy? && s.job.point.Pulling? && JobOk(s.db.fills, Epoch(s.src), s.job)
    requires s.job.stat != stat || k != stat.Output()
    ensures Of(Write(s).db.Table(k), stat) == Of(s.db.Table(k), stat)
  {
    hide *;
    var Busy(busy, _, time, _) := s.job;
    PullingWrites(s);
    var rows := Pull(busy, s.src, s.db.user, time - busy.Interval(), time);
    PullStamped(busy, s.src, s.db.user, time - busy.Interval(), time);
    InsertSeen(s.db, busy.Output(), rows, busy, time, k, stat);
  }

  lemma RollupElsewhere(s: State, stat: CountStat, k: TableName)
    requires s.job.Busy? && (s.job.point.RollRealm? || s.job.point.RollInstallation?)
    requires s.job.stat != stat || k != if s.job.point.RollRealm? then RealmTable else InstallationTable
    ensures Of(Write(s).db.Table(k), stat) == Of(s.db.Table(k), stat)
  {
    hide Pull, Of, RealmRollup, InstallationRollup, Without;
    var Busy(busy, _, time, point) := s.job;
    if point.RollRealm? {
      RollupStamped(s.src.realms, s.db.Table(busy.Output()), busy, time);
      var rows := RealmRollup(s.src.realms, s.db.Table(busy.Output()), busy, time);
      InsertSeen(s.db, RealmTable, rows, busy, time, k, stat);
    } else {
      RollupStamped(s.src.realms, s.db.realm, busy, time);
      InsertSeen(s.db, InstallationTable, InstallationRollup(s.db.realm, busy, time), busy, time, k, stat);
    }
  }

  lemma UndoElsewhere(s: State, stat: CountStat, k: TableName)
    requires s.job.Busy? && s.job.point.Undo? && JobOk(s.db.fills, Epoch(s.src), s.job)
    requires s.job.stat != stat || k != stat.UndoTables()[s.job.point.deleted]
    ensures Of(Write(s).db.Table(k), stat) == Of(s.db.Table(k), stat)
  {
    hide Pull, Of, RealmRollup, InstallationRollup, Without;
    var j := s.job.stat.UndoTables()[s.job.point.deleted];
    OfWithout(s.db.Table(j), s.job.stat, s.job.time, stat);
  }

  /** A write leaves alone every view but those of its own stat in the tables it may undo. */
  lemma WriteElsewhere(s: State, stat: CountStat, k: TableName)
    requires s.job.Busy? && JobOk(s.db.fills, Epoch(s.src), s.job)
    requires s.job.stat != stat || k !in stat.UndoTables()
    ensures Of(Write(s).db.Table(k), stat) == Of(s.db.Table(k), stat)
  {
    match s.job.point
    case Undo(n) => UndoElsewhere(s, stat, k);
    case Pulling => PullElsewhere(s, stat, k);
    case RollRealm => RollupElsewhere(s, stat, k);
    case RollInstallation => RollupElsewhere(s, stat, k);
    case _ =>
  }

  lemma RollupStamped(realms: seq<Realm>, table: seq<Row>, stat: CountStat, t: int)
    ensures Stamped(RealmRollup(realms, table, stat, t), stat, t)
    ensures Stamped(InstallationRollup(table, stat, t), stat, t)
  {
    StampSpec(Grouping.GroupSum(JoinRealms(realms, At(table, stat, t))), stat, t);
    StampSpec(Grouping.GroupSum(BySubgroup(At(table, stat, t))), stat, t);
  }

  lemma {:induction false} ReachLogOk(src: Source, es: seq<Event>, stat: CountStat)
    requires stat.Logging? && EpochFixed(src, es)
    ensures LogOk(Reach(src, es), stat)
  {
    if es != [] {
      ReachLogOk(src, es[..|es| - 1], stat);
      ReachIsSafe(src, es[..|es| - 1]);
      LogOkStep(Reach(src, es[..|es| - 1]), es[|es| - 1], stat);
    }
  }

  // ----- one write of a run keeps its own stat's views exact

  /** A completed end_time of a User-level dependency can be read back from UserCount. */
  lemma DependencyRead(s: State, d: CountStat, t: int)
    requires d in s.db.fills && FillOk(s.db.fills, Epoch(s.src), d) && ViewOk(s, d, UserTable)
    requires OnGrid(t, d.Frequency()) && Epoch(s.src) < t <= Completed(s.db.fills[d], d)
    ensures At(s.db.user, d, t) == TableRows(d, s.src, t, UserTable)
  {
    hide OnGrid, TableRows, Filled, Of, At;
    var f := s.db.fills[d];
    AtOf(s.db.user, d, t);
    GridStep(f.endTime, d.Frequency());
    AtFilled(d, s.src, f.endTime, UserTable, t);
    AtFilled(d, s.src, f.endTime - d.Step(), UserTable, t);
    TableRowsStamped(d, s.src, f.endTime, UserTable);
    AtConcat(Filled(d, s.src, f.endTime - d.Step(), UserTable), TableRows(d, s.src, f.endTime, UserTable), d, t);
    SelectStamped(TableRows(d, s.src, f.endTime, UserTable), d, f.endTime, d, t);
  }

  lemma PullIgnoresTable(stat: CountStat, src: Source, a: seq<Row>, b: seq<Row>, start: int, end: int)
    requires !stat.Logging? && !stat.RealmActiveHumans?
    ensures Pull(stat, src, a, start, end) == Pull(stat, src, b, start, end)
  {
    hide Stamp;
  }

  lemma HumansPullReads(src: Source, a: seq<Row>, b: seq<Row>, start: int, end: int)
    requires forall d :: d in RealmActiveHumans.Dependencies() ==> At(a, d, end) == At(b, d, end)
    ensures Pull(RealmActiveHumans, src, a, start, end) == Pull(RealmActiveHumans, src, b, start, end)
  {
    hide Stamp, At, JoinHumans;
    assert ActiveUsersAudit in RealmActiveHumans.Dependencies()
      && FifteenDayActives in RealmActiveHumans.Dependencies();
  }

  lemma DependencyBase(s: State, target: int, d: CountStat, t: int)
    requires forall stat :: stat in s.db.fills ==> FillOk(s.db.fills, Epoch(s.src), stat)
    requires TargetReached(s.db.fills, RealmActiveHumans, target) && t <= target
    requires OnGrid(t, Day) && Epoch(s.src) < t
    requires d in RealmActiveHumans.Dependencies() && ViewsOk(s, d)
    ensures At(s.db.user, d, t) == Pull(d, s.src, [], t - d.Interval(), t)
  {
    hide OnGrid, Of, At, Filled, Pull;
    TargetCoversGrid(s, RealmActiveHumans, target, t);
    assert UserTable in d.UndoTables();
    DependencyRead(s, d, t);
  }

  /** The pull finds in the database what FillSpec recomputes from the source. */
  lemma PullIsBase(s: State)
    requires s.job.Busy? && s.job.point.Pulling? && Safe(s)
    requires forall d :: d in s.job.stat.Dependencies() ==> ViewsOk(s, d)
    ensures var Busy(stat, _, time, _) := s.job;
      Pull(stat, s.src, s.db.user, time - stat.Interval(), time) == BaseRows(stat, s.src, time)
  {
    hide Pull, OnGrid, ViewsOk, Write, DependencyRows;
    var Busy(stat, fillTo, time, _) := s.job;
    if stat.RealmActiveHumans? {
      forall d | d in stat.Dependencies()
        ensures At(s.db.user, d, time) == At(DependencyRows(stat, s.src, time), d, time)
      {
        DependencyBase(s, fillTo, d, time);
        DependencyRowsRead(s.src, time);
      }
      HumansPullReads(s.src, s.db.user, DependencyRows(stat, s.src, time), time - stat.Interval(), time);
    } else {
      PullIgnoresTable(stat, s.src, s.db.user, DependencyRows(stat, s.src, time), time - stat.Interval(), time);
    }
  }

  lemma DependencyRowsRead(src: Source, t: int)
    ensures forall d :: d in RealmActiveHumans.Dependencies() ==>
      At(DependencyRows(RealmActiveHumans, src, t), d, t) == Pull(d, src, [], t - d.Interval(), t)
  {
    hide Pull, At, Stamped;
    var a := Pull(ActiveUsersAudit, src, [], t - ActiveUsersAudit.Interval(), t);
    var b := Pull(FifteenDayActives, src, [], t - FifteenDayActives.Interval(), t);
    PullStamped(ActiveUsersAudit, src, [], t - ActiveUsersAudit.Interval(), t);
    PullStamped(FifteenDayActives, src, [], t - FifteenDayActives.Interval(), t);
    forall d | d in RealmActiveHumans.Dependencies()
      ensures At(a + b, d, t) == Pull(d, src, [], t - d.Interval(), t)
    {
      AtConcat(a, b, d, t);
      SelectStamped(a, ActiveUsersAudit, t, d, t);
      SelectStamped(b, FifteenDayActives, t, d, t);
    }
  }

  lemma PreviousOnGrid(stat: CountStat, t: int)
    requires OnGrid(t, stat.Frequency())
    ensures OnGrid(t - stat.Step(), stat.Frequency()) && t - stat.Step() < t
  {
    hide OnGrid;
    GridStep(t, stat.Frequency());
  }

  lemma BeforeAndAfter(stat: CountStat, src: Source, t: int, k: TableName)
    requires OnGrid(t, stat.Frequency())
    ensures var before, rows := Filled(stat, src, t - stat.Step(), k), TableRows(stat, src, t, k);
      && At(before + rows, stat, t) == rows
      && Without(before, stat, t) == before
      && Without(before + rows, stat, t) == before
  {
    hide *;
    var before, rows := Filled(stat, src, t - stat.Step(), k), TableRows(stat, src, t, k);
    PreviousOnGrid(stat, t);
    AtFilled(stat, src, t - stat.Step(), k, t);
    TableRowsStamped(stat, src, t, k);
    AtConcat(before, rows, stat, t);
    WithoutConcat(before, rows, stat, t);
    SelectStamped(rows, stat, t, stat, t);
  }

  lemma LoggedBase(s: State, stat: CountStat, t: int)
    requires stat.Logging? && LogOk(s, stat)
    ensures At(Of(s.db.Table(stat.Output()), stat), stat, t) == TableRows(stat, s.src, t, stat.Output())
  {
    assert stat.Output() !in stat.UndoTables();
  }

  /** The roll-ups read the rows just inserted for this end_time, and no others. */
  lemma RollupReads(s: State, k: TableName)
    requires s.job.Busy? && JobOk(s.db.fills, Epoch(s.src), s.job) && ViewsOk(s, s.job.stat)
    requires s.job.stat.Logging? ==> LogOk(s, s.job.stat)
    requires (s.job.point.RollRealm? && k == s.job.stat.Output()) || (s.job.point.RollInstallation? && k == RealmTable)
    ensures At(s.db.Table(k), s.job.stat, s.job.time) == TableRows(s.job.stat, s.src, s.job.time, k)
  {
    hide TableRows, Filled, Of, At, OnGrid;
    var Busy(stat, _, time, point) := s.job;
    AtOf(s.db.Table(k), stat, time);
    BeforeAndAfter(stat, s.src, time, k);
    if stat.Logging? && k == stat.Output() {
      LoggedBase(s, stat, time);
    } else {
      assert ViewOk(s, stat, k);
    }
  }

  lemma UndoDeletes(s: State)
    requires s.job.Busy? && s.job.point.Undo? && JobOk(s.db.fills, Epoch(s.src), s.job)
    requires ViewOk(s, s.job.stat, s.job.stat.UndoTables()[s.job.point.deleted])
    ensures var Busy(stat, _, time, Undo(n)) := s.job; var k := stat.UndoTables()[n];
      Of(Write(s).db.Table(k), stat) == Filled(stat, s.src, time - stat.Step(), k)
  {
    hide TableRows, Filled, Pull, RealmRollup, InstallationRollup, Of, Without, OnGrid, AlreadyUndone;
    var Busy(stat, _, time, Undo(n)) := s.job;
    var k := stat.UndoTables()[n];
    BeforeAndAfter(stat, s.src, time, k);
    OfWithout(s.db.Table(k), stat, time, stat);
  }

  lemma UndoneBefore(stat: CountStat, n: nat, k: TableName)
    requires n < |stat.UndoTables()| && k in stat.UndoTables() && k != stat.UndoTables()[n]
    requires AlreadyUndone(stat, if n + 1 < |stat.UndoTables()| then Undo(n + 1) else Reset, k)
    ensures AlreadyUndone(stat, Undo(n), k)
  {
    var i :| 0 <= i < |stat.UndoTables()| && stat.UndoTables()[i] == k && i < n + 1;
  }

  lemma UndoStep(s: State, k: TableName)
    requires s.job.Busy? && s.job.point.Undo? && JobOk(s.db.fills, Epoch(s.src), s.job)
    requires k in s.job.stat.UndoTables() && ViewOk(s, s.job.stat, k)
    ensures ViewOk(Write(s), s.job.stat, k)
  {
    hide TableRows, Filled, Pull, RealmRollup, InstallationRollup, Of, Without, OnGrid, AlreadyUndone;
    var Busy(stat, _, time, Undo(n)) := s.job;
    if k == stat.UndoTables()[n] {
      UndoDeletes(s);
    } else {
      UndoElsewhere(s, stat, k);
      if AlreadyUndone(stat, Write(s).job.point, k) { UndoneBefore(stat, n, k); }
    }
  }

  lemma OutputRows(stat: CountStat, src: Source, t: int)
    ensures TableRows(stat, src, t, stat.Output()) == BaseRows(stat, src, t)
  {
    hide BaseRows;
  }

  lemma PullInserts(s: State)
    requires s.job.Busy? && s.job.point.Pulling? && Safe(s)
    requires forall d :: d in s.job.stat.Dependencies() ==> ViewsOk(s, d)
    ensures var stat, k := s.job.stat, s.job.stat.Output();
      Of(Write(s).db.Table(k), stat) == Of(s.db.Table(k), stat) + TableRows(stat, s.src, s.job.time, k)
  {
    hide RealmRollup, InstallationRollup, Of, At, Pull, OnGrid, TableRows, ViewsOk, FillOk;
    var Busy(stat, _, time, _) := s.job;
    var k, rows := stat.Output(), Pull(stat, s.src, s.db.user, time - stat.Interval(), time);
    PullIsBase(s);
    PullStamped(stat, s.src, s.db.user, time - stat.Interval(), time);
    InsertSeen(s.db, k, rows, stat, time, k, stat);
    OutputRows(stat, s.src, time);
  }

  lemma PullStep(s: State, k: TableName)
    requires s.job.Busy? && s.job.point.Pulling? && Safe(s)
    requires k in s.job.stat.UndoTables() && ViewOk(s, s.job.stat, k)
    requires forall d :: d in s.job.stat.Dependencies() ==> ViewsOk(s, d)
    ensures ViewOk(Write(s), s.job.stat, k)
  {
    hide Filled, Write, Of, OnGrid, TableRows, ViewsOk, FillOk, ViewOk;
    FillingMoves(s);
    FillingView(s, k);
    FillingView(Write(s), k);
    if k == s.job.stat.Output() {
      PullInserts(s);
    } else {
      PullElsewhere(s, s.job.stat, k);
    }
  }

  lemma RealmRowsInserted(s: State)
    requires s.job.Busy? && s.job.point.RollRealm? && JobOk(s.db.fills, Epoch(s.src), s.job)
    requires ViewsOk(s, s.job.stat)
    requires s.job.stat.Logging? ==> LogOk(s, s.job.stat)
    ensures var Busy(stat, _, time, _) := s.job;
      RealmRollup(s.src.realms, s.db.Table(stat.Output()), stat, time) == TableRows(stat, s.src, time, RealmTable)
  {
    hide Filled, Of, Pull, BaseRows, OnGrid, Stamp, At;
    var Busy(stat, _, time, _) := s.job;
    RollupReads(s, stat.Output());
    BaseRowsStamped(stat, s.src, time);
    SelectStamped(BaseRows(stat, s.src, time), stat, time, stat, time);
  }

  lemma InstallationRowsInserted(s: State)
    requires s.job.Busy? && s.job.point.RollInstallation? && JobOk(s.db.fills, Epoch(s.src), s.job)
    requires ViewsOk(s, s.job.stat)
    requires s.job.stat.Logging? ==> LogOk(s, s.job.stat)
    ensures var Busy(stat, _, time, _) := s.job;
      InstallationRollup(s.db.realm, stat, time) == TableRows(stat, s.src, time, InstallationTable)
  {
    hide Filled, Of, RealmRows, OnGrid, Stamp, At;
    var Busy(stat, _, time, _) := s.job;
    RollupReads(s, RealmTable);
    TableRowsStamped(stat, s.src, time, RealmTable);
    SelectStamped(RealmRows(stat, s.src, time), stat, time, stat, time);
  }

  lemma RealmRowsSeen(s: State)
    requires s.job.Busy? && s.job.point.RollRealm? && JobOk(s.db.fills, Epoch(s.src), s.job)
    requires ViewsOk(s, s.job.stat)
    requires s.job.stat.Logging? ==> LogOk(s, s.job.stat)
    ensures Of(Write(s).db.realm, s.job.stat)
      == Of(s.db.realm, s.job.stat) + TableRows(s.job.stat, s.src, s.job.time, RealmTable)
  {
    hide Filled, TableRows, RealmRollup, InstallationRollup, Of, Pull, OnGrid, ViewsOk, LogOk, JobOk;
    var Busy(stat, _, time, _) := s.job;
    var rows := RealmRollup(s.src.realms, s.db.Table(stat.Output()), stat, time);
    RealmRowsInserted(s);
    RollupStamped(s.src.realms, s.db.Table(stat.Output()), stat, time);
    InsertSeen(s.db, RealmTable, rows, stat, time, RealmTable, stat);
  }

  lemma RollRealmStep(s: State, k: TableName)
    requires s.job.Busy? && s.job.point.RollRealm? && JobOk(s.db.fills, Epoch(s.src), s.job)
    requires k in s.job.stat.UndoTables() && ViewsOk(s, s.job.stat)
    requires s.job.stat.Logging? ==> LogOk(s, s.job.stat)
    ensures ViewOk(Write(s), s.job.stat, k)
  {
    hide Filled, TableRows, Write, Of, OnGrid, LogOk, ViewOk;
    FillingMoves(s);
    FillingView(s, k);
    FillingView(Write(s), k);
    if k == RealmTable {
      RealmRowsSeen(s);
    } else {
      RollupElsewhere(s, s.job.stat, k);
    }
  }

  /** A stat has no rows in the tables it neither collects into nor rolls up into. */
  lemma NoRowsElsewhere(stat: CountStat, src: Source, t: int, k: TableName)
    requires k != stat.Output() && (k.UserTable? || k.StreamTable?)
    ensures TableRows(stat, src, t, k) == []
  {
  }

  lemma InstallationRowsSeen(s: State)
    requires s.job.Busy? && s.job.point.RollInstallation? && JobOk(s.db.fills, Epoch(s.src), s.job)
    requires ViewsOk(s, s.job.stat)
    requires s.job.stat.Logging? ==> LogOk(s, s.job.stat)
    ensures Of(Write(s).db.installation, s.job.stat)
      == Of(s.db.installation, s.job.stat) + TableRows(s.job.stat, s.src, s.job.time, InstallationTable)
  {
    hide Filled, TableRows, RealmRollup, InstallationRollup, Of, Pull, OnGrid, ViewsOk, LogOk, JobOk;
    var Busy(stat, _, time, _) := s.job;
    var rows := InstallationRollup(s.db.realm, stat, time);
    InstallationRowsInserted(s);
    RollupStamped(s.src.realms, s.db.realm, stat, time);
    InsertSeen(s.db, InstallationTable, rows, stat, time, InstallationTable, stat);
  }

  lemma RollInstallationStep(s: State, k: TableName)
    requires s.job.Busy? && s.job.point.RollInstallation? && JobOk(s.db.fills, Epoch(s.src), s.job)
    requires k in s.job.stat.UndoTables() && ViewsOk(s, s.job.stat)
    requires s.job.stat.Logging? ==> LogOk(s, s.job.stat)
    ensures ViewOk(Write(s), s.job.stat, k)
  {
    hide Filled, TableRows, Write, Of, OnGrid, LogOk, ViewOk;
    var stat := s.job.stat;
    FillingMoves(s);
    FillingView(s, k);
    FillingView(Write(s), k);
    if k == InstallationTable {
      InstallationRowsSeen(s);
    } else {
      RollupElsewhere(s, stat, k);
      if !Written(stat, RollInstallation, k) { NoRowsElsewhere(stat, s.src, s.job.time, k); }
    }
  }

  /** Creating or resetting the FillState row: the stat is DONE at its completed end_time. */
  lemma DoneStep(s: State, k: TableName)
    requires s.job.Busy? && (s.job.point.Create? || s.job.point.Reset?) && JobOk(s.db.fills, Epoch(s.src), s.job)
    requires k in s.job.stat.UndoTables() && ViewOk(s, s.job.stat, k)
    ensures ViewOk(Write(s), s.job.stat, k)
  {
    hide TableRows, Of, OnGrid, Pull, RealmRollup, InstallationRollup, Without, Enter;
    assert Write(s).db.Table(k) == s.db.Table(k);
  }

  lemma MarkStep(s: State, k: TableName)
    requires s.job.Busy? && s.job.point.Mark? && JobOk(s.db.fills, Epoch(s.src), s.job)
    requires k in s.job.stat.UndoTables() && ViewOk(s, s.job.stat, k)
    ensures ViewOk(Write(s), s.job.stat, k)
  {
    hide TableRows, Filled, Of, OnGrid, Pull, RealmRollup, InstallationRollup, Without, Enter;
    assert Write(s).db.Table(k) == s.db.Table(k);
    assert !Written(s.job.stat, FirstPoint(s.job.stat), k);
  }

  lemma FinishStep(s: State, k: TableName)
    requires s.job.Busy? && s.job.point.Finish? && JobOk(s.db.fills, Epoch(s.src), s.job) && Epoch(s.src) < s.job.time
    requires k in s.job.stat.UndoTables() && ViewOk(s, s.job.stat, k)
    ensures ViewOk(Write(s), s.job.stat, k)
  {
    hide TableRows, Of, OnGrid, Pull, RealmRollup, InstallationRollup, Without, Enter;
    assert Write(s).db.Table(k) == s.db.Table(k);
  }

  lemma OwnWriteStep(s: State, k: TableName)
    requires s.job.Busy? && Safe(s)
    requires k in s.job.stat.UndoTables() && ViewsOk(s, s.job.stat)
    requires s.job.stat.Logging? ==> LogOk(s, s.job.stat)
    requires forall d :: d in s.job.stat.Dependencies() ==> ViewsOk(s, d)
    ensures ViewOk(Write(s), s.job.stat, k)
  {
    match s.job.point
    case Undo(_) => UndoStep(s, k);
    case Pulling => PullStep(s, k);
    case RollRealm => RollRealmStep(s, k);
    case RollInstallation => RollInstallationStep(s, k);
    case Mark => MarkStep(s, k);
    case Finish => FinishStep(s, k);
    case _ => DoneStep(s, k);
  }

  // ----- every event keeps the views exact

  /** Traffic does not touch the windows that stat has closed or is filling. */
  ghost predicate Undisturbed(s: State, e: Event, stat: CountStat) {
    (e.Log? || e.Grow?) && stat in s.db.fills ==>
      forall t, k {:trigger TableRows(stat, s.src, t, k)} ::
        OnGrid(t, stat.Frequency()) && Epoch(s.src) < t <= s.db.fills[stat].endTime ==>
          TableRows(stat, Apply(s, e).src, t, k) == TableRows(stat, s.src, t, k)
  }

  /** Throughout the history, the epoch is fixed and stat and its dependencies are undisturbed. */
  ghost predicate Stable(src: Source, es: seq<Event>, stat: CountStat) {
    es != [] ==>
      var s, e := Reach(src, es[..|es| - 1]), es[|es| - 1];
      Stable(src, es[..|es| - 1], stat) && EpochKept(s, e)
      && Undisturbed(s, e, stat) && forall d :: d in stat.Dependencies() ==> Undisturbed(s, e, d)
  }

  lemma {:induction false} StableFixesEpoch(src: Source, es: seq<Event>, stat: CountStat)
    requires Stable(src, es, stat)
    ensures EpochFixed(src, es)
  {
    if es != [] { StableFixesEpoch(src, es[..|es| - 1], stat); }
  }

  lemma {:induction false} StableForDependencies(src: Source, es: seq<Event>, stat: CountStat, d: CountStat)
    requires Stable(src, es, stat) && d in stat.Dependencies()
    ensures Stable(src, es, d)
  {
    if es != [] { StableForDependencies(src, es[..|es| - 1], stat, d); }
  }

  lemma SourceStep(s: State, src: Source, stat: CountStat, k: TableName)
    requires Epoch(src) == Epoch(s.src) && Safe(s) && ViewOk(s, stat, k)
    requires stat in s.db.fills ==>
      forall t :: OnGrid(t, stat.Frequency()) && Epoch(s.src) < t <= s.db.fills[stat].endTime ==>
        TableRows(stat, s.src, t, k) == TableRows(stat, src, t, k)
    ensures ViewOk(s.(src := src), stat, k)
  {
    hide TableRows, Filled, Of;
    if stat in s.db.fills {
      var t := s.db.fills[stat].endTime;
      GridStep(t, stat.Frequency());
      FilledAgree(stat, s.src, src, t, k);
      FilledAgree(stat, s.src, src, t - stat.Step(), k);
    }
  }

  lemma LogStep(s: State, i: Increment, stat: CountStat, k: TableName)
    requires Fits(i) && k in stat.UndoTables()
    ensures Of(Apply(s, Log(i)).db.Table(k), stat) == Of(s.db.Table(k), stat)
  {
    hide IncrementRow, Of;
    OfIncrement(s.db.Table(i.stat.Output()), i.stat, i.slot, i.EndTime(), i.amount, stat);
  }

  /** ViewOk reads the fills, the job, the source and the stat's own rows. */
  lemma SameView(s: State, db: Db, stat: CountStat, k: TableName)
    requires ViewOk(s, stat, k) && db.fills == s.db.fills && Of(db.Table(k), stat) == Of(s.db.Table(k), stat)
    ensures ViewOk(s.(db := db), stat, k)
  {
    hide TableRows, Filled, Of;
  }

  lemma TrafficStep(s: State, e: Event, stat: CountStat, k: TableName)
    requires (e.Log? || e.Grow?) && EpochKept(s, e) && Undisturbed(s, e, stat)
    requires Safe(s) && k in stat.UndoTables() && ViewOk(s, stat, k)
    ensures ViewOk(Apply(s, e), stat, k)
  {
    hide TableRows, Filled, Of, IncrementRow, ViewOk, Safe;
    var after := Apply(s, e);
    SourceStep(s, after.src, stat, k);
    if e.Log? && Fits(e.increment) {
      LogStep(s, e.increment, stat, k);
    }
    SameView(s.(src := after.src), after.db, stat, k);
    assert after == s.(src := after.src, db := after.db);
  }

  lemma JobStep(s: State, e: Event, stat: CountStat, k: TableName)
    requires e.Call? || e.Crash? || (e.Step? && s.job.Idle?)
    requires ViewOk(s, stat, k)
    ensures ViewOk(Apply(s, e), stat, k)
  {
    hide TableRows, Filled, Of;
  }

  lemma OtherWriteStep(s: State, stat: CountStat, k: TableName)
    requires s.job.Busy? && s.job.stat != stat && Safe(s) && ViewOk(s, stat, k)
    ensures ViewOk(Write(s), stat, k)
  {
    hide TableRows, Filled, Of, Write;
    WriteElsewhere(s, stat, k);
    OtherJob(s);
  }

  lemma ViewStep(s: State, e: Event, stat: CountStat, k: TableName)
    requires EpochKept(s, e) && Undisturbed(s, e, stat)
    requires Safe(s) && k in stat.UndoTables() && ViewsOk(s, stat)
    requires stat.Logging? ==> LogOk(s, stat)
    requires forall d :: d in stat.Dependencies() ==> ViewsOk(s, d)
    ensures ViewOk(Apply(s, e), stat, k)
  {
    hide ViewOk, LogOk, Write, Safe, Undisturbed, Begin;
    assert ViewOk(s, stat, k);
    if e.Log? || e.Grow? {
      TrafficStep(s, e, stat, k);
    } else if e.Step? && s.job.Busy? {
      if s.job.stat == stat {
        OwnWriteStep(s, k);
      } else {
        OtherWriteStep(s, stat, k);
      }
    } else {
      JobStep(s, e, stat, k);
    }
  }

  lemma OtherJob(s: State)
    requires s.job.Busy?
    ensures Write(s).src == s.src
    ensures Write(s).job.Busy? ==> Write(s).job.stat == s.job.stat
    ensures forall stat :: stat != s.job.stat ==>
      (stat in Write(s).db.fills <==> stat in s.db.fills) && (stat in s.db.fills ==>
          Write(s).db.fills[stat] == s.db.fills[stat])
  {
    hide Pull, RealmRollup, InstallationRollup, Without;
  }

  /** Main invariant: all views of all stats stay exact, whatever is called, cut off or logged. */
  lemma {:induction false} ReachViewsOk(src: Source, es: seq<Event>, stat: CountStat)
    requires Stable(src, es, stat)
    ensures ViewsOk(Reach(src, es), stat)
    decreases |es|, |stat.Dependencies()|
  {
    if es != [] {
      var init, e := es[..|es| - 1], es[|es| - 1];
      var s := Reach(src, init);
      StableFixesEpoch(src, es, stat);
      ReachIsSafe(src, init);
      ReachViewsOk(src, init, stat);
      if stat.Logging? { ReachLogOk(src, init, stat); }
      forall d | d in stat.Dependencies() ensures ViewsOk(s, d) {
        StableForDependencies(src, init, stat, d);
        ReachViewsOk(src, init, d);
      }
      forall k | k in stat.UndoTables() ensures ViewOk(Reach(src, es), stat, k) {
        ViewStep(s, e, stat, k);
      }
    }
  }
}
