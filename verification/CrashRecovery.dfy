/** The main results about histories of runs, crashes and traffic. */
module CrashRecovery {
  import opened TimeGrid
  import opened CountStats
  import opened CountTables
  import opened SourceData
  import opened Queries
  import opened FillMachine
  import opened FillSafety
  import opened FillSpec
  import opened FillExactness
  import opened FillRuns
  import opened Rollups
  import opened RowKeys

  lemma ReachIsExact(src: Source, es: seq<Event>, stat: CountStat)
    requires Stable(src, es, stat)
    ensures Exact(Reach(src, es), stat)
  {
    hide ViewsOk, LogOk, Safe;
    StableFixesEpoch(src, es, stat);
    ReachIsSafe(src, es);
    ReachViewsOk(src, es, stat);
    if stat.Logging? { ReachLogOk(src, es, stat); }
    forall d | d in stat.Dependencies() ensures ViewsOk(Reach(src, es), d) {
      StableForDependencies(src, es, stat, d);
      ReachViewsOk(src, es, d);
    }
  }

  /** Crash recovery is exact: two histories, with any calls, crashes and partial undos in them,
      that leave the same source and the same DONE FillState of stat leave the same rows of stat
      in all four tables. One of the two may be a single uninterrupted run. */
  lemma CrashRecoveryIsExact(src1: Source, es1: seq<Event>, src2: Source, es2: seq<Event>, stat: CountStat,
      k: TableName)
    requires Stable(src1, es1, stat) && Stable(src2, es2, stat)
    requires Reach(src1, es1).src == Reach(src2, es2).src
    requires stat in Reach(src1, es1).db.fills && stat in Reach(src2, es2).db.fills
    requires Reach(src1, es1).db.fills[stat] == Reach(src2, es2).db.fills[stat]
    requires Reach(src1, es1).db.fills[stat].phase.Done?
    ensures Of(Reach(src1, es1).db.Table(k), stat) == Of(Reach(src2, es2).db.Table(k), stat)
  {
    hide Exact, Stable;
    ReachIsExact(src1, es1, stat);
    ReachIsExact(src2, es2, stat);
    DoneRows(Reach(src1, es1), Reach(src2, es2), stat, k);
  }

  function Steps(n: nat): seq<Event> { if n == 0 then [] else Steps(n - 1) + [Step] }

  /** Uninterrupted runs are histories: calling stat and making n writes. */
  lemma {:induction false} RunIsHistory(src: Source, es: seq<Event>, stat: CountStat, fillTo: int, n: nat)
    requires Reach(src, es).job.Idle?
    ensures Reach(src, es + [Call(stat, fillTo)] + Steps(n)) == Writes(Called(Reach(src, es), stat, fillTo), n)
  {
    hide Write, Begin;
    var all := es + [Call(stat, fillTo)] + Steps(n);
    if n == 0 {
      assert all == es + [Call(stat, fillTo)] && all[..|all| - 1] == es;
    } else {
      RunIsHistory(src, es, stat, fillTo, n - 1);
      assert all[..|all| - 1] == es + [Call(stat, fillTo)] + Steps(n - 1);
      LastWrite(Called(Reach(src, es), stat, fillTo), n - 1);
    }
  }

  lemma {:induction false} LastWrite(s: State, n: nat)
    ensures Writes(s, n + 1) == if Writes(s, n).job.Busy? then Write(Writes(s, n)) else Writes(s, n)
    decreases n
  {
    hide Write;
    if n > 0 && s.job.Busy? {
      LastWrite(Write(s), n - 1);
    } else if s.job.Busy? {
      assert Writes(s, 1) == Writes(Write(s), 0);
    }
  }

  /** Reading one completed end_time, also while a later one is STARTED, half written or half undone:
      every table holds exactly the rows that the source defines for it. */
  lemma CompletedRows(s: State, stat: CountStat, t: int, k: TableName)
    requires Exact(s, stat) && stat in s.db.fills && OnGrid(t, stat.Frequency())
    requires Epoch(s.src) < t <= Completed(s.db.fills[stat], stat)
    ensures At(s.db.Table(k), stat, t) == TableRows(stat, s.src, t, k)
  {
    hide Of, At, Filled, Logged, TableRows, OnGrid;
    AtOf(s.db.Table(k), stat, t);
    if k in stat.UndoTables() {
      ManagedRows(s, stat, t, k);
    } else if k == stat.Output() {
      LoggedBase(s, stat, t);
    } else {
      UnmanagedRows(s, stat, t, k);
    }
  }

  lemma UnmanagedRows(s: State, stat: CountStat, t: int, k: TableName)
    requires Exact(s, stat) && k !in stat.UndoTables() && k != stat.Output()
    ensures At(Of(s.db.Table(k), stat), stat, t) == [] == TableRows(stat, s.src, t, k)
  {
    hide Filled, Of, Safe;
    assert Of(s.db.Table(k), stat) == [];
  }

  lemma ManagedRows(s: State, stat: CountStat, t: int, k: TableName)
    requires Exact(s, stat) && stat in s.db.fills && OnGrid(t, stat.Frequency()) && k in stat.UndoTables()
    requires t <= Completed(s.db.fills[stat], stat)
    ensures At(Of(s.db.Table(k), stat), stat, t) == if Epoch(s.src) < t then TableRows(stat, s.src, t, k) else []
  {
    hide Of, At, Filled, TableRows, OnGrid, LogOk, ViewsOk;
    var f := s.db.fills[stat];
    ManagedView(s, stat, k);
    if f.phase.Started? {
      hide ViewOk;
      StartedRows(stat, s.src, f.endTime, t, k);
    } else {
      AtFilled(stat, s.src, f.endTime, k, t);
    }
  }

  /** The rows of a STARTED end_time do not show at an earlier one. */
  lemma StartedRows(stat: CountStat, src: Source, end: int, t: int, k: TableName)
    requires OnGrid(end, stat.Frequency()) && OnGrid(t, stat.Frequency()) && t <= end - stat.Step()
    ensures var before := Filled(stat, src, end - stat.Step(), k);
      var rows := if Epoch(src) < t then TableRows(stat, src, t, k) else [];
      At(before, stat, t) == rows && At(before + TableRows(stat, src, end, k), stat, t) == rows
  {
    hide At, Filled, TableRows, OnGrid;
    GridStep(end, stat.Frequency());
    AtFilled(stat, src, end - stat.Step(), k, t);
    TableRowsStamped(stat, src, end, k);
    AtConcat(Filled(stat, src, end - stat.Step(), k), TableRows(stat, src, end, k), stat, t);
    SelectStamped(TableRows(stat, src, end, k), stat, end, stat, t);
  }

  lemma ManagedView(s: State, stat: CountStat, k: TableName)
    requires ViewsOk(s, stat) && k in stat.UndoTables()
    ensures ViewOk(s, stat, k)
  {
  }

  /** Before the epoch there is nothing to read. */
  lemma NothingBeforeEpoch(s: State, stat: CountStat, t: int, k: TableName)
    requires Exact(s, stat) && stat in s.db.fills && OnGrid(t, stat.Frequency()) && k in stat.UndoTables()
    requires t <= Epoch(s.src)
    ensures At(s.db.Table(k), stat, t) == []
  {
    hide Of, At, Filled, TableRows, ViewsOk, LogOk;
    DayIsOnHourGrid(Epoch(s.src), stat.Frequency());
    var f := s.db.fills[stat];
    if f.phase.Started? { GridGap(Epoch(s.src), f.endTime, stat.Frequency()); }
    AtOf(s.db.Table(k), stat, t);
    ManagedRows(s, stat, t, k);
  }

  lemma RealmRowsConserve(stat: CountStat, src: Source, t: int, g: Subgroup)
    requires stat.Output() != RealmTable ==> UniqueRealms(src.realms) && Covered(BaseRows(stat, src, t), src.realms)
    ensures SubgroupSum(RealmRows(stat, src, t), g) == SubgroupSum(BaseRows(stat, src, t), g)
  {
    hide BaseRows, RealmRollup, Covered, SubgroupSum;
    BaseRowsStamped(stat, src, t);
    SelectStamped(BaseRows(stat, src, t), stat, t, stat, t);
    if stat.Output() != RealmTable {
      RealmRollupConserves(src.realms, BaseRows(stat, src, t), stat, t, g);
    }
  }

  lemma InstallationRowsConserve(stat: CountStat, src: Source, t: int, g: Subgroup)
    ensures var rows, realmRows := TableRows(stat, src, t, InstallationTable), RealmRows(stat, src, t);
      && SubgroupSum(rows, g) == SubgroupSum(realmRows, g)
      && UniqueRows(rows)
      && ((exists r :: r in rows && r.subgroup == g) <==> exists r :: r in realmRows && r.subgroup == g)
  {
    hide RealmRows, InstallationRollup, SubgroupSum, UniqueRows;
    TableRowsStamped(stat, src, t, RealmTable);
    SelectStamped(RealmRows(stat, src, t), stat, t, stat, t);
    InstallationRollupSpec(RealmRows(stat, src, t), stat, t, g);
  }

  /** Roll-up conservation at a completed end_time: subgroup by subgroup, InstallationCount,
      RealmCount and the output table hold the same sum, and InstallationCount has a row exactly
      for each subgroup that occurs. */
  lemma RollupsConserve(src: Source, es: seq<Event>, stat: CountStat, t: int, g: Subgroup)
    requires Stable(src, es, stat) && OnGrid(t, stat.Frequency())
    requires var s := Reach(src, es);
      && stat in s.db.fills && Epoch(s.src) < t <= Completed(s.db.fills[stat], stat)
      && (stat.Output() != RealmTable ==>
          UniqueRealms(s.src.realms) && Covered(At(s.db.Table(stat.Output()), stat, t), s.src.realms))
    ensures var db := Reach(src, es).db;
      && SubgroupSum(At(db.installation, stat, t), g) == SubgroupSum(At(db.realm, stat, t), g)
      && SubgroupSum(At(db.realm, stat, t), g) == SubgroupSum(At(db.Table(stat.Output()), stat, t), g)
      && UniqueRows(At(db.installation, stat, t))
      && ((exists r :: r in At(db.installation, stat, t) && r.subgroup == g)
            <==> exists r :: r in At(db.realm, stat, t) && r.subgroup == g)
  {
    hide Exact, Stable, Reach, At, TableRows, UniqueRows, Covered, OnGrid, SubgroupSum, UniqueRealms;
    var s := Reach(src, es);
    ReachIsExact(src, es, stat);
    CompletedRows(s, stat, t, RealmTable);
    CompletedRows(s, stat, t, InstallationTable);
    CompletedRows(s, stat, t, stat.Output());
    OutputRows(stat, s.src, t);
    RealmTableRows(stat, s.src, t);
    InstallationRowsConserve(stat, s.src, t, g);
    RealmRowsConserve(stat, s.src, t, g);
  }

  /** Conservation needs no hypothesis on the tables: the source's foreign keys are enough. */
  lemma PulledRollupsConserve(src: Source, es: seq<Event>, stat: CountStat, t: int, g: Subgroup)
    requires !stat.Logging? && Stable(src, es, stat) && OnGrid(t, stat.Frequency())
    requires var s := Reach(src, es);
      && stat in s.db.fills && Epoch(s.src) < t <= Completed(s.db.fills[stat], stat)
      && UniqueRealms(s.src.realms) && UsersHaveRealms(s.src) && StreamsHaveRealms(s.src) && EventsHaveRealms(s.src)
    ensures var db := Reach(src, es).db;
      && SubgroupSum(At(db.installation, stat, t), g) == SubgroupSum(At(db.realm, stat, t), g)
      && SubgroupSum(At(db.realm, stat, t), g) == SubgroupSum(At(db.Table(stat.Output()), stat, t), g)
  {
    hide Exact, Stable, Reach, At, BaseRows, UniqueRows, Covered, OnGrid, SubgroupSum, UniqueRealms;
    var s := Reach(src, es);
    ReachIsExact(src, es, stat);
    CompletedRows(s, stat, t, stat.Output());
    OutputRows(stat, s.src, t);
    if stat.Output() != RealmTable { BaseIsCovered(stat, s.src, t); }
    RollupsConserve(src, es, stat, t, g);
  }

  lemma RealmTableRows(stat: CountStat, src: Source, t: int)
    ensures TableRows(stat, src, t, RealmTable) == RealmRows(stat, src, t)
  {
    hide RealmRows;
  }

  /** The same one level down: RealmCount has a row exactly for each realm and subgroup that
      occurs in the output table, holding the sum of that realm's rows. */
  lemma RealmRowsAreSums(src: Source, es: seq<Event>, stat: CountStat, t: int, realm: Realm, g: Subgroup)
    requires Stable(src, es, stat) && OnGrid(t, stat.Frequency()) && stat.Output() != RealmTable
    requires var s := Reach(src, es);
      && stat in s.db.fills && Epoch(s.src) < t <= Completed(s.db.fills[stat], stat)
      && UniqueRealms(s.src.realms) && realm in s.src.realms
    ensures var db := Reach(src, es).db;
      var realmRows, rows := At(db.realm, stat, t), At(db.Table(stat.Output()), stat, t);
      && UniqueRows(realmRows)
      && SlotSum(realmRows, Slot(RealmKey(realm.id), g)) == RealmSum(rows, realm.id, g)
      && ((exists r :: r in realmRows && Slot(r.key, r.subgroup) == Slot(RealmKey(realm.id), g))
            <==> exists r :: r in rows && InRealm(r.key, realm.id) && r.subgroup == g)
  {
    hide Exact, Stable, Reach, At, Stamp, BaseRows, RealmRollup, UniqueRows, SlotSum, RealmSum, InRealm;
    var s := Reach(src, es);
    ReachIsExact(src, es, stat);
    CompletedRows(s, stat, t, RealmTable);
    CompletedRows(s, stat, t, stat.Output());
    BaseRowsStamped(stat, s.src, t);
    SelectStamped(BaseRows(stat, s.src, t), stat, t, stat, t);
    RealmRollupSpec(s.src.realms, BaseRows(stat, s.src, t), stat, t, realm, g);
  }
}
