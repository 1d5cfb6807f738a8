/** What the tables hold when the source is not fixed: whatever is moved, edited or deleted meanwhile, a
    completed end_time holds its query on the source as it was when the pull ran, rolled up over the
    realms as they were when the roll-up began. */
module Origins {
  import opened TimeGrid
  import opened Grouping
  import opened CountStats
  import opened CountTables
  import opened SourceData
  import opened Queries
  import opened FillMachine
  import opened FillSafety
  import opened FillSpec
  import opened FillExactness

  /** The rows of table k at t that a pull in the state p and roll-ups begun in the state r give. */
  function RowsFrom(p: State, r: State, stat: CountStat, t: int, k: TableName): seq<Row> {
    var base :=
      if stat.Logging? then At(Logged(r.src.increments, stat), stat, t)
      else Pull(stat, p.src, p.db.user, t - stat.Interval(), t);
    var realmRows := if stat.Output() == RealmTable then base else RealmRollup(r.src.realms, base, stat, t);
    match k
    case RealmTable => realmRows
    case InstallationTable => InstallationRollup(realmRows, stat, t)
    case _ => if k == stat.Output() then base else []
  }

  /** The rows at t in a table k that stat's runs write. */
  ghost predicate RowsOk(s: State, stat: CountStat, t: int, p: State, r: State, k: TableName) {
    var rows, from := At(s.db.Table(k), stat, t), RowsFrom(p, r, stat, t, k);
    if stat !in s.db.fills || s.db.fills[stat].endTime < t then rows == []
    else if t <= Completed(s.db.fills[stat], stat) then rows == from
    else
      && (rows == [] || rows == from)
      && (s.job.Busy? && s.job.stat == stat ==>
            && (AlreadyUndone(stat, s.job.point, k) ==> rows == [])
            && (IsFilling(s.job.point) ==> rows == if Written(stat, s.job.point, k) then from else []))
  }

  /** The hypotheses under which everything here is stated. */
  ghost predicate Sound(s: State, stat: CountStat, t: int) {
    && Safe(s) && (stat.Logging? ==> LogOk(s, stat))
    && OnGrid(t, stat.Frequency()) && Epoch(s.src) < t
  }

  lemma SoundParts(s: State, stat: CountStat, t: int)
    requires Sound(s, stat, t)
    ensures OnGrid(t, stat.Frequency()) && Epoch(s.src) < t && JobOk(s.db.fills, Epoch(s.src), s.job)
    ensures stat in s.db.fills ==> OnGrid(s.db.fills[stat].endTime, stat.Frequency())
  {
  }

  // ----- events other than stat's own writes

  lemma SameRowsOk(s: State, s': State, stat: CountStat, t: int, p: State, r: State, k: TableName)
    requires RowsOk(s, stat, t, p, r, k)
    requires At(s'.db.Table(k), stat, t) == At(s.db.Table(k), stat, t)
    requires stat in s'.db.fills <==> stat in s.db.fills
    requires stat in s.db.fills ==> s'.db.fills[stat] == s.db.fills[stat]
    requires s'.job.Busy? && s'.job.stat == stat ==>
      s'.job == s.job || s'.job.point.Create? || s'.job.point == Undo(0) || s'.job.point.Mark?
    ensures RowsOk(s', stat, t, p, r, k)
  {
    hide RowsFrom, At;
  }

  lemma OtherEventKeepsRows(s: State, e: Event, stat: CountStat, t: int, p: State, r: State, k: TableName)
    requires Sound(s, stat, t) && k in stat.UndoTables() && RowsOk(s, stat, t, p, r, k)
    requires e.Step? && s.job.Busy? ==> s.job.stat != stat
    ensures RowsOk(Apply(s, e), stat, t, p, r, k)
  {
    hide RowsFrom, At, Of, RowsOk, Write, IncrementRow, LogOk, FillOk, OnGrid;
    var s' := Apply(s, e);
    AtOf(s.db.Table(k), stat, t);
    AtOf(s'.db.Table(k), stat, t);
    if e.Step? && s.job.Busy? {
      WriteElsewhere(s, stat, k);
      OtherJob(s);
    } else if e.Log? && Fits(e.increment) {
      LogStep(s, e.increment, stat, k);
    }
    SameRowsOk(s, s', stat, t, p, r, k);
  }

  // ----- stat's own writes

  /** The rows at t after a write for time. */
  lemma InsertedAt(table: seq<Row>, rows: seq<Row>, stat: CountStat, time: int, t: int)
    requires Stamped(rows, stat, time)
    ensures At(table + rows, stat, t) == At(table, stat, t) + if t == time then rows else []
  {
    AtConcat(table, rows, stat, t);
    SelectStamped(rows, stat, time, stat, t);
  }

  lemma {:induction false} DeletedAt(rows: seq<Row>, stat: CountStat, time: int, t: int)
    ensures At(Without(rows, stat, time), stat, t) == if t == time then [] else At(rows, stat, t)
  {
    if rows != [] { DeletedAt(rows[1..], stat, time, t); }
  }

  /** What the own write adds to table k. */
  function Inserts(s: State, k: TableName): seq<Row>
    requires s.job.Busy?
  {
    var Busy(stat, _, time, point) := s.job;
    if point.Pulling? && !stat.Logging? && k == stat.Output() then
      Pull(stat, s.src, s.db.user, time - stat.Interval(), time)
    else if point.RollRealm? && k == RealmTable then RealmRollup(s.src.realms, s.db.Table(stat.Output()), stat, time)
    else if point.RollInstallation? && k == InstallationTable then InstallationRollup(s.db.realm, stat, time)
    else []
  }

  /** What the own write does to the tables. */
  lemma OwnWriteTables(s: State, k: TableName)
    requires s.job.Busy? && JobOk(s.db.fills, Epoch(s.src), s.job)
    ensures var Busy(stat, _, time, point) := s.job;
      Write(s).db.Table(k)
        == if point.Undo? && stat.UndoTables()[point.deleted] == k then Without(s.db.Table(k), stat, time)
           else s.db.Table(k) + Inserts(s, k)
  {
    hide Pull, RealmRollup, InstallationRollup, Without, OnGrid, TargetReached, Enter, Loop;
  }

  lemma InsertsStamped(s: State, k: TableName)
    requires s.job.Busy?
    ensures Stamped(Inserts(s, k), s.job.stat, s.job.time)
  {
    hide Pull, RealmRollup, InstallationRollup;
    var Busy(stat, _, time, point) := s.job;
    if point.Pulling? && !stat.Logging? { PullStamped(stat, s.src, s.db.user, time - stat.Interval(), time); }
    RollupStamped(s.src.realms, s.db.Table(stat.Output()), stat, time);
    RollupStamped(s.src.realms, s.db.realm, stat, time);
  }

  lemma OwnWriteAt(s: State, k: TableName, t: int)
    requires s.job.Busy? && JobOk(s.db.fills, Epoch(s.src), s.job)
    ensures var Busy(stat, _, time, point) := s.job;
      At(Write(s).db.Table(k), stat, t)
        == if t == time && point.Undo? && stat.UndoTables()[point.deleted] == k then []
           else At(s.db.Table(k), stat, t) + if t == time then Inserts(s, k) else []
  {
    hide At, Write, Without, Inserts, Stamped;
    OwnWriteTables(s, k);
    InsertsStamped(s, k);
    DeletedAt(s.db.Table(k), s.job.stat, s.job.time, t);
    InsertedAt(s.db.Table(k), Inserts(s, k), s.job.stat, s.job.time, t);
  }

  /** The fills and the job after the own write, point by point. */
  lemma OwnWriteMoves(s: State)
    requires s.job.Busy? && JobOk(s.db.fills, Epoch(s.src), s.job)
    ensures var Busy(stat, _, time, point) := s.job; var fills, job := Write(s).db.fills, Write(s).job;
      && stat in fills
      && (job.Busy? ==> job.stat == stat)
      && match point
         case Create => fills[stat] == FillState(time, Done) && (job.Busy? ==> job.point.Mark?)
         case Undo(n) =>
           fills == s.db.fills && job == s.job.(point := if n + 1 < |stat.UndoTables()| then Undo(n + 1) else Reset)
         case Reset => fills[stat] == FillState(time - stat.Step(), Done) && (job.Busy? ==> job.point.Mark?)
         case Mark => fills[stat] == FillState(time, Started) && job == s.job.(point := FirstPoint(stat))
         case Finish => fills[stat] == FillState(time, Done) && (job.Busy? ==> job.point.Mark?)
         case Pulling => fills == s.db.fills && job == s.job.(point := SummaryPoint(stat))
         case RollRealm => fills == s.db.fills && job == s.job.(point := RollInstallation)
         case RollInstallation => fills == s.db.fills && job == s.job.(point := Finish)
  {
    hide Pull, RealmRollup, InstallationRollup, Without, OnGrid, TargetReached;
  }

  /** A write for another end_time. */
  lemma OtherTimeKeepsRows(s: State, t: int, p: State, r: State, k: TableName)
    requires s.job.Busy? && s.job.time != t && Sound(s, s.job.stat, t) && RowsOk(s, s.job.stat, t, p, r, k)
    ensures RowsOk(Write(s), s.job.stat, t, p, r, k)
  {
    hide RowsFrom, At, Write, Inserts, AlreadyUndone, Sound;
    var Busy(stat, _, time, _) := s.job;
    SoundParts(s, stat, t);
    hide OnGrid;
    OwnWriteAt(s, k, t);
    OwnWriteMoves(s);
    NoGap(stat, t, time);
  }

  lemma NoGap(stat: CountStat, t: int, u: int)
    requires OnGrid(t, stat.Frequency()) && OnGrid(u, stat.Frequency()) && t != u
    ensures t < u ==> t <= u - stat.Step()
    ensures u < t ==> u <= t - stat.Step()
  {
    hide OnGrid;
    if t < u { GridGap(t, u, stat.Frequency()); } else { GridGap(u, t, stat.Frequency()); }
  }

  /** Before an end_time is marked and once it is undone it has no rows. */
  lemma MarkKeepsRows(s: State, p: State, r: State, k: TableName)
    requires s.job.Busy? && (s.job.point.Create? || s.job.point.Mark? || s.job.point.Reset? || s.job.point.Finish?)
    requires Sound(s, s.job.stat, s.job.time) && k in s.job.stat.UndoTables()
    requires RowsOk(s, s.job.stat, s.job.time, p, r, k)
    ensures RowsOk(Write(s), s.job.stat, s.job.time, p, r, k)
  {
    hide RowsFrom, At, Write, OnGrid, Sound;
    SoundParts(s, s.job.stat, s.job.time);
    OwnWriteAt(s, k, s.job.time);
    OwnWriteMoves(s);
  }

  lemma UndoKeepsRows(s: State, p: State, r: State, k: TableName)
    requires s.job.Busy? && s.job.point.Undo?
    requires Sound(s, s.job.stat, s.job.time) && k in s.job.stat.UndoTables()
    requires RowsOk(s, s.job.stat, s.job.time, p, r, k)
    ensures RowsOk(Write(s), s.job.stat, s.job.time, p, r, k)
  {
    hide RowsFrom, At, Write, OnGrid, Sound, AlreadyUndone, Written;
    var Busy(stat, _, time, Undo(n)) := s.job;
    SoundParts(s, stat, time);
    OwnWriteAt(s, k, time);
    OwnWriteMoves(s);
    if AlreadyUndone(stat, Write(s).job.point, k) && k != stat.UndoTables()[n] { UndoneBefore(stat, n, k); }
  }

  lemma PulledOutput(p: State, r: State, stat: CountStat, t: int)
    requires !stat.Logging?
    ensures RowsFrom(p, r, stat, t, stat.Output()) == Pull(stat, p.src, p.db.user, t - stat.Interval(), t)
  {
    hide Pull, RealmRollup, InstallationRollup;
  }

  /** While a run fills an end_time, the rows there are known. */
  lemma RowsWhileFilling(s: State, p: State, r: State, k: TableName)
    requires s.job.Busy? && IsFilling(s.job.point) && s.job.stat in s.db.fills
    requires s.db.fills[s.job.stat] == FillState(s.job.time, Started)
    ensures var Busy(stat, _, time, point) := s.job;
      RowsOk(s, stat, time, p, r, k)
      <==> At(s.db.Table(k), stat, time) == if Written(stat, point, k) then RowsFrom(p, r, stat, time, k) else []
  {
    hide At, RowsFrom, Written;
  }

  /** The filling writes before the last one: the run stays at time, one point on. */
  lemma FillingGoesOn(s: State)
    requires s.job.Busy? && IsFilling(s.job.point) && !s.job.point.Finish? && Sound(s, s.job.stat, s.job.time)
    ensures s.job.stat in s.db.fills && s.db.fills[s.job.stat] == FillState(s.job.time, Started)
    ensures Write(s).db.fills == s.db.fills
    ensures Write(s).job == s.job.(point :=
      match s.job.point
      case Pulling => SummaryPoint(s.job.stat)
      case RollRealm => RollInstallation
      case _ => Finish)
    ensures s.job.point.Pulling? ==> !s.job.stat.Logging?
    ensures s.job.point.RollRealm? ==> s.job.stat.Output() != RealmTable
  {
    hide Write, OnGrid, FillOk, TargetReached, LogOk;
    OwnWriteMoves(s);
  }

  /** The pull of t: from here on p is this state. */
  lemma PullKeepsRows(s: State, p: State, r: State, k: TableName)
    requires s.job.Busy? && s.job.point.Pulling? && Sound(s, s.job.stat, s.job.time)
    requires k in s.job.stat.UndoTables() && RowsOk(s, s.job.stat, s.job.time, p, r, k)
    ensures RowsOk(Write(s), s.job.stat, s.job.time, s, r, k)
  {
    hide At, Write, OnGrid, Sound, Pull, RowsFrom, RowsOk;
    SoundParts(s, s.job.stat, s.job.time);
    FillingGoesOn(s);
    PulledOutput(s, r, s.job.stat, s.job.time);
    OwnWriteAt(s, k, s.job.time);
    RowsWhileFilling(s, p, r, k);
    RowsWhileFilling(Write(s), s, r, k);
  }

  /** The output table holds at time what the pull, or the increments so far, put there. */
  lemma OutputAt(s: State, p: State, r: State)
    requires s.job.Busy? && s.job.point == SummaryPoint(s.job.stat) && Sound(s, s.job.stat, s.job.time)
    requires !s.job.stat.Logging? ==> RowsOk(s, s.job.stat, s.job.time, p, r, s.job.stat.Output())
    ensures At(s.db.Table(s.job.stat.Output()), s.job.stat, s.job.time)
      == if s.job.stat.Logging? then At(Logged(s.src.increments, s.job.stat), s.job.stat, s.job.time)
         else Pull(s.job.stat, p.src, p.db.user, s.job.time - s.job.stat.Interval(), s.job.time)
  {
    hide At, Of, Pull, Logged, OnGrid, RealmRollup, InstallationRollup, FillOk;
    var stat := s.job.stat;
    if stat.Logging? {
      assert stat.Output() !in stat.UndoTables();
      AtOf(s.db.Table(stat.Output()), stat, s.job.time);
    }
  }

  /** RealmRollup over the output table is what RowsFrom says when the roll-up begins here. */
  lemma RolledRealm(s: State, p: State, r: State)
    requires s.job.Busy? && s.job.point.RollRealm? && Sound(s, s.job.stat, s.job.time)
    requires !s.job.stat.Logging? ==> RowsOk(s, s.job.stat, s.job.time, p, r, s.job.stat.Output())
    ensures RealmRollup(s.src.realms, s.db.Table(s.job.stat.Output()), s.job.stat, s.job.time)
      == RowsFrom(p, s, s.job.stat, s.job.time, RealmTable)
  {
    hide At, OnGrid, Sound, Pull, Logged, RealmRollup, InstallationRollup, RowsOk;
    var stat := s.job.stat;
    FillingGoesOn(s);
    OutputAt(s, p, r);
    RollupsReadAt(s.src.realms, s.db.Table(stat.Output()), stat, s.job.time);
  }

  /** What is pulled does not depend on where the roll-up begins. */
  lemma SameOutput(p: State, r: State, q: State, stat: CountStat, t: int)
    requires !stat.Logging?
    ensures RowsFrom(p, r, stat, t, stat.Output()) == RowsFrom(p, q, stat, t, stat.Output())
  {
    PulledOutput(p, r, stat, t);
    PulledOutput(p, q, stat, t);
  }

  /** The first roll-up of t: from here on r is this state. */
  lemma RollRealmKeepsRows(s: State, p: State, r: State, k: TableName)
    requires s.job.Busy? && s.job.point.RollRealm? && Sound(s, s.job.stat, s.job.time) && k in s.job.stat.UndoTables()
    requires forall j :: j in s.job.stat.UndoTables() ==> RowsOk(s, s.job.stat, s.job.time, p, r, j)
    ensures RowsOk(Write(s), s.job.stat, s.job.time, p, s, k)
  {
    hide At, Write, OnGrid, Sound, RealmRollup, RowsFrom, RowsOk;
    var Busy(stat, _, time, _) := s.job;
    SoundParts(s, stat, time);
    FillingGoesOn(s);
    RolledRealm(s, p, r);
    if !stat.Logging? { SameOutput(p, r, s, stat, time); }
    OwnWriteAt(s, k, time);
    RowsWhileFilling(s, p, r, k);
    RowsWhileFilling(Write(s), p, s, k);
  }

  lemma RollupsReadAt(realms: seq<Realm>, table: seq<Row>, stat: CountStat, t: int)
    ensures RealmRollup(realms, At(table, stat, t), stat, t) == RealmRollup(realms, table, stat, t)
    ensures InstallationRollup(At(table, stat, t), stat, t) == InstallationRollup(table, stat, t)
  {
    AtMembers(table, stat, t, Row(InstallationKey, stat, Null, t, 0));
    SelectStamped(At(table, stat, t), stat, t, stat, t);
  }

  /** Where the roll-up began, seen from the last write of it. */
  function Began(s: State, r: State): State
    requires s.job.Busy?
  {
    if SummaryPoint(s.job.stat).RollInstallation? then s else r
  }

  lemma RolledInstallation(s: State, p: State, r: State)
    requires s.job.Busy? && s.job.point.RollInstallation? && Sound(s, s.job.stat, s.job.time)
    requires forall j :: j in s.job.stat.UndoTables() ==> RowsOk(s, s.job.stat, s.job.time, p, r, j)
    ensures InstallationRollup(s.db.realm, s.job.stat, s.job.time)
      == RowsFrom(p, Began(s, r), s.job.stat, s.job.time, InstallationTable)
  {
    hide At, OnGrid, Sound, Pull, Logged, RealmRollup, InstallationRollup, RowsOk;
    var Busy(stat, _, time, _) := s.job;
    FillingGoesOn(s);
    if SummaryPoint(stat).RollInstallation? {
      OutputAt(s, p, r);
    } else {
      RowsWhileFilling(s, p, r, RealmTable);
    }
    RollupsReadAt(s.src.realms, s.db.realm, stat, time);
  }

  /** The last roll-up of t; it is the first one for the stats collected per realm. */
  lemma RollInstallationKeepsRows(s: State, p: State, r: State, k: TableName)
    requires s.job.Busy? && s.job.point.RollInstallation?
    requires Sound(s, s.job.stat, s.job.time) && k in s.job.stat.UndoTables()
    requires forall j :: j in s.job.stat.UndoTables() ==> RowsOk(s, s.job.stat, s.job.time, p, r, j)
    ensures RowsOk(Write(s), s.job.stat, s.job.time, p, Began(s, r), k)
  {
    hide At, Write, OnGrid, Sound, InstallationRollup, RowsFrom, RowsOk;
    var Busy(stat, _, time, _) := s.job;
    SoundParts(s, stat, time);
    FillingGoesOn(s);
    RolledInstallation(s, p, r);
    if !stat.Logging? { SameOutput(p, r, Began(s, r), stat, time); }
    OwnWriteAt(s, k, time);
    RowsWhileFilling(s, p, r, k);
    RowsWhileFilling(Write(s), p, Began(s, r), k);
    if k != InstallationTable && !Written(stat, RollInstallation, k) { NoRowsFrom(p, Began(s, r), stat, time, k); }
  }

  /** A stat has no rows in the tables it neither collects into nor rolls up into. */
  lemma NoRowsFrom(p: State, r: State, stat: CountStat, t: int, k: TableName)
    requires k != stat.Output() && (k.UserTable? || k.StreamTable?)
    ensures RowsFrom(p, r, stat, t, k) == []
  {
  }

  // ----- over histories

  /** Event i of the history is stat's write at the given point for t. */
  ghost predicate IsWrite(src: Source, es: seq<Event>, i: nat, stat: CountStat, t: int, point: Point) {
    i < |es| && es[i].Step? &&
    var job := Reach(src, es[..i]).job; job.Busy? && job.stat == stat && job.time == t && job.point == point
  }

  /** Once t is pulled, and rolled up, p and r say when. */
  ghost predicate OriginsOk(src: Source, es: seq<Event>, stat: CountStat, t: int, p: nat, r: nat) {
    var s := Reach(src, es);
    var completed := stat in s.db.fills && t <= Completed(s.db.fills[stat], stat);
    var filling := s.job.Busy? && s.job.stat == stat && s.job.time == t && IsFilling(s.job.point);
    && p <= |es| && r <= |es|
    && (!stat.Logging? && (completed || (filling && !s.job.point.Pulling?)) ==> IsWrite(src, es, p, stat, t, Pulling))
    && (completed || (filling && !s.job.point.Pulling? && s.job.point != SummaryPoint(stat)) ==>
          IsWrite(src, es, r, stat, t, SummaryPoint(stat)))
  }

  /** The invariant: every table that stat's runs write is as its origins say. */
  ghost predicate HistoryOk(src: Source, es: seq<Event>, stat: CountStat, t: int, p: nat, r: nat) {
    && OriginsOk(src, es, stat, t, p, r)
    && forall k :: k in stat.UndoTables() ==>
      RowsOk(Reach(src, es), stat, t, Reach(src, es[..p]), Reach(src, es[..r]), k)
  }

  lemma IsWriteLater(src: Source, es: seq<Event>, i: nat, stat: CountStat, t: int, point: Point)
    requires es != [] && IsWrite(src, es[..|es| - 1], i, stat, t, point)
    ensures IsWrite(src, es, i, stat, t, point)
  {
    hide Reach;
    assert es[..|es| - 1][..i] == es[..i];
  }

  lemma OwnWriteKeepsOrigins(src: Source, es: seq<Event>, stat: CountStat, t: int, p: nat, r: nat)
    requires es != [] && es[|es| - 1].Step? && OriginsOk(src, es[..|es| - 1], stat, t, p, r)
    requires var s := Reach(src, es[..|es| - 1]); s.job.Busy? && s.job.stat == stat && Sound(s, stat, t)
    ensures var job := Reach(src, es[..|es| - 1]).job;
      var p' := if job.time == t && job.point.Pulling? then |es| - 1 else p;
      var r' := if job.time == t && job.point == SummaryPoint(stat) then |es| - 1 else r;
      OriginsOk(src, es, stat, t, p', r')
  {
    hide IsWrite, Write, Sound, Safe, LogOk;
    var init := es[..|es| - 1];
    var s := Reach(src, init);
    SoundParts(s, stat, t);
    hide OnGrid;
    OwnWriteMoves(s);
    if s.job.time != t { NoGap(stat, t, s.job.time); }
    if IsWrite(src, init, p, stat, t, Pulling) { IsWriteLater(src, es, p, stat, t, Pulling); }
    if IsWrite(src, init, r, stat, t, SummaryPoint(stat)) { IsWriteLater(src, es, r, stat, t, SummaryPoint(stat)); }
    if s.job.time == t { LastIsWrite(src, es, stat); }
  }

  lemma LastIsWrite(src: Source, es: seq<Event>, stat: CountStat)
    requires es != [] && es[|es| - 1].Step?
    requires var job := Reach(src, es[..|es| - 1]).job; job.Busy? && job.stat == stat
    ensures var job := Reach(src, es[..|es| - 1]).job; IsWrite(src, es, |es| - 1, stat, job.time, job.point)
  {
    hide Reach;
  }

  lemma OtherEventKeepsOrigins(src: Source, es: seq<Event>, stat: CountStat, t: int, p: nat, r: nat)
    requires es != [] && OriginsOk(src, es[..|es| - 1], stat, t, p, r)
    requires var s, e := Reach(src, es[..|es| - 1]), es[|es| - 1]; e.Step? && s.job.Busy? ==> s.job.stat != stat
    ensures OriginsOk(src, es, stat, t, p, r)
  {
    hide IsWrite, Write, IncrementRow, EffectiveTarget;
    var init, e := es[..|es| - 1], es[|es| - 1];
    var s := Reach(src, init);
    if e.Step? && s.job.Busy? { OtherJob(s); }
    if IsWrite(src, init, p, stat, t, Pulling) { IsWriteLater(src, es, p, stat, t, Pulling); }
    if IsWrite(src, init, r, stat, t, SummaryPoint(stat)) { IsWriteLater(src, es, r, stat, t, SummaryPoint(stat)); }
  }

  lemma OwnWriteKeepsRows(s: State, t: int, p: State, r: State, k: TableName)
    requires s.job.Busy? && Sound(s, s.job.stat, t) && k in s.job.stat.UndoTables()
    requires forall j :: j in s.job.stat.UndoTables() ==> RowsOk(s, s.job.stat, t, p, r, j)
    ensures var job := s.job;
      var p' := if job.time == t && job.point.Pulling? then s else p;
      var r' := if job.time == t && job.point == SummaryPoint(job.stat) then s else r;
      RowsOk(Write(s), job.stat, t, p', r', k)
  {
    hide RowsOk, Write, Sound;
    if s.job.time != t {
      OtherTimeKeepsRows(s, t, p, r, k);
    } else {
      match s.job.point
      case Undo(_) => UndoKeepsRows(s, p, r, k);
      case Pulling => PullKeepsRows(s, p, r, k);
      case RollRealm => RollRealmIsFirst(s, t); RollRealmKeepsRows(s, p, r, k);
      case RollInstallation => RollInstallationKeepsRows(s, p, r, k);
      case _ => MarkKeepsRows(s, p, r, k);
    }
  }

  lemma RollRealmIsFirst(s: State, t: int)
    requires s.job.Busy? && s.job.point.RollRealm? && Sound(s, s.job.stat, t)
    ensures SummaryPoint(s.job.stat) == RollRealm
  {
  }

  lemma ReachIsSound(src: Source, es: seq<Event>, stat: CountStat, t: int)
    requires EpochFixed(src, es) && OnGrid(t, stat.Frequency()) && Epoch(Reach(src, es).src) < t
    ensures Sound(Reach(src, es), stat, t)
  {
    hide Reach, Safe, LogOk, OnGrid;
    ReachIsSafe(src, es);
    if stat.Logging? { ReachLogOk(src, es, stat); }
  }

  lemma EpochsAgree(src: Source, es: seq<Event>)
    requires es != [] && EpochFixed(src, es)
    ensures Epoch(Reach(src, es[..|es| - 1]).src) == Epoch(Reach(src, es).src)
  {
    hide Write, IncrementRow, InstallationEpoch, Begin;
    var s, e := Reach(src, es[..|es| - 1]), es[|es| - 1];
    if e.Step? && s.job.Busy? { OtherJob(s); }
  }

  lemma NothingYet(src: Source, stat: CountStat, t: int)
    ensures HistoryOk(src, [], stat, t, 0, 0)
  {
    hide RowsFrom;
  }

  lemma {:induction false} FindOrigins(src: Source, es: seq<Event>, stat: CountStat, t: int) returns (p: nat, r: nat)
    requires EpochFixed(src, es) && OnGrid(t, stat.Frequency()) && Epoch(Reach(src, es).src) < t
    ensures HistoryOk(src, es, stat, t, p, r)
  {
    hide OnGrid, Write, RowsOk, OriginsOk, Sound;
    if es == [] {
      p, r := 0, 0;
      NothingYet(src, stat, t);
    } else {
      var init, e := es[..|es| - 1], es[|es| - 1];
      var s := Reach(src, init);
      EpochsAgree(src, es);
      ReachIsSound(src, init, stat, t);
      var p0, r0 := FindOrigins(src, init, stat, t);
      OriginsInside(src, init, stat, t, p0, r0);
      assert init[..p0] == es[..p0] && init[..r0] == es[..r0];
      if e.Step? && s.job.Busy? && s.job.stat == stat {
        p := if s.job.time == t && s.job.point.Pulling? then |es| - 1 else p0;
        r := if s.job.time == t && s.job.point == SummaryPoint(stat) then |es| - 1 else r0;
        OwnWriteKeepsOrigins(src, es, stat, t, p0, r0);
        forall k | k in stat.UndoTables()
          ensures RowsOk(Reach(src, es), stat, t, Reach(src, es[..p]), Reach(src, es[..r]), k)
        {
          OwnWriteKeepsRows(s, t, Reach(src, init[..p0]), Reach(src, init[..r0]), k);
        }
      } else {
        p, r := p0, r0;
        OtherEventKeepsOrigins(src, es, stat, t, p, r);
        forall k | k in stat.UndoTables()
          ensures RowsOk(Reach(src, es), stat, t, Reach(src, es[..p]), Reach(src, es[..r]), k)
        {
          OtherEventKeepsRows(s, e, stat, t, Reach(src, init[..p0]), Reach(src, init[..r0]), k);
        }
      }
      OriginsInside(src, es, stat, t, p, r);
    }
  }

  lemma OriginsInside(src: Source, es: seq<Event>, stat: CountStat, t: int, p: nat, r: nat)
    requires OriginsOk(src, es, stat, t, p, r)
    ensures p <= |es| && r <= |es|
  {
  }

  /** Without any hypothesis on the traffic but a fixed epoch: a completed end_time of a pulled stat was
      pulled by some write of the history and rolled up by another, and every table still holds at it
      what its query gave on the source as it was then. */
  lemma CompletedRowsAsPulled(src: Source, es: seq<Event>, stat: CountStat, t: int) returns (p: nat, r: nat)
    requires !stat.Logging? && EpochFixed(src, es) && OnGrid(t, stat.Frequency())
    requires var s := Reach(src, es); stat in s.db.fills && Epoch(s.src) < t <= Completed(s.db.fills[stat], stat)
    ensures IsWrite(src, es, p, stat, t, Pulling) && IsWrite(src, es, r, stat, t, SummaryPoint(stat))
    ensures var now, pulled, rolled := Reach(src, es).db, Reach(src, es[..p]), Reach(src, es[..r]);
      var base := Pull(stat, pulled.src, pulled.db.user, t - stat.Interval(), t);
      && At(now.Table(stat.Output()), stat, t) == base
      && (stat.Output() != RealmTable ==> At(now.realm, stat, t) == RealmRollup(rolled.src.realms, base, stat, t))
      && At(now.installation, stat, t) == InstallationRollup(At(now.realm, stat, t), stat, t)
  {
    hide OnGrid, Reach, At, Pull, RealmRollup, InstallationRollup, IsWrite;
    p, r := FindOrigins(src, es, stat, t);
    var s, pulled, rolled := Reach(src, es), Reach(src, es[..p]), Reach(src, es[..r]);
    assert RowsOk(s, stat, t, pulled, rolled, stat.Output());
    assert RowsOk(s, stat, t, pulled, rolled, RealmTable);
    assert RowsOk(s, stat, t, pulled, rolled, InstallationTable);
  }

  /** For the stats without dependencies that is the specification on that earlier source. */
  lemma CompletedBaseAsPulled(src: Source, es: seq<Event>, stat: CountStat, t: int) returns (p: nat)
    requires !stat.Logging? && !stat.RealmActiveHumans? && EpochFixed(src, es) && OnGrid(t, stat.Frequency())
    requires var s := Reach(src, es); stat in s.db.fills && Epoch(s.src) < t <= Completed(s.db.fills[stat], stat)
    ensures IsWrite(src, es, p, stat, t, Pulling)
    ensures At(Reach(src, es).db.Table(stat.Output()), stat, t) == BaseRows(stat, Reach(src, es[..p]).src, t)
  {
    hide OnGrid, Reach, At, Pull, RealmRollup, InstallationRollup;
    var r;
    p, r := CompletedRowsAsPulled(src, es, stat, t);
    var pulled := Reach(src, es[..p]);
    PullIgnoresTable(stat, pulled.src, pulled.db.user, [], t - stat.Interval(), t);
  }

  lemma {:induction false} PrefixFixesEpoch(src: Source, es: seq<Event>, i: nat)
    requires EpochFixed(src, es) && i <= |es|
    ensures EpochFixed(src, es[..i]) && Epoch(Reach(src, es[..i]).src) == Epoch(Reach(src, es).src)
  {
    hide Reach;
    if i == |es| {
      assert es[..i] == es;
    } else {
      EpochsAgree(src, es);
      assert es[..|es| - 1][..i] == es[..i];
      PrefixFixesEpoch(src, es[..|es| - 1], i);
    }
  }

  lemma DependenciesCompleted(s: State, stat: CountStat, t: int, d: CountStat)
    requires Safe(s) && s.job.Busy? && s.job.stat == stat && s.job.time == t && s.job.point.Pulling? && Epoch(s.src) < t
    requires d in stat.Dependencies()
    ensures d in s.db.fills && t <= Completed(s.db.fills[d], d)
  {
    hide OnGrid;
  }

  /** realm_active_humans joins the rows of its two dependencies as each of them was pulled, and they were
      pulled before it was. */
  lemma HumansAsPulled(src: Source, es: seq<Event>, t: int) returns (p: nat, a: nat, f: nat)
    requires EpochFixed(src, es) && OnGrid(t, Day)
    requires var s := Reach(src, es);
      RealmActiveHumans in s.db.fills && Epoch(s.src) < t <= Completed(s.db.fills[RealmActiveHumans], RealmActiveHumans)
    ensures a < p && f < p && IsWrite(src, es, p, RealmActiveHumans, t, Pulling)
    ensures IsWrite(src, es[..p], a, ActiveUsersAudit, t, Pulling)
    ensures IsWrite(src, es[..p], f, FifteenDayActives, t, Pulling)
    ensures var audits := BaseRows(ActiveUsersAudit, Reach(src, es[..a]).src, t);
      var actives := BaseRows(FifteenDayActives, Reach(src, es[..f]).src, t);
      At(Reach(src, es).db.realm, RealmActiveHumans, t)
        == Stamp(GroupSum(JoinHumans(audits, actives)), RealmActiveHumans, t)
  {
    hide OnGrid, Reach, At, RealmRollup, InstallationRollup, BaseRows, JoinHumans, GroupSum, Stamp, Safe;
    var r;
    p, r := CompletedRowsAsPulled(src, es, RealmActiveHumans, t);
    var s := Reach(src, es[..p]);
    PrefixFixesEpoch(src, es, p);
    ReachIsSafe(src, es[..p]);
    DependenciesCompleted(s, RealmActiveHumans, t, ActiveUsersAudit);
    DependenciesCompleted(s, RealmActiveHumans, t, FifteenDayActives);
    a := CompletedBaseAsPulled(src, es[..p], ActiveUsersAudit, t);
    f := CompletedBaseAsPulled(src, es[..p], FifteenDayActives, t);
    assert es[..p][..a] == es[..a] && es[..p][..f] == es[..f];
  }
}
