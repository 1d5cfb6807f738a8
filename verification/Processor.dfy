/** The imperative code of analytics/lib/counts.py over one database. Each write takes one unit of
    a budget; a run whose budget is spent is killed before its next write. */
module Processor {
  import opened TimeGrid
  import opened Grouping
  import opened CountStats
  import opened CountTables
  import opened SourceData
  import opened Queries
  import opened FillMachine
  import opened FillSafety
  import opened FillExactness
  import opened FillRuns

  datatype Outcome = Finished | Rejected | Killed

  lemma {:induction false} WritesAdd(s: State, a: nat, b: nat)
    ensures Writes(Writes(s, a), b) == Writes(s, a + b)
    decreases a
  {
    hide Write;
    if a > 0 && s.job.Busy? { WritesAdd(Write(s), a - 1, b); }
  }

  /** The run g has made budget - left writes and is now at h. */
  ghost predicate Ran(g: State, budget: nat, h: State, left: nat) {
    left <= budget && Writes(g, budget - left) == h
  }

  lemma RanStep(g: State, budget: nat, h: State, left: nat)
    requires Ran(g, budget, h, left) && h.job.Busy? && left > 0
    ensures Ran(g, budget, Write(h), left - 1)
  {
    hide Write;
    WritesAdd(g, budget - left, 1);
    assert Writes(h, 1) == Writes(Write(h), 0) == Write(h);
  }

  lemma RanTwice(g: State, budget: nat, h: State, middle: nat, k: State, left: nat)
    requires Ran(g, budget, h, middle) && Ran(h, middle, k, left)
    ensures Ran(g, budget, k, left)
  {
    WritesAdd(g, budget - middle, middle - left);
  }

  /** do_pull_minutes_active. The dictionary is kept as its items in insertion order. */
  method PullMinutesActive(src: Source, start: int, end: int) returns (rows: seq<Row>)
    ensures rows == Pull(MinutesActive, src, [], start, end)
  {
    var clipped := ClippedIntervals(src.intervals, src.users, start, end);
    var secondsActive: seq<Entry<Slot>> := [];
    for i := 0 to |clipped|
      invariant secondsActive == GroupSum(clipped[..i])
    {
      assert clipped[..i + 1][..i] == clipped[..i];
      secondsActive := Upsert(secondsActive, clipped[i].group, clipped[i].amount);
    }
    assert clipped[..|clipped|] == clipped;
    var kept: seq<Entry<Slot>> := [];
    var j := |secondsActive|;
    while j > 0
      invariant 0 <= j <= |secondsActive|
      invariant kept == WholeMinutes(secondsActive[j..])
    {
      j := j - 1;
      assert secondsActive[j..][1..] == secondsActive[j + 1..];
      if secondsActive[j].amount >= MINUTE {
        kept := [Entry(secondsActive[j].group, secondsActive[j].amount / MINUTE)] + kept;
      }
    }
    assert secondsActive[0..] == secondsActive;
    rows := Stamp(kept, MinutesActive, end);
  }

  class Analytics {
    var fills: Fills
    var userCount: seq<Row>
    var streamCount: seq<Row>
    var realmCount: seq<Row>
    var installationCount: seq<Row>

    constructor ()
      ensures Snapshot() == Db(map[], [], [], [], [])
    {
      fills, userCount, streamCount, realmCount, installationCount := map[], [], [], [], [];
    }

    function Snapshot(): Db
      reads this
    {
      Db(fills, userCount, streamCount, realmCount, installationCount)
    }

    method SetTable(k: TableName, rows: seq<Row>)
      modifies this
      ensures Snapshot() == old(Snapshot()).With(k, rows)
    {
      match k
      case UserTable => userCount := rows;
      case StreamTable => streamCount := rows;
      case RealmTable => realmCount := rows;
      case InstallationTable => installationCount := rows;
    }

    /** do_update_fill_state, and the creation of the FillState row. */
    method UpdateFillState(stat: CountStat, endTime: int, phase: Phase, budget: nat) returns (alive: bool, left: nat)
      modifies this
      ensures alive == (budget > 0)
      ensures Snapshot() == if alive then old(Snapshot()).SetFill(stat, endTime, phase) else old(Snapshot())
      ensures left == if alive then budget - 1 else 0
    {
      if budget == 0 { return false, 0; }
      fills := fills[stat := FillState(endTime, phase)];
      return true, budget - 1;
    }

    method Insert(k: TableName, rows: seq<Row>, budget: nat) returns (alive: bool, left: nat)
      modifies this
      ensures alive == (budget > 0)
      ensures Snapshot() == if alive then old(Snapshot()).With(k, old(Snapshot()).Table(k) + rows) else old(Snapshot())
      ensures left == if alive then budget - 1 else 0
    {
      if budget == 0 { return false, 0; }
      SetTable(k, Snapshot().Table(k) + rows);
      return true, budget - 1;
    }

    method Delete(k: TableName, stat: CountStat, t: int, budget: nat) returns (alive: bool, left: nat)
      modifies this
      ensures alive == (budget > 0)
      ensures Snapshot()
        == if alive then old(Snapshot()).With(k, Without(old(Snapshot()).Table(k), stat, t)) else old(Snapshot())
      ensures left == if alive then budget - 1 else 0
    {
      if budget == 0 { return false, 0; }
      SetTable(k, Without(Snapshot().Table(k), stat, t));
      return true, budget - 1;
    }

    /** do_delete_counts_at_hour. */
    method DeleteCountsAtHour(stat: CountStat, t: int, budget: nat, ghost g: State)
      returns (alive: bool, left: nat, ghost h: State)
      requires g.db == Snapshot() && g.job.Busy? && g.job == Busy(stat, g.job.fillTo, t, Undo(0))
      modifies this
      ensures h.db == Snapshot() && Ran(g, budget, h, left)
      ensures alive ==> h.job == g.job.(point := Reset) && h.src == g.src
      ensures !alive ==> left == 0 && h.job.Busy?
    {
      hide Without;
      h, left, alive := g, budget, true;
      var tables := if !stat.Logging? then [UserTable, StreamTable, RealmTable, InstallationTable]
                    else if stat.Output()
                      == UserTable || stat.Output() == StreamTable then [InstallationTable, RealmTable]
                    else [InstallationTable];
      assert tables == stat.UndoTables();
      var i := 0;
      while i < |tables|
        invariant 0 <= i <= |tables| && tables == stat.UndoTables()
        invariant h.db == Snapshot() && Ran(g, budget, h, left) && h.src == g.src
        invariant h.job == g.job.(point := if i < |tables| then Undo(i) else Reset)
      {
        if left > 0 { RanStep(g, budget, h, left); }
        alive, left := Delete(tables[i], stat, t, left);
        if !alive { return; }
        h := Write(h);
        i := i + 1;
      }
    }

    /** do_aggregate_to_summary_table. */
    method AggregateToSummaryTable(src: Source, stat: CountStat, t: int, budget: nat, ghost g: State)
      returns (alive: bool, left: nat, ghost h: State)
      requires g.src == src && g.db == Snapshot() && g.job.Busy?
      requires g.job == Busy(stat, g.job.fillTo, t, SummaryPoint(stat))
      modifies this
      ensures h.db == Snapshot() && Ran(g, budget, h, left)
      ensures alive ==> h.job == g.job.(point := Finish) && h.src == src
      ensures !alive ==> left == 0 && h.job.Busy?
    {
      hide RealmRollup, InstallationRollup;
      h, left := g, budget;
      if stat.Output() == UserTable || stat.Output() == StreamTable {
        var rows := RealmRollup(src.realms, Snapshot().Table(stat.Output()), stat, t);
        if left > 0 { RanStep(g, budget, h, left); }
        alive, left := Insert(RealmTable, rows, left);
        if !alive { return; }
        h := Write(h);
      }
      var rows := InstallationRollup(realmCount, stat, t);
      if left > 0 { RanStep(g, budget, h, left); }
      alive, left := Insert(InstallationTable, rows, left);
      if alive { h := Write(h); }
    }

    /** do_fill_count_stat_at_hour. */
    method FillCountStatAtHour(src: Source, stat: CountStat, t: int, budget: nat, ghost g: State)
      returns (alive: bool, left: nat, ghost h: State)
      requires g.src == src && g.db == Snapshot() && g.job.Busy?
      requires g.job == Busy(stat, g.job.fillTo, t, FirstPoint(stat))
      modifies this
      ensures h.db == Snapshot() && Ran(g, budget, h, left)
      ensures alive ==> h.job == g.job.(point := Finish) && h.src == src
      ensures !alive ==> left == 0 && h.job.Busy?
    {
      hide Pull, RealmRollup, InstallationRollup;
      ghost var m := g;
      left := budget;
      if !stat.Logging? {
        var rows;
        if stat.MinutesActive? {
          rows := PullMinutesActive(src, t - stat.Interval(), t);
          PullIgnoresTable(stat, src, [], userCount, t - stat.Interval(), t);
        } else {
          rows := Pull(stat, src, userCount, t - stat.Interval(), t);
        }
        if left > 0 { RanStep(g, budget, m, left); }
        alive, left := Insert(stat.Output(), rows, left);
        if !alive { h := m; return; }
        m := Write(m);
      }
      ghost var middle := left;
      alive, left, h := AggregateToSummaryTable(src, stat, t, left, m);
      RanTwice(g, budget, m, middle, h, left);
    }

    /** process_count_stat. Wherever the budget runs out, the database is where that many writes of
        the state machine lead, and every stat whose rows were exact keeps exact rows. A run that
        is not killed completes the greatest grid point not after its effective target. */
    method ProcessCountStat(src: Source, stat: CountStat, fillTo: int, budget: nat) returns (outcome: Outcome,
        left: nat)
      requires Safe(State(src, Snapshot(), Idle))
      modifies this
      ensures outcome.Rejected? <==> !OnGrid(fillTo, Hour)
      ensures outcome.Rejected? ==> Snapshot() == old(Snapshot())
      ensures !outcome.Rejected? ==>
        Snapshot() == Writes(Called(State(src, old(Snapshot()), Idle), stat, fillTo), budget).db
      ensures !outcome.Rejected? ==>
        (outcome.Finished? <==> Writes(Called(State(src, old(Snapshot()), Idle), stat, fillTo), budget).job.Idle?)
      ensures Safe(State(src, Snapshot(), Idle))
      ensures outcome.Finished? ==>
        var end := EndFrom(old(fills), stat, fillTo, StartsFrom(src, old(fills), stat));
        stat in fills && fills[stat] == FillState(end, Done)
      ensures !outcome.Rejected? && stat !in old(fills) && src.realms != [] && budget > 0 ==>
        exists start :: IsFirstDay(start, src.realms) && BeganAt(old(fills), fills, stat, start, budget)
      ensures forall other :: Exact(State(src, old(Snapshot()), Idle), other) ==>
        Exact(State(src, Snapshot(), Idle), other)
    {
      hide Exact, Safe, StartsFrom, EndFrom, OnGrid;
      left := budget;
      if fillTo % HOUR != 0 {
        GridIsMultiples(fillTo);
        return Rejected, left;
      }
      GridIsMultiples(fillTo);
      ghost var s0 := State(src, Snapshot(), Idle);
      ghost var c := Called(s0, stat, fillTo);
      ghost var h;
      var alive;
      alive, left, h := Run(src, stat, fillTo, budget, s0);
      RunKeeps(s0, stat, fillTo, budget, h, left);
      if stat !in s0.db.fills && src.realms != [] && budget > 0 { BeginsOnFirstDay(s0, stat, fillTo, budget, h, left); }
      outcome := if alive then Finished else Killed;
      if alive {
        FinishedRunEnd(s0, stat, fillTo, budget - left);
        WritesAdd(c, budget - left, left);
      }
    }

    /** The body of process_count_stat after its argument checks. */
    method Run(src: Source, stat: CountStat, fillTo: int, budget: nat, ghost s: State)
      returns (alive: bool, left: nat, ghost h: State)
      requires OnGrid(fillTo, Hour) && s == State(src, Snapshot(), Idle)
      modifies this
      ensures h.db == Snapshot() && Ran(Called(s, stat, fillTo), budget, h, left)
      ensures alive ==> h.job.Idle?
      ensures !alive ==> left == 0 && h.job.Busy?
    {
      hide OnGrid, Pull, RealmRollup, InstallationRollup, Without, EffectiveTarget;
      ghost var g := Called(s, stat, fillTo);
      h, left, alive := g, budget, true;
      var currentlyFilled;
      if stat !in fills {
        currentlyFilled := InstallationEpoch(src.realms);
        if left > 0 { RanStep(g, budget, h, left); }
        alive, left := UpdateFillState(stat, currentlyFilled, Done, left);
        if !alive { return; }
        h := Write(h);
      } else if fills[stat].phase.Started? {
        var started := fills[stat].endTime;
        ghost var before := left;
        alive, left, h := DeleteCountsAtHour(stat, started, left, h);
        if !alive { return; }
        currentlyFilled := started - stat.Step();
        if left > 0 { RanStep(g, budget, h, left); }
        alive, left := UpdateFillState(stat, currentlyFilled, Done, left);
        if !alive { return; }
        h := Write(h);
      } else {
        currentlyFilled := fills[stat].endTime;
      }
      var ready, target := Target(stat, fillTo);
      assert h.job == Enter(fills, stat, fillTo, currentlyFilled);
      if !ready { return; }
      alive, left, h := Fill(src, stat, target, currentlyFilled, budget, left, g, h);
    }

    /** The dependency loop. */
    method Target(stat: CountStat, fillTo: int) returns (ready: bool, target: int)
      ensures EffectiveTarget(fills, stat.Dependencies(), fillTo) == if ready then Some(target) else None
    {
      var dependencies := stat.Dependencies();
      target := fillTo;
      for i := 0 to |dependencies|
        invariant EffectiveTarget(fills, dependencies, fillTo) == EffectiveTarget(fills, dependencies[i..], target)
      {
        var filled := LastSuccessfulFill(fills, dependencies[i]);
        if filled.None? { return false, target; }
        assert dependencies[i..][1..] == dependencies[i + 1..];
        target := Min(target, filled.value);
      }
      return true, target;
    }

    /** The filling loop. */
    method Fill(src: Source, stat: CountStat, target: int, filled: int, budget: nat, now: nat, ghost g: State,
        ghost at: State)
      returns (alive: bool, left: nat, ghost h: State)
      requires at.src == src && at.db == Snapshot() && at.job == Loop(stat, target, filled + stat.Step())
      requires Ran(g, budget, at, now)
      modifies this
      ensures h.db == Snapshot() && Ran(g, budget, h, left)
      ensures alive ==> h.job.Idle?
      ensures !alive ==> left == 0 && h.job.Busy?
    {
      hide Pull, RealmRollup, InstallationRollup, Without, Ran;
      h, left, alive := at, now, true;
      var currentlyFilled := filled + stat.Step();
      while currentlyFilled <= target
        invariant h.src == src && h.db == Snapshot() && h.job == Loop(stat, target, currentlyFilled)
        invariant Ran(g, budget, h, left) && alive
        decreases target - currentlyFilled
      {
        if left > 0 { RanStep(g, budget, h, left); }
        alive, left := UpdateFillState(stat, currentlyFilled, Started, left);
        if !alive { return; }
        h := Write(h);
        ghost var marked, middle := h, left;
        alive, left, h := FillCountStatAtHour(src, stat, currentlyFilled, left, marked);
        RanTwice(g, budget, marked, middle, h, left);
        if !alive { return; }
        if left > 0 { RanStep(g, budget, h, left); }
        alive, left := UpdateFillState(stat, currentlyFilled, Done, left);
        if !alive { return; }
        h := Write(h);
        currentlyFilled := currentlyFilled + stat.Step();
      }
    }

    /** do_increment_logging_stat: the table comes from the stat, the key from the object, and the
        end_time from the event_time. The row is looked up and created when it is missing. */
    method IncrementLoggingStat(o: ZerverObject, stat: CountStat, subgroup: Subgroup, eventTime: int, increment: int,
        ghost src: Source, ghost job: Job)
      requires stat.Logging? && Counts(stat.level, o)
      modifies this
      ensures var key :=
          match o
          case RealmObject(id) => RealmKey(id)
          case UserObject(id, realm) => UserKey(id, realm)
          case StreamObject(id, realm) => StreamKey(id, realm);
        var i := Increment(stat, Slot(key, subgroup), eventTime, increment);
        Fits(i) && Snapshot() == Apply(State(src, old(Snapshot()), job), Log(i)).db
    {
      hide IncrementRow;
      var table := stat.Output();
      var key;
      if table == RealmTable {
        key := RealmKey(o.id);
      } else if table == UserTable {
        key := UserKey(o.id, o.realm);
      } else {
        key := StreamKey(o.id, o.realm);
      }
      var endTime := if stat.Frequency().Day? then Ceiling(eventTime, Day) else Ceiling(eventTime, Hour);
      var rows, i := Snapshot().Table(table), 0;
      while i < |rows| && rows[i] != Row(key, stat, subgroup, endTime, rows[i].value)
        invariant 0 <= i <= |rows|
        invariant forall k :: 0 <= k < i ==> rows[k] != Row(key, stat, subgroup, endTime, rows[k].value)
      {
        i := i + 1;
      }
      IncrementRowFinds(rows, stat, Slot(key, subgroup), endTime, increment, i);
      if i == |rows| {
        SetTable(table, rows + [Row(key, stat, subgroup, endTime, increment)]);
      } else {
        SetTable(table, rows[i := rows[i].(value := rows[i].value + increment)]);
      }
    }
  }

  /** What an increment is counted for. */
  datatype ZerverObject = RealmObject(id: int) | UserObject(id: int, realm: int) | StreamObject(id: int, realm: int)

  predicate Counts(level: Level, o: ZerverObject) {
    match level
    case PerUser => o.UserObject?
    case PerStream => o.StreamObject?
    case PerRealm => o.RealmObject?
  }

  lemma {:induction false} IncrementRowFinds(rows: seq<Row>, stat: CountStat, slot: Slot, t: int, amount: int, i: nat)
    requires i <= |rows|
    requires forall k :: 0 <= k < i ==> rows[k] != Row(slot.key, stat, slot.subgroup, t, rows[k].value)
    requires i < |rows| ==> rows[i] == Row(slot.key, stat, slot.subgroup, t, rows[i].value)
    ensures IncrementRow(rows, stat, slot, t, amount)
      == if i == |rows| then rows + [Row(slot.key, stat, slot.subgroup, t, amount)]
         else rows[i := rows[i].(value := rows[i].value + amount)]
  {
    if i > 0 {
      assert rows == [rows[0]] + rows[1..];
      IncrementRowFinds(rows[1..], stat, slot, t, amount, i - 1);
    }
  }

  /** The FillState of a stat that had none was created at start; the first write does no more. */
  predicate BeganAt(before: Fills, now: Fills, stat: CountStat, start: int, budget: nat) {
    && stat in now && start <= now[stat].endTime
    && (budget == 1 ==> now == before[stat := FillState(start, Done)])
  }

  lemma BeginsOnFirstDay(s: State, stat: CountStat, fillTo: int, budget: nat, h: State, left: nat)
    requires s.job.Idle? && Safe(s) && stat !in s.db.fills && OnGrid(fillTo, Hour) && s.src.realms != [] && budget > 0
    requires Ran(Called(s, stat, fillTo), budget, h, left) && (h.job.Busy? ==> left == 0)
    ensures exists start :: IsFirstDay(start, s.src.realms) && BeganAt(s.db.fills, h.db.fills, stat, start, budget)
  {
    hide Safe, Write, Called, IsFirstDay, OnGrid;
    if h.job.Idle? { WritesAdd(Called(s, stat, fillTo), budget - left, left); }
    var start := NewStatRuns(s, stat, fillTo, budget);
    assert BeganAt(s.db.fills, h.db.fills, stat, start, budget);
  }

  lemma RunKeeps(s: State, stat: CountStat, fillTo: int, budget: nat, h: State, left: nat)
    requires s.job.Idle? && Safe(s) && Ran(Called(s, stat, fillTo), budget, h, left)
    ensures Safe(h.(job := Idle)) && h.src == s.src
    ensures forall other :: Exact(s, other) ==> Exact(h.(job := Idle), other)
  {
    hide Write, Begin, ViewOk, LogOk, Writes;
    var c := Called(s, stat, fillTo);
    CalledIsSafe(s, stat, fillTo);
    WritesKeepSafe(c, budget - left);
    WritesKeepSource(c, budget - left);
    forall other | Exact(s, other) ensures Exact(h.(job := Idle), other) {
      CalledIsExact(s, stat, fillTo, other);
      WritesKeepExact(c, budget - left, other);
      CrashIsExact(h, other);
    }
  }

  lemma CrashIsExact(s: State, stat: CountStat)
    requires Exact(s, stat)
    ensures Exact(s.(job := Idle), stat)
  {
    hide ViewOk;
    forall k | k in stat.UndoTables() ensures ViewOk(s.(job := Idle), stat, k) { JobStep(s, Crash, stat, k); }
    forall d, k | d in stat.Dependencies() && k in d.UndoTables()
      ensures ViewOk(s.(job := Idle), d, k)
    {
      JobStep(s, Crash, d, k);
    }
  }
}
