/** Uninterrupted runs: where they end, that they end, and how they compose. */
module FillRuns {
  import opened TimeGrid
  import opened CountStats
  import opened CountTables
  import opened SourceData
  import opened Queries
  import opened FillMachine
  import opened FillSafety
  import opened FillSpec
  import opened FillExactness

  /** At most n writes of the run at work. */
  function Writes(s: State, n: nat): State
    decreases n
  {
    if n == 0 || s.job.Idle? then s else Writes(Write(s), n - 1)
  }

  function Called(s: State, stat: CountStat, fillTo: int): State {
    s.(job := Begin(s.src, s.db, stat, fillTo))
  }

  /** The last end_time a run towards target completes, from the completed time filled. */
  function EndFrom(fills: Fills, stat: CountStat, fillTo: int, filled: int): int {
    match EffectiveTarget(fills, stat.Dependencies(), fillTo)
    case None => filled
    case Some(target) => Max(filled, Floor(target, stat.Frequency()))
  }

  /** The completed time a run starts from: the epoch for a new stat, and the STARTED end_time is undone. */
  function StartsFrom(src: Source, fills: Fills, stat: CountStat): int {
    if stat in fills then Completed(fills[stat], stat) else Epoch(src)
  }

  /** Where the run at work will end; every write keeps it. */
  function JobEnd(fills: Fills, job: Job): int
    requires job.Busy?
  {
    var Busy(stat, fillTo, time, point) := job;
    match point
    case Create => EndFrom(fills, stat, fillTo, time)
    case Undo(_) => EndFrom(fills, stat, fillTo, time - stat.Step())
    case Reset => EndFrom(fills, stat, fillTo, time - stat.Step())
    case _ => Floor(fillTo, stat.Frequency())
  }

  lemma {:induction false} TargetIgnores(fills: Fills, ds: seq<CountStat>, fillTo: int, stat: CountStat, f: FillState)
    requires stat !in ds
    ensures EffectiveTarget(fills[stat := f], ds, fillTo) == EffectiveTarget(fills, ds, fillTo)
  {
    if ds != [] {
      var last := LastSuccessfulFill(fills, ds[0]);
      if last.Some? { TargetIgnores(fills, ds[1..], Min(fillTo, last.value), stat, f); }
    }
  }

  lemma EnterEnd(fills: Fills, stat: CountStat, fillTo: int, filled: int)
    requires OnGrid(filled, stat.Frequency())
    ensures var job := Enter(fills, stat, fillTo, filled);
      if job.Busy? then JobEnd(fills, job) == EndFrom(fills, stat, fillTo, filled)
      else EndFrom(fills, stat, fillTo, filled) == filled
  {
    hide OnGrid, Floor;
    var target := EffectiveTarget(fills, stat.Dependencies(), fillTo);
    GridStep(filled, stat.Frequency());
    if target.Some? {
      FloorAndCeilingAreTight(target.value, filled + stat.Step(), stat.Frequency());
      if filled < Floor(target.value, stat.Frequency()) {
        GridGap(filled, Floor(target.value, stat.Frequency()), stat.Frequency());
      }
    }
  }

  lemma LoopEnd(stat: CountStat, target: int, time: int)
    requires OnGrid(time, stat.Frequency()) && time <= target
    ensures !Loop(stat, target, time + stat.Step()).Busy? ==> time == Floor(target, stat.Frequency())
  {
    hide OnGrid, Floor;
    GridStep(time, stat.Frequency());
    FloorAndCeilingAreTight(target, time, stat.Frequency());
    FloorAndCeilingAreTight(target, time + stat.Step(), stat.Frequency());
    if time < Floor(target, stat.Frequency()) {
      GridGap(time, Floor(target, stat.Frequency()), stat.Frequency());
    }
  }

  lemma WriteKeepsEnd(s: State)
    requires s.job.Busy? && JobOk(s.db.fills, Epoch(s.src), s.job)
    ensures var s', stat := Write(s), s.job.stat;
      if s'.job.Busy? then s'.job.stat == stat && JobEnd(s'.db.fills, s'.job) == JobEnd(s.db.fills, s.job)
      else stat in s'.db.fills && s'.db.fills[stat] == FillState(JobEnd(s.db.fills, s.job), Done)
  {
    hide OnGrid, Floor, Pull, RealmRollup, InstallationRollup, Without, EffectiveTarget, TargetReached;
    var Busy(stat, fillTo, time, point) := s.job;
    if point.Create? || point.Reset? {
      var filled := if point.Create? then time else time - stat.Step();
      GridStep(time, stat.Frequency());
      TargetIgnores(s.db.fills, stat.Dependencies(), fillTo, stat, FillState(filled, Done));
      EnterEnd(s.db.fills[stat := FillState(filled, Done)], stat, fillTo, filled);
    } else if point.Finish? {
      LoopEnd(stat, fillTo, time);
    }
  }

  lemma {:induction false} WritesEnd(s: State, n: nat)
    requires s.job.Busy? && Safe(s)
    ensures Safe(Writes(s, n))
    ensures var s', stat := Writes(s, n), s.job.stat;
      if s'.job.Busy? then s'.job.stat == stat && JobEnd(s'.db.fills, s'.job) == JobEnd(s.db.fills, s.job)
      else stat in s'.db.fills && s'.db.fills[stat] == FillState(JobEnd(s.db.fills, s.job), Done)
    decreases n
  {
    hide Write, Safe, JobEnd;
    if n > 0 {
      assert JobOk(s.db.fills, Epoch(s.src), s.job) by { SafeJob(s); }
      WriteKeepsEnd(s);
      WriteIsSafe(s);
      if Write(s).job.Busy? { WritesEnd(Write(s), n - 1); }
    }
  }

  lemma SafeJob(s: State)
    requires Safe(s)
    ensures JobOk(s.db.fills, Epoch(s.src), s.job)
  {
  }

  lemma BeginEnd(s: State, stat: CountStat, fillTo: int)
    requires s.job.Idle? && Safe(s) && OnGrid(fillTo, Hour)
    ensures var c, end := Called(s, stat, fillTo),
      EndFrom(s.db.fills, stat, fillTo, StartsFrom(s.src, s.db.fills, stat));
      && Safe(c)
      && if c.job.Busy? then c.job.stat == stat && JobEnd(s.db.fills, c.job) == end
         else stat in s.db.fills && s.db.fills[stat] == FillState(end, Done)
  {
    hide OnGrid, Floor;
    BeginIsSafe(s, stat, fillTo);
    DayIsOnHourGrid(Epoch(s.src), stat.Frequency());
    if stat in s.db.fills && s.db.fills[stat].phase.Done? {
      EnterEnd(s.db.fills, stat, fillTo, s.db.fills[stat].endTime);
    }
  }

  /** A finished run has completed the greatest grid point not after its effective target, or has
      stayed where it started if that is already past it; a missing dependency stops it at once. */
  lemma FinishedRunEnd(s: State, stat: CountStat, fillTo: int, n: nat)
    requires s.job.Idle? && Safe(s) && OnGrid(fillTo, Hour)
    requires Writes(Called(s, stat, fillTo), n).job.Idle?
    ensures var fills := Writes(Called(s, stat, fillTo), n).db.fills;
      && stat in fills
      && fills[stat] == FillState(EndFrom(s.db.fills, stat, fillTo, StartsFrom(s.src, s.db.fills, stat)), Done)
  {
    hide OnGrid, Write, Begin, Safe, JobEnd, EndFrom, StartsFrom;
    var c := Called(s, stat, fillTo);
    BeginEnd(s, stat, fillTo);
    if c.job.Busy? { WritesEnd(c, n); }
  }

  /** Where a run starts: at the last completed end_time, or on the first day for a new stat. */
  ghost predicate IsStart(s: State, stat: CountStat, start: int) {
    if stat !in s.db.fills then IsFirstDay(start, s.src.realms)
    else if s.db.fills[stat].phase.Done? then start == s.db.fills[stat].endTime
    else start == s.db.fills[stat].endTime - stat.Frequency().Step()
  }

  lemma StartsFromIsStart(s: State, stat: CountStat)
    requires s.src.realms != []
    ensures IsStart(s, stat, StartsFrom(s.src, s.db.fills, stat))
  {
    hide IsFirstDay;
    EpochIsFirstDay(s.src);
  }

  /** The first write of a run of a new stat, spelled out. */
  lemma NewStatStarts(s: State, stat: CountStat, fillTo: int) returns (start: int)
    requires s.job.Idle? && stat !in s.db.fills && OnGrid(fillTo, Hour) && s.src.realms != []
    ensures IsFirstDay(start, s.src.realms)
    ensures Called(s, stat, fillTo).job.Busy?
    ensures Write(Called(s, stat, fillTo)).db == s.db.(fills := s.db.fills[stat := FillState(start, Done)])
  {
    hide IsFirstDay, OnGrid;
    start := Epoch(s.src);
    EpochIsFirstDay(s.src);
  }

  /** A call with a target off the hour raises ValueError and changes nothing. */
  lemma CallOffTheHour(s: State, stat: CountStat, fillTo: int)
    requires s.job.Idle? && fillTo % HOUR != 0
    ensures Apply(s, Call(stat, fillTo)) == s
  {
    GridIsMultiples(fillTo);
  }

  lemma {:induction false} WritesKeepFill(s: State, n: nat, stat: CountStat)
    requires stat in s.db.fills
    ensures stat in Writes(s, n).db.fills
    decreases n
  {
    hide Pull, RealmRollup, InstallationRollup, Without, Enter, Loop;
    if n > 0 && s.job.Busy? { WritesKeepFill(Write(s), n - 1, stat); }
  }

  /** However many writes a run of a new stat makes, its FillState begins on the first day. */
  lemma NewStatRuns(s: State, stat: CountStat, fillTo: int, n: nat) returns (start: int)
    requires s.job.Idle? && Safe(s) && stat !in s.db.fills && OnGrid(fillTo, Hour) && s.src.realms != [] && n > 0
    ensures IsFirstDay(start, s.src.realms)
    ensures var fills := Writes(Called(s, stat, fillTo), n).db.fills;
      && stat in fills && start <= fills[stat].endTime
      && (n == 1 ==> fills == s.db.fills[stat := FillState(start, Done)])
  {
    hide IsFirstDay, OnGrid, Write, JobOk;
    start := Epoch(s.src);
    EpochIsFirstDay(s.src);
    var first := NewStatStarts(s, stat, fillTo);
    FirstDayIsUnique(start, first, s.src.realms);
    var c := Called(s, stat, fillTo);
    assert Writes(c, n) == Writes(Write(c), n - 1);
    WritesKeepFill(Write(c), n - 1, stat);
    CalledIsSafe(s, stat, fillTo);
    WritesKeepSafe(c, n);
    WritesKeepSource(c, n);
  }

  /** A finished run of a stat without dependencies, spelled out. */
  lemma IndependentRunEnd(s: State, stat: CountStat, fillTo: int, n: nat) returns (start: int)
    requires s.job.Idle? && Safe(s) && OnGrid(fillTo, Hour) && s.src.realms != []
    requires Writes(Called(s, stat, fillTo), n).job.Idle? && !stat.RealmActiveHumans?
    ensures IsStart(s, stat, start)
    ensures var fills, end := Writes(Called(s, stat, fillTo), n).db.fills, Floor(fillTo, stat.Frequency());
      stat in fills && fills[stat] == FillState(if start < end then end else start, Done)
  {
    hide OnGrid, Floor, Write, Safe, Begin, IsStart;
    start := StartsFrom(s.src, s.db.fills, stat);
    StartsFromIsStart(s, stat);
    FinishedRunEnd(s, stat, fillTo, n);
  }

  /** The same by the names of the stats: messages_sent:is_bot:hour is filled to the hour, every other
      declared stat to the start of the day. */
  lemma DeclaredRunEnd(s: State, stat: CountStat, fillTo: int, n: nat) returns (start: int)
    requires s.job.Idle? && Safe(s) && fillTo % HOUR == 0 && s.src.realms != []
    requires Writes(Called(s, stat, fillTo), n).job.Idle? && !stat.RealmActiveHumans? && !stat.Logging?
    ensures IsStart(s, stat, start)
    ensures var fills := Writes(Called(s, stat, fillTo), n).db.fills;
      var end := if stat.MessagesSentByIsBot? then fillTo else fillTo - fillTo % DAY;
      stat in fills && fills[stat] == FillState(if start < end then end else start, Done)
  {
    hide Write, Safe, Begin, IsStart;
    GridIsMultiples(fillTo);
    start := IndependentRunEnd(s, stat, fillTo, n);
    var end := fillTo - fillTo % DAY;
    GridIsMultiples(end);
    assert end % DAY == 0;
    FloorAndCeilingAreTight(fillTo, end, Day);
    FloorAndCeilingAreTight(fillTo, fillTo, Hour);
  }

  lemma FloorOfMin(a: int, b: int, f: Frequency)
    ensures Floor(Min(a, b), f) == Min(Floor(a, f), Floor(b, f))
  {
    hide OnGrid, Floor;
    FloorAndCeilingAreTight(a, Floor(b, f), f);
    FloorAndCeilingAreTight(b, Floor(a, f), f);
  }

  /** A finished run of realm_active_humans, spelled out: it completes the least of its floored target and
      of what its two dependencies have completed, and nothing while one of them is missing. */
  lemma DependentRunEnd(s: State, fillTo: int, n: nat) returns (start: int)
    requires s.job.Idle? && Safe(s) && OnGrid(fillTo, Hour) && s.src.realms != []
    requires Writes(Called(s, RealmActiveHumans, fillTo), n).job.Idle?
    ensures IsStart(s, RealmActiveHumans, start)
    ensures var before, fills := s.db.fills, Writes(Called(s, RealmActiveHumans, fillTo), n).db.fills;
      && RealmActiveHumans in fills && fills[RealmActiveHumans].phase.Done?
      && (ActiveUsersAudit !in before || FifteenDayActives !in before ==> fills[RealmActiveHumans].endTime == start)
      && (ActiveUsersAudit in before && FifteenDayActives in before ==>
            var audits := LastCompleted(before[ActiveUsersAudit], ActiveUsersAudit);
            var actives := LastCompleted(before[FifteenDayActives], FifteenDayActives);
            var least := Min(Floor(fillTo, Day), Min(audits, actives));
            fills[RealmActiveHumans].endTime == if start < least then least else start)
  {
    hide OnGrid, Floor, Write, Begin, IsStart, Safe;
    start := StartsFrom(s.src, s.db.fills, RealmActiveHumans);
    StartsFromIsStart(s, RealmActiveHumans);
    FinishedRunEnd(s, RealmActiveHumans, fillTo, n);
    HumansTarget(s, fillTo);
  }

  lemma HumansTarget(s: State, fillTo: int)
    requires Safe(s)
    ensures var target := EffectiveTarget(s.db.fills, RealmActiveHumans.Dependencies(), fillTo);
      && (target.None? <==> ActiveUsersAudit !in s.db.fills || FifteenDayActives !in s.db.fills)
      && (target.Some? ==>
            var audits := LastCompleted(s.db.fills[ActiveUsersAudit], ActiveUsersAudit);
            var actives := LastCompleted(s.db.fills[FifteenDayActives], FifteenDayActives);
            Floor(target.value, Day) == Min(Floor(fillTo, Day), Min(audits, actives)))
  {
    hide OnGrid, Floor;
    var ds, fills := RealmActiveHumans.Dependencies(), s.db.fills;
    assert ds == [ActiveUsersAudit, FifteenDayActives] && ds[1..] == [FifteenDayActives] && ds[1..][1..] == [];
    if ActiveUsersAudit in fills && FifteenDayActives in fills {
      var a, b := LastSuccessfulFill(fills, ActiveUsersAudit).value, LastSuccessfulFill(fills, FifteenDayActives).value;
      assert EffectiveTarget(fills, ds[1..], Min(fillTo, a)) == EffectiveTarget(fills, [], Min(Min(fillTo, a), b));
      assert EffectiveTarget(fills, ds, fillTo) == Some(Min(Min(fillTo, a), b));
      assert FillOk(fills, Epoch(s.src), ActiveUsersAudit) && FillOk(fills, Epoch(s.src), FifteenDayActives);
      LastFillIsLastCompleted(fills, ActiveUsersAudit);
      LastFillIsLastCompleted(fills, FifteenDayActives);
      FloorOfMin(fillTo, a, Day);
      FloorOfMin(Min(fillTo, a), b, Day);
    }
  }

  function Rank(point: Point): int {
    match point
    case Create => 100
    case Undo(n) => 98 - n
    case Reset => 90
    case Mark => 5
    case Pulling => 4
    case RollRealm => 3
    case RollInstallation => 2
    case Finish => 1
  }

  /** Each write ends the run, finishes what is undone or created, or comes closer to the target. */
  lemma WriteProgresses(s: State)
    requires s.job.Busy? && Safe(s)
    ensures Rank(s.job.point) >= 0
    ensures var job, job' := s.job, Write(s).job;
      job'.Busy? ==>
        if Rank(job.point) >= 90 then Rank(job'.point) < Rank(job.point)
        else
          Rank(job'.point) < 90 && job'.fillTo == job.fillTo
          && ((job'.time == job.time && Rank(job'.point) < Rank(job.point)) || job.time < job'.time <= job.fillTo)
  {
    hide OnGrid, Pull, RealmRollup, InstallationRollup, Without, FillOk, TargetReached;
  }

  /** Every run finishes if it is not cut off. */
  lemma {:induction false} RunTerminates(s: State) returns (n: nat)
    requires Safe(s)
    ensures Writes(s, n).job.Idle?
    decreases s.job.Busy?, s.job.Busy? && Rank(s.job.point) >= 90,
      if s.job.Busy? && Rank(s.job.point) < 90 then s.job.fillTo - s.job.time else 0,
      if s.job.Busy? then Rank(s.job.point) else 0
  {
    hide Write, Safe;
    if s.job.Idle? {
      n := 0;
    } else {
      WriteProgresses(s);
      WriteIsSafe(s);
      var m := RunTerminates(Write(s));
      n := m + 1;
    }
  }

  // ----- two runs compose

  ghost predicate Exact(s: State, stat: CountStat) {
    && Safe(s)
    && ViewsOk(s, stat)
    && (stat.Logging? ==> LogOk(s, stat))
    && forall d :: d in stat.Dependencies() ==> ViewsOk(s, d)
  }

  lemma StepKeepsExact(s: State, stat: CountStat)
    requires s.job.Busy? && Exact(s, stat)
    ensures Exact(Write(s), stat)
  {
    hide Write, ViewOk, LogOk, Safe;
    WriteIsSafe(s);
    assert Apply(s, Step) == Write(s);
    forall k | k in stat.UndoTables() ensures ViewOk(Write(s), stat, k) { ViewStep(s, Step, stat, k); }
    forall d, k | d in stat.Dependencies() && k in d.UndoTables()
      ensures ViewOk(Write(s), d, k)
    {
      ViewStep(s, Step, d, k);
    }
    if stat.Logging? { LogOkStep(s, Step, stat); }
  }

  lemma {:induction false} WritesKeepExact(s: State, n: nat, stat: CountStat)
    requires Exact(s, stat)
    ensures Exact(Writes(s, n), stat)
    decreases n
  {
    hide Write, Exact;
    if n > 0 && s.job.Busy? {
      StepKeepsExact(s, stat);
      WritesKeepExact(Write(s), n - 1, stat);
    }
  }

  lemma {:induction false} WritesKeepSafe(s: State, n: nat)
    requires Safe(s)
    ensures Safe(Writes(s, n))
    decreases n
  {
    hide Write, Safe;
    if n > 0 && s.job.Busy? {
      WriteIsSafe(s);
      WritesKeepSafe(Write(s), n - 1);
    }
  }

  /** A run leaves every other stat's FillState and rows alone, and the source. */
  lemma {:induction false} WritesElsewhere(s: State, n: nat, other: CountStat, k: TableName)
    requires Safe(s) && (s.job.Busy? ==> s.job.stat != other)
    ensures var s' := Writes(s, n);
      && s'.src == s.src
      && Of(s'.db.Table(k), other) == Of(s.db.Table(k), other)
      && (other in s'.db.fills <==> other in s.db.fills)
      && (other in s.db.fills ==> s'.db.fills[other] == s.db.fills[other])
    decreases n
  {
    hide Write, Safe, Of;
    if n > 0 && s.job.Busy? {
      SafeJob(s);
      WriteElsewhere(s, other, k);
      OtherJob(s);
      WriteIsSafe(s);
      WritesElsewhere(Write(s), n - 1, other, k);
    }
  }

  lemma {:induction false} TargetOfMax(fills: Fills, ds: seq<CountStat>, a: int, b: int)
    ensures var x, y, z := EffectiveTarget(fills, ds, a), EffectiveTarget(fills, ds, b),
      EffectiveTarget(fills, ds, Max(a, b));
      (x.None? <==> z.None?) && (y.None? <==> z.None?) && (z.Some? ==> z.value == Max(x.value, y.value))
  {
    if ds != [] {
      var last := LastSuccessfulFill(fills, ds[0]);
      if last.Some? {
        TargetOfMax(fills, ds[1..], Min(a, last.value), Min(b, last.value));
      }
    }
  }

  lemma FloorOfMax(a: int, b: int, f: Frequency)
    ensures Floor(Max(a, b), f) == Max(Floor(a, f), Floor(b, f))
  {
    hide OnGrid, Floor;
    FloorAndCeilingAreTight(a, Floor(b, f), f);
    FloorAndCeilingAreTight(b, Floor(a, f), f);
  }

  lemma EndsCompose(fills: Fills, stat: CountStat, t1: int, t2: int, filled: int)
    ensures var end := EndFrom(fills, stat, t1, filled);
      EndFrom(fills[stat := FillState(end, Done)], stat, t2, end) == EndFrom(fills, stat, Max(t1, t2), filled)
  {
    hide Floor;
    var end := EndFrom(fills, stat, t1, filled);
    var ds := stat.Dependencies();
    TargetIgnores(fills, ds, t2, stat, FillState(end, Done));
    TargetOfMax(fills, ds, t1, t2);
    var x, y := EffectiveTarget(fills, ds, t1), EffectiveTarget(fills, ds, t2);
    if x.Some? && y.Some? { FloorOfMax(x.value, y.value, stat.Frequency()); }
  }

  lemma FillsAfterRun(s: State, stat: CountStat, fillTo: int, n: nat)
    requires s.job.Idle? && Safe(s) && OnGrid(fillTo, Hour)
    requires Writes(Called(s, stat, fillTo), n).job.Idle?
    ensures Writes(Called(s, stat, fillTo), n).db.fills
      == s.db.fills[stat := FillState(EndFrom(s.db.fills, stat, fillTo, StartsFrom(s.src, s.db.fills, stat)), Done)]
  {
    hide Write, Safe, Begin, EndFrom, StartsFrom, Of;
    CalledIsSafe(s, stat, fillTo);
    FinishedRunEnd(s, stat, fillTo, n);
    forall other | other != stat
      ensures (other in Writes(Called(s, stat, fillTo), n).db.fills <==> other in s.db.fills)
      ensures other in s.db.fills ==> Writes(Called(s, stat, fillTo), n).db.fills[other] == s.db.fills[other]
    {
      WritesElsewhere(Called(s, stat, fillTo), n, other, UserTable);
    }
  }

  lemma CalledIsSafe(s: State, stat: CountStat, fillTo: int)
    requires s.job.Idle? && Safe(s)
    ensures Safe(Called(s, stat, fillTo))
    ensures Called(s, stat, fillTo).job.Busy? ==> Called(s, stat, fillTo).job.stat == stat
  {
    BeginIsSafe(s, stat, fillTo);
  }

  lemma CalledIsExact(s: State, stat: CountStat, fillTo: int, other: CountStat)
    requires s.job.Idle? && Exact(s, other)
    ensures Exact(Called(s, stat, fillTo), other)
  {
    hide ViewOk, Begin, Safe;
    CalledIsSafe(s, stat, fillTo);
    forall k | k in other.UndoTables() ensures ViewOk(Called(s, stat, fillTo), other, k) {
      JobStep(s, Call(stat, fillTo), other, k);
    }
    forall d, k | d in other.Dependencies() && k in d.UndoTables() ensures ViewOk(Called(s, stat, fillTo), d, k) {
      JobStep(s, Call(stat, fillTo), d, k);
    }
  }

  /** An exact DONE state's rows are a function of the source and the end_time. */
  lemma DoneRows(a: State, b: State, stat: CountStat, k: TableName)
    requires Exact(a, stat) && Exact(b, stat) && a.src == b.src
    requires stat in a.db.fills && stat in b.db.fills && a.db.fills[stat] == b.db.fills[stat]
    requires a.db.fills[stat].phase.Done?
    ensures Of(a.db.Table(k), stat) == Of(b.db.Table(k), stat)
  {
    hide Filled, Logged, Of;
    if k in stat.UndoTables() {
      assert ViewOk(a, stat, k) && ViewOk(b, stat, k);
    } else {
      assert stat.Logging?;
    }
  }

  lemma {:induction false} WritesKeepSource(s: State, n: nat)
    ensures Writes(s, n).src == s.src
    decreases n
  {
    hide Write;
    if n > 0 && s.job.Busy? {
      OtherJob(s);
      WritesKeepSource(Write(s), n - 1);
    }
  }

  /** A finished run towards t1 and then one towards t2 leave what one run towards the later of
      the two leaves: the same FillStates, and for every stat the same rows in every table. */
  lemma RunsCompose(s: State, stat: CountStat, t1: int, n1: nat, t2: int, n2: nat, n: nat)
    requires s.job.Idle? && Exact(s, stat) && OnGrid(t1, Hour) && OnGrid(t2, Hour)
    requires Writes(Called(s, stat, t1), n1).job.Idle?
    requires Writes(Called(Writes(Called(s, stat, t1), n1), stat, t2), n2).job.Idle?
    requires Writes(Called(s, stat, Max(t1, t2)), n).job.Idle?
    ensures var twice, once := Writes(Called(Writes(Called(s, stat, t1), n1), stat, t2), n2),
      Writes(Called(s, stat, Max(t1, t2)), n);
      && twice.db.fills == once.db.fills
      && forall other, k :: Of(twice.db.Table(k), other) == Of(once.db.Table(k), other)
  {
    hide Write, Safe, Begin, EndFrom, ViewsOk, LogOk, Of;
    var s1 := Writes(Called(s, stat, t1), n1);
    var twice, once := Writes(Called(s1, stat, t2), n2), Writes(Called(s, stat, Max(t1, t2)), n);
    CalledIsExact(s, stat, t1, stat);
    WritesKeepExact(Called(s, stat, t1), n1, stat);
    CalledIsExact(s1, stat, t2, stat);
    WritesKeepExact(Called(s1, stat, t2), n2, stat);
    CalledIsExact(s, stat, Max(t1, t2), stat);
    WritesKeepExact(Called(s, stat, Max(t1, t2)), n, stat);
    WritesKeepSource(Called(s, stat, t1), n1);
    WritesKeepSource(Called(s1, stat, t2), n2);
    WritesKeepSource(Called(s, stat, Max(t1, t2)), n);
    FillsAfterRun(s, stat, t1, n1);
    FillsAfterRun(s1, stat, t2, n2);
    FillsAfterRun(s, stat, Max(t1, t2), n);
    EndsCompose(s.db.fills, stat, t1, t2, StartsFrom(s.src, s.db.fills, stat));
    forall other, k ensures Of(twice.db.Table(k), other) == Of(once.db.Table(k), other) {
      if other == stat {
        DoneRows(twice, once, stat, k);
      } else {
        CalledIsSafe(s, stat, t1);
        CalledIsSafe(s1, stat, t2);
        CalledIsSafe(s, stat, Max(t1, t2));
        WritesElsewhere(Called(s, stat, t1), n1, other, k);
        WritesElsewhere(Called(s1, stat, t2), n2, other, k);
        WritesElsewhere(Called(s, stat, Max(t1, t2)), n, other, k);
      }
    }
  }
}
