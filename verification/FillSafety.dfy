/** What every write of every run keeps about the FillState rows, whatever the tables hold. */
module FillSafety {
  import opened TimeGrid
  import opened CountStats
  import opened CountTables
  import opened SourceData
  import opened Queries
  import opened FillMachine

  /** The last end_time whose rows are known to be complete. */
  function Completed(f: FillState, stat: CountStat): int {
    if f.phase.Done? then f.endTime else f.endTime - stat.Step()
  }

  ghost predicate DependenciesReached(fills: Fills, stat: CountStat, t: int) {
    forall d :: d in stat.Dependencies() ==> d in fills && t <= Completed(fills[d], d)
  }

  ghost predicate TargetReached(fills: Fills, stat: CountStat, target: int) {
    forall d :: d in stat.Dependencies() ==> d in fills && target <= LastSuccessfulFill(fills, d).value
  }

  ghost predicate FillOk(fills: Fills, epoch: int, stat: CountStat)
    requires stat in fills
  {
    var f := fills[stat];
    && OnGrid(f.endTime, stat.Frequency())
    && epoch <= f.endTime
    && (f.phase.Started? ==> epoch < f.endTime)
    && (epoch < f.endTime ==> DependenciesReached(fills, stat, f.endTime))
  }

  ghost predicate JobOk(fills: Fills, epoch: int, job: Job) {
    match job
    case Idle => true
    case Busy(stat, fillTo, time, point) =>
      && OnGrid(time, stat.Frequency())
      && match point
         case Create => stat !in fills && time == epoch
         case Undo(n) => stat in fills && fills[stat] == FillState(time, Started) && n < |stat.UndoTables()|
         case Reset => stat in fills && fills[stat] == FillState(time, Started)
         case Mark =>
           stat in fills && fills[stat] == FillState(time - stat.Step(), Done)
           && time <= fillTo && TargetReached(fills, stat, fillTo)
         case _ =>
           stat in fills && fills[stat] == FillState(time, Started)
           && time <= fillTo && TargetReached(fills, stat, fillTo)
           && (point.Pulling? ==> !stat.Logging?)
           && (point.RollRealm? ==> stat.Output() != RealmTable)
  }

  ghost predicate Safe(s: State) {
    && (forall stat :: stat in s.db.fills ==> FillOk(s.db.fills, Epoch(s.src), stat))
    && JobOk(s.db.fills, Epoch(s.src), s.job)
  }

  lemma EpochIsFirstDay(src: Source)
    requires src.realms != []
    ensures IsFirstDay(Epoch(src), src.realms)
  {
    GridIsMultiples(Epoch(src));
  }

  /** The earliest realm stays the earliest: the epoch does not move. */
  ghost predicate EpochKept(s: State, e: Event) {
    e.Grow? ==> Epoch(e.src) == Epoch(s.src)
  }

  ghost predicate EpochFixed(src: Source, es: seq<Event>) {
    es != [] ==> EpochFixed(src, es[..|es| - 1]) && EpochKept(Reach(src, es[..|es| - 1]), es[|es| - 1])
  }

  /** Subtracting one hour from a STARTED dependency is safe for a dependent's grid, because a day
      dependency has only day dependents: no grid point of the dependent lies in the gap. */
  lemma LastFillIsSafe(fills: Fills, d: CountStat, stat: CountStat, t: int)
    requires d in fills && OnGrid(fills[d].endTime, d.Frequency()) && OnGrid(t, stat.Frequency())
    requires d.Frequency() == Hour || stat.Frequency() == Day
    requires t <= LastSuccessfulFill(fills, d).value
    ensures t <= Completed(fills[d], d)
  {
    if fills[d].phase.Started? && d.Frequency() == Day {
      GridGap(t, fills[d].endTime, Day);
    }
  }

  /** The last completed end_time of a stat with a FillState. */
  function LastCompleted(f: FillState, stat: CountStat): int {
    if f.phase.Done? then f.endTime else f.endTime - stat.Frequency().Step()
  }

  /** Nothing completed is left out either: on the stat's own grid the last successful fill is the last
      completed end_time. */
  lemma LastFillIsLastCompleted(fills: Fills, stat: CountStat)
    requires stat in fills && OnGrid(fills[stat].endTime, stat.Frequency())
    ensures Floor(LastSuccessfulFill(fills, stat).value, stat.Frequency()) == LastCompleted(fills[stat], stat)
  {
    hide OnGrid, Floor;
    var last, f := LastSuccessfulFill(fills, stat).value, stat.Frequency();
    var completed := if fills[stat].phase.Done? then fills[stat].endTime else fills[stat].endTime - f.Step();
    GridStep(fills[stat].endTime, f);
    FloorAndCeilingAreTight(last, completed, f);
    if completed < Floor(last, f) { GridGap(completed, Floor(last, f), f); }
  }

  /** last_successful_fill meets the frequency mix exactly: on the dependent's grid it names nothing but
      completed instants if and only if the dependency is DONE, or hourly, or the dependent is daily. */
  lemma LastFillExactlyWhen(fills: Fills, d: CountStat, dependent: Frequency)
    requires d in fills && OnGrid(fills[d].endTime, d.Frequency())
    ensures (forall t {:trigger OnGrid(t, dependent)} ::
               OnGrid(t, dependent) && t <= LastSuccessfulFill(fills, d).value ==> t <= Completed(fills[d], d))
      <==> fills[d].phase.Done? || d.Frequency() == Hour || dependent == Day
  {
    var endTime := fills[d].endTime;
    if fills[d].phase.Done? || d.Frequency() == Hour {
    } else if dependent == Day {
      forall t {:trigger OnGrid(t, dependent)} | OnGrid(t, dependent) && t <= endTime - HOUR
        ensures t <= endTime - d.Step()
      {
        GridGap(t, endTime, Day);
      }
    } else {
      DayIsOnHourGrid(endTime, Hour);
      GridStep(endTime, Hour);
      assert OnGrid(endTime - HOUR, dependent);
    }
  }

  lemma {:induction false} TargetIsReached(fills: Fills, ds: seq<CountStat>, fillTo: int)
    ensures var r := EffectiveTarget(fills, ds, fillTo);
      && (r.None? <==> exists d :: d in ds && d !in fills)
      && (r.Some? ==> r.value <= fillTo && forall d :: d in ds ==>
          d in fills && r.value <= LastSuccessfulFill(fills, d).value)
    ensures var r := EffectiveTarget(fills, ds, fillTo);
      r.Some? ==>
        r.value == fillTo || exists d :: d in ds && d in fills && r.value == LastSuccessfulFill(fills, d).value
  {
    if ds != [] {
      assert forall d :: d in ds <==> d == ds[0] || d in ds[1..];
      var last := LastSuccessfulFill(fills, ds[0]);
      if last.Some? {
        TargetIsReached(fills, ds[1..], Min(fillTo, last.value));
        assert ds[0] in ds;
      }
    }
  }

  lemma TargetCoversGrid(s: State, stat: CountStat, target: int, t: int)
    requires forall d :: d in s.db.fills ==> FillOk(s.db.fills, Epoch(s.src), d)
    requires TargetReached(s.db.fills, stat, target)
    requires OnGrid(t, stat.Frequency()) && t <= target
    ensures DependenciesReached(s.db.fills, stat, t)
  {
    forall d | d in stat.Dependencies() ensures d in s.db.fills && t <= Completed(s.db.fills[d], d) {
      LastFillIsSafe(s.db.fills, d, stat, t);
    }
  }

  lemma EnterIsOk(fills: Fills, epoch: int, stat: CountStat, fillTo: int, filled: int)
    requires stat in fills && fills[stat] == FillState(filled, Done) && OnGrid(filled, stat.Frequency())
    ensures JobOk(fills, epoch, Enter(fills, stat, fillTo, filled))
  {
    TargetIsReached(fills, stat.Dependencies(), fillTo);
    GridStep(filled, stat.Frequency());
  }

  /** Changing one stat's FillState without moving its completed time back keeps the others. */
  lemma SetFillKeepsOthers(db: Db, epoch: int, stat: CountStat, f: FillState, other: CountStat)
    requires other in db.fills && other != stat && FillOk(db.fills, epoch, other)
    requires stat in db.fills ==> Completed(db.fills[stat], stat) <= Completed(f, stat)
    ensures FillOk(db.fills[stat := f], epoch, other)
  {
  }

  /** A write that sets the FillState of its own stat. */
  lemma SetFillIsSafe(s: State, stat: CountStat, f: FillState, job: Job)
    requires forall other :: other in s.db.fills ==> FillOk(s.db.fills, Epoch(s.src), other)
    requires stat in s.db.fills ==> Completed(s.db.fills[stat], stat) <= Completed(f, stat)
    requires FillOk(s.db.fills[stat := f], Epoch(s.src), stat)
    requires JobOk(s.db.fills[stat := f], Epoch(s.src), job)
    ensures Safe(State(s.src, s.db.SetFill(stat, f.endTime, f.phase), job))
  {
    var fills := s.db.fills[stat := f];
    forall other | other in fills ensures FillOk(fills, Epoch(s.src), other) {
      if other != stat {
        SetFillKeepsOthers(s.db, Epoch(s.src), stat, f, other);
      }
    }
  }

  lemma CreateIsSafe(s: State)
    requires s.job.Busy? && s.job.point.Create? && Safe(s)
    ensures Safe(Write(s))
  {
    hide OnGrid, Pull, RealmRollup, InstallationRollup, Without;
    var Busy(stat, fillTo, time, _) := s.job;
    var f := FillState(time, Done);
    EnterIsOk(s.db.fills[stat := f], Epoch(s.src), stat, fillTo, time);
    SetFillIsSafe(s, stat, f, Enter(s.db.fills[stat := f], stat, fillTo, time));
  }

  lemma ResetIsSafe(s: State)
    requires s.job.Busy? && s.job.point.Reset? && Safe(s)
    ensures Safe(Write(s))
  {
    hide OnGrid, Pull, RealmRollup, InstallationRollup, Without;
    var Busy(stat, fillTo, time, _) := s.job;
    var f := FillState(time - stat.Step(), Done);
    GridStep(time, stat.Frequency());
    DayIsOnHourGrid(Epoch(s.src), stat.Frequency());
    GridGap(Epoch(s.src), time, stat.Frequency());
    EnterIsOk(s.db.fills[stat := f], Epoch(s.src), stat, fillTo, f.endTime);
    SetFillIsSafe(s, stat, f, Enter(s.db.fills[stat := f], stat, fillTo, f.endTime));
  }

  lemma MarkIsSafe(s: State)
    requires s.job.Busy? && s.job.point.Mark? && Safe(s)
    ensures Safe(Write(s))
  {
    hide OnGrid, Pull, RealmRollup, InstallationRollup, Without;
    var Busy(stat, fillTo, time, _) := s.job;
    TargetCoversGrid(s, stat, fillTo, time);
    SetFillIsSafe(s, stat, FillState(time, Started), s.job.(point := FirstPoint(stat)));
  }

  lemma FinishIsSafe(s: State)
    requires s.job.Busy? && s.job.point.Finish? && Safe(s)
    ensures Safe(Write(s))
  {
    hide OnGrid, Pull, RealmRollup, InstallationRollup, Without;
    var Busy(stat, fillTo, time, _) := s.job;
    GridStep(time, stat.Frequency());
    SetFillIsSafe(s, stat, FillState(time, Done), Loop(stat, fillTo, time + stat.Step()));
  }

  lemma WriteIsSafe(s: State)
    requires s.job.Busy? && Safe(s)
    ensures Safe(Write(s))
  {
    hide OnGrid, Pull, RealmRollup, InstallationRollup, Without;
    match s.job.point
    case Create => CreateIsSafe(s);
    case Reset => ResetIsSafe(s);
    case Mark => MarkIsSafe(s);
    case Finish => FinishIsSafe(s);
    case _ =>
      assert Write(s).db.fills == s.db.fills;
      assert JobOk(s.db.fills, Epoch(s.src), Write(s).job);
  }

  lemma BeginIsSafe(s: State, stat: CountStat, fillTo: int)
    requires Safe(s)
    ensures JobOk(s.db.fills, Epoch(s.src), Begin(s.src, s.db, stat, fillTo))
  {
    DayIsOnHourGrid(Epoch(s.src), stat.Frequency());
    if stat in s.db.fills && s.db.fills[stat].phase.Done? {
      EnterIsOk(s.db.fills, Epoch(s.src), stat, fillTo, s.db.fills[stat].endTime);
    }
  }

  lemma {:induction false} ReachIsSafe(src: Source, es: seq<Event>)
    requires EpochFixed(src, es)
    ensures Safe(Reach(src, es))
  {
    if es != [] {
      var s, e := Reach(src, es[..|es| - 1]), es[|es| - 1];
      ReachIsSafe(src, es[..|es| - 1]);
      if e.Step? && s.job.Busy? {
        WriteIsSafe(s);
      } else if e.Call? && s.job.Idle? {
        BeginIsSafe(s, e.stat, e.fillTo);
      }
    }
  }

  /** Whenever a dependent stat has STARTED or completed an end_time past the epoch, each of its
      dependencies has completed that end_time, in every history of runs, crashes and traffic. */
  lemma DependencySafety(src: Source, es: seq<Event>, stat: CountStat, dependency: CountStat)
    requires EpochFixed(src, es) && dependency in stat.Dependencies()
    ensures var s := Reach(src, es);
      stat in s.db.fills && Epoch(s.src) < s.db.fills[stat].endTime ==>
        && dependency in s.db.fills
        && (s.db.fills[dependency].phase.Done? ==> s.db.fills[stat].endTime <= s.db.fills[dependency].endTime)
        && (s.db.fills[dependency].phase.Started? ==> s.db.fills[stat].endTime < s.db.fills[dependency].endTime)
  {
    ReachIsSafe(src, es);
  }
}
