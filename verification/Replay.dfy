/** The uninterrupted run that crash recovery is measured against exists: it is constructed here. */
module Replay {
  import opened Lists
  import opened TimeGrid
  import opened CountStats
  import opened CountTables
  import opened SourceData
  import opened FillMachine
  import opened FillSafety
  import opened FillExactness
  import opened FillRuns
  import opened CrashRecovery
  import opened LoggingStats

  function Run(stat: CountStat, fillTo: int, n: nat): seq<Event> { [Call(stat, fillTo)] + Steps(n) }

  /** Nothing dies and nothing but increments comes in between; each run is over before the next is
      called and at the end. */
  ghost predicate Uninterrupted(src: Source, es: seq<Event>) {
    && (forall i :: 0 <= i < |es| ==> !es[i].Crash? && !es[i].Grow? && (es[i].Call? ==> Reach(src, es[..i]).job.Idle?))
    && Reach(src, es).job.Idle?
  }

  lemma {:induction false} StepsAreSteps(n: nat)
    ensures forall e :: e in Steps(n) ==> e.Step?
  {
    if n > 0 { StepsAreSteps(n - 1); }
  }

  lemma {:induction false} QuietIsStable(src: Source, es: seq<Event>, more: seq<Event>, stat: CountStat)
    requires Stable(src, es, stat) && forall e :: e in more ==> !e.Log? && !e.Grow?
    ensures Stable(src, es + more, stat)
    decreases |more|
  {
    hide Undisturbed, Apply;
    if more == [] {
      assert es + more == es;
    } else {
      var init, e, all := more[..|more| - 1], more[|more| - 1], es + more;
      assert all[..|all| - 1] == es + init && all[|all| - 1] == e && e in more;
      assert forall f :: f in init ==> f in more;
      QuietIsStable(src, es, init, stat);
      forall d ensures Undisturbed(Reach(src, es + init), e, d) { QuietEvents(Reach(src, es + init), e, d); }
    }
  }

  lemma UninterruptedRun(src: Source, es: seq<Event>, stat: CountStat, fillTo: int, n: nat)
    requires Uninterrupted(src, es) && Reach(src, es + Run(stat, fillTo, n)).job.Idle?
    ensures Uninterrupted(src, es + Run(stat, fillTo, n))
  {
    hide Reach;
    var run := Run(stat, fillTo, n);
    var all := es + run;
    StepsAreSteps(n);
    forall i | 0 <= i < |all|
      ensures !all[i].Crash? && !all[i].Grow? && (all[i].Call? ==> Reach(src, all[..i]).job.Idle?)
    {
      if i < |es| {
        assert all[i] == es[i] && all[..i] == es[..i];
      } else if i == |es| {
        assert all[..i] == es;
      } else {
        assert all[i] == Steps(n)[i - |es| - 1] && all[i] in Steps(n);
      }
    }
  }

  /** From an idle state a run of stat towards fillTo can be made to its end. */
  lemma RunOnce(src: Source, es: seq<Event>, stat: CountStat, fillTo: int) returns (more: seq<Event>)
    requires Reach(src, es).job.Idle? && Safe(Reach(src, es)) && OnGrid(fillTo, Hour)
    ensures Reach(src, es + more).job.Idle?
    ensures Uninterrupted(src, es) ==> Uninterrupted(src, es + more)
    ensures var s, s' := Reach(src, es), Reach(src, es + more);
      && s'.src == s.src && Safe(s')
      && var end := EndFrom(s.db.fills, stat, fillTo, StartsFrom(s.src, s.db.fills, stat));
         s'.db.fills == s.db.fills[stat := FillState(end, Done)]
    ensures forall other :: Stable(src, es, other) ==> Stable(src, es + more, other)
  {
    hide Reach, Write, Safe, Begin, EndFrom, StartsFrom, OnGrid, Stable;
    var s := Reach(src, es);
    CalledIsSafe(s, stat, fillTo);
    var n := RunTerminates(Called(s, stat, fillTo));
    more := Run(stat, fillTo, n);
    RunIsHistory(src, es, stat, fillTo, n);
    assert es + more == es + [Call(stat, fillTo)] + Steps(n);
    FillsAfterRun(s, stat, fillTo, n);
    WritesKeepSource(Called(s, stat, fillTo), n);
    WritesKeepSafe(Called(s, stat, fillTo), n);
    if Uninterrupted(src, es) { UninterruptedRun(src, es, stat, fillTo, n); }
    StepsAreSteps(n);
    forall other | Stable(src, es, other) ensures Stable(src, es + more, other) { QuietIsStable(src, es, more, other); }
  }

  // ----- the increments, logged first

  function Logs(incs: seq<Increment>): seq<Event> {
    if incs == [] then [] else Logs(incs[..|incs| - 1]) + [Log(incs[|incs| - 1])]
  }

  lemma {:induction false} LogsReach(src: Source, incs: seq<Increment>)
    requires forall i :: i in incs ==> Fits(i)
    ensures var s := Reach(src, Logs(incs)); s.src == src.(increments := incs) && s.db.fills == map[] && s.job.Idle?
    ensures Uninterrupted(src, Logs(incs)) && forall stat :: Stable(src, Logs(incs), stat)
  {
    hide Undisturbed, Apply;
    if incs == [] {
      assert Logs(incs) == [];
    } else {
      var init, i, es := incs[..|incs| - 1], incs[|incs| - 1], Logs(incs);
      assert incs == init + [i];
      LogsReach(src, init);
      LogApplied(Reach(src, Logs(init)), i);
      assert es[..|es| - 1] == Logs(init) && es[|es| - 1] == Log(i);
      forall j | 0 <= j < |es|
        ensures !es[j].Crash? && !es[j].Grow? && (es[j].Call? ==> Reach(src, es[..j]).job.Idle?)
      {
        if j < |Logs(init)| { assert es[j] == Logs(init)[j] && es[..j] == Logs(init)[..j]; }
      }
      forall stat
        ensures Undisturbed(Reach(src, Logs(init)), Log(i), stat)
      {
        NothingToDisturb(Reach(src, Logs(init)), Log(i), stat);
      }
    }
  }

  lemma LogApplied(s: State, i: Increment)
    requires Fits(i)
    ensures var s' := Apply(s, Log(i));
      s'.src == s.src.(increments := s.src.increments + [i]) && s'.db.fills == s.db.fills && s'.job == s.job
  {
  }

  lemma NothingToDisturb(s: State, e: Event, stat: CountStat)
    requires stat !in s.db.fills
    ensures Undisturbed(s, e, stat)
  {
  }

  lemma FloorOfGrid(t: int, f: Frequency)
    requires OnGrid(t, f)
    ensures Floor(t, f) == t
  {
    hide OnGrid, Floor;
    FloorAndCeilingAreTight(t, t, f);
  }

  /** A new stat whose dependencies, if any, are DONE at t ends a run towards t there. */
  lemma EndsAt(fills: Fills, stat: CountStat, t: int, epoch: int)
    requires OnGrid(t, stat.Frequency()) && epoch <= t
    requires forall d :: d in stat.Dependencies() ==> d in fills && fills[d] == FillState(t, Done)
    ensures EndFrom(fills, stat, t, epoch) == t
  {
    hide OnGrid, Floor;
    TargetIsReached(fills, stat.Dependencies(), t);
    FloorOfGrid(t, stat.Frequency());
  }

  /** A history over src that fills the given stats to t, one run each, without interruption. */
  lemma {:induction false} FillAll(src: Source, incs: seq<Increment>, stats: seq<CountStat>,
      t: int) returns (es: seq<Event>)
    requires forall i :: i in incs ==> Fits(i)
    requires Epoch(src) <= t && forall stat :: stat in stats ==> OnGrid(t, stat.Frequency())
    requires OnGrid(t, Hour)
    requires Distinct(stats)
    requires forall i, d :: 0 <= i < |stats| && d in stats[i].Dependencies() ==> d in stats[..i]
    ensures Uninterrupted(src, es) && forall stat :: Stable(src, es, stat)
    ensures var s := Reach(src, es);
      && s.src == src.(increments := incs) && Safe(s) && s.job.Idle?
      && forall stat :: (stat in s.db.fills <==> stat in stats) && (stat in stats ==>
          s.db.fills[stat] == FillState(t, Done))
  {
    hide Reach, Uninterrupted, Stable, EndFrom, OnGrid;
    if stats == [] {
      es := Logs(incs);
      LogsReach(src, incs);
    } else {
      var init, stat := stats[..|stats| - 1], stats[|stats| - 1];
      assert forall i :: 0 <= i < |init| ==> init[i] == stats[i] && init[..i] == stats[..i];
      assert forall q :: q in stats <==> q in init || q == stat;
      var before := FillAll(src, incs, init, t);
      var s := Reach(src, before);
      assert stat !in init && stat !in s.db.fills;
      EndsAt(s.db.fills, stat, t, Epoch(s.src));
      var more := RunOnce(src, before, stat, t);
      es := before + more;
    }
  }

  /** Crash recovery against the real thing: whatever calls, crashes and undos a history holds, an
      uninterrupted fill over the same source to the same end_time, with the dependencies filled
      first, exists and leaves the same rows in all four tables. */
  lemma RecoveredLikeUninterrupted(src: Source, es: seq<Event>, stat: CountStat) returns (rerun: seq<Event>)
    requires Stable(src, es, stat)
    requires stat in Reach(src, es).db.fills && Reach(src, es).db.fills[stat].phase.Done?
    ensures var now := Reach(src, es).src;
      && Uninterrupted(now, rerun) && Reach(now, rerun).src == now
      && stat in Reach(now, rerun).db.fills && Reach(now, rerun).db.fills[stat] == Reach(src, es).db.fills[stat]
      && forall k :: Of(Reach(now, rerun).db.Table(k), stat) == Of(Reach(src, es).db.Table(k), stat)
  {
    hide Reach, Stable, Uninterrupted, Of, OnGrid;
    var s := Reach(src, es);
    var t := s.db.fills[stat].endTime;
    StableFixesEpoch(src, es, stat);
    ReachIsSafe(src, es);
    ArrivedIsLog(src, es);
    ArrivedFit(es);
    if stat.Frequency() == Day { DayIsOnHourGrid(t, Hour); }
    rerun := FillAll(s.src, s.src.increments, stat.Dependencies() + [stat], t);
    assert s.src.(increments := s.src.increments) == s.src;
    forall k ensures Of(Reach(s.src, rerun).db.Table(k), stat) == Of(s.db.Table(k), stat) {
      CrashRecoveryIsExact(s.src, rerun, src, es, stat, k);
    }
  }
}
