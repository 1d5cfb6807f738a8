/** Logging stats: increments are never lost, and punctual ones reach the roll-ups. */
module LoggingStats {
  import opened TimeGrid
  import opened CountStats
  import opened CountTables
  import opened SourceData
  import opened Queries
  import opened FillMachine
  import opened FillSafety
  import opened FillSpec
  import opened FillExactness
  import opened Rollups
  import opened CrashRecovery

  /** The increments of a history, in order of arrival. */
  function Arrived(es: seq<Event>): seq<Increment> {
    if es == [] then []
    else
      var before, e := Arrived(es[..|es| - 1]), es[|es| - 1];
      if e.Log? && Fits(e.increment) then before + [e.increment] else before
  }

  predicate Hits(i: Increment, stat: CountStat, slot: Slot, t: int) {
    i.stat == stat && i.slot == slot && i.EndTime() == t
  }

  function IncrementSum(incs: seq<Increment>, stat: CountStat, slot: Slot, t: int): int {
    if incs == [] then 0
    else
      var last := incs[|incs| - 1];
      IncrementSum(incs[..|incs| - 1], stat, slot, t) + if Hits(last, stat, slot, t) then last.amount else 0
  }

  lemma {:induction false} IncrementRowSum(table: seq<Row>, stat: CountStat, slot: Slot, t: int, amount: int, q: Slot,
      u: int)
    ensures SlotSum(At(IncrementRow(table, stat, slot, t, amount), stat, u), q)
      == SlotSum(At(table, stat, u), q) + if u == t && q == slot then amount else 0
  {
    if table != [] {
      IncrementRowSum(table[1..], stat, slot, t, amount, q, u);
    }
  }

  lemma {:induction false} IncrementRowIds(table: seq<Row>, stat: CountStat, slot: Slot, t: int, amount: int, id: Row)
    ensures (exists r :: r in IncrementRow(table, stat, slot, t, amount) && r.(value := 0) == id)
      <==> (exists r :: r in table && r.(value := 0) == id) || id == Row(slot.key, stat, slot.subgroup, t, 0)
  {
    var out := IncrementRow(table, stat, slot, t, amount);
    if table == [] {
      assert Row(slot.key, stat, slot.subgroup, t, amount) in out;
    } else if Row(slot.key, stat, slot.subgroup, t, table[0].value) == table[0] {
      assert forall r :: r in out <==> r == out[0] || r in table[1..];
      assert forall r :: r in table <==> r == table[0] || r in table[1..];
      assert out[0].(value := 0) == table[0].(value := 0);
    } else {
      IncrementRowIds(table[1..], stat, slot, t, amount, id);
      assert forall r :: r in out <==> r == table[0] || r in IncrementRow(table[1..], stat, slot, t, amount);
      assert forall r :: r in table <==> r == table[0] || r in table[1..];
    }
  }

  lemma {:induction false} IncrementRowUnique(table: seq<Row>, stat: CountStat, slot: Slot, t: int, amount: int)
    requires UniqueRows(table)
    ensures UniqueRows(IncrementRow(table, stat, slot, t, amount))
  {
    if table != [] && Row(slot.key, stat, slot.subgroup, t, table[0].value) != table[0] {
      var rest := IncrementRow(table[1..], stat, slot, t, amount);
      forall i, j | 0 <= i < j < |table[1..]| ensures table[1..][i].(value := 0) != table[1..][j].(value := 0) {
        assert table[1..][i] == table[i + 1] && table[1..][j] == table[j + 1];
      }
      IncrementRowUnique(table[1..], stat, slot, t, amount);
      var id := table[0].(value := 0);
      assert forall m :: 0 <= m < |table[1..]| ==> table[1..][m] == table[m + 1];
      IncrementRowIds(table[1..], stat, slot, t, amount, id);
      forall j | 0 <= j < |rest| ensures rest[j].(value := 0) != id {
        assert rest[j] in rest;
      }
    }
  }

  /** get_or_create with F('value') + increment keeps one row per key, holding the sum. */
  lemma {:induction false} LoggedSpec(incs: seq<Increment>, stat: CountStat, slot: Slot, t: int)
    ensures UniqueRows(Logged(incs, stat))
    ensures SlotSum(At(Logged(incs, stat), stat, t), slot) == IncrementSum(incs, stat, slot, t)
    ensures (exists r :: r in Logged(incs, stat) && r.(value := 0) == Row(slot.key, stat, slot.subgroup, t, 0))
      <==> exists i :: i in incs && Hits(i, stat, slot, t)
  {
    if incs != [] {
      var init, i := incs[..|incs| - 1], incs[|incs| - 1];
      LoggedSpec(init, stat, slot, t);
      assert forall j :: j in incs <==> j in init || j == i;
      if i.stat == stat {
        IncrementRowSum(Logged(init, stat), stat, i.slot, i.EndTime(), i.amount, slot, t);
        IncrementRowIds(Logged(init, stat), stat, i.slot, i.EndTime(), i.amount,
          Row(slot.key, stat, slot.subgroup, t, 0));
        IncrementRowUnique(Logged(init, stat), stat, i.slot, i.EndTime(), i.amount);
      }
    }
  }

  lemma {:induction false} ArrivedIsLog(src: Source, es: seq<Event>)
    ensures Reach(src, es).src.increments == Arrived(es)
  {
    if es != [] {
      var s, e := Reach(src, es[..|es| - 1]), es[|es| - 1];
      ArrivedIsLog(src, es[..|es| - 1]);
      if e.Step? && s.job.Busy? { OtherJob(s); }
    }
  }

  lemma {:induction false} ArrivedFit(es: seq<Event>)
    ensures forall i :: i in Arrived(es) ==> Fits(i)
  {
    if es != [] { ArrivedFit(es[..|es| - 1]); }
  }

  /** Under any interleaving of increments with calls, writes, crashes and undos, late or not, the
      output table holds for each object, subgroup and end_time the sum of the increments whose
      event_time ceils to that end_time, in one row, which exists once there is such an increment. */
  lemma LoggingLosesNothing(src: Source, es: seq<Event>, stat: CountStat, slot: Slot, t: int)
    requires stat.Logging? && EpochFixed(src, es)
    ensures var table := Reach(src, es).db.Table(stat.Output());
      && SlotSum(At(table, stat, t), slot) == IncrementSum(Arrived(es), stat, slot, t)
      && UniqueRows(Of(table, stat))
      && ((exists r :: r in Of(table, stat) && r.(value := 0) == Row(slot.key, stat, slot.subgroup, t, 0))
            <==> exists i :: i in Arrived(es) && Hits(i, stat, slot, t))
  {
    hide Reach, At, Of, Logged, UniqueRows, SlotSum, Hits;
    var s := Reach(src, es);
    ReachLogOk(src, es, stat);
    ArrivedIsLog(src, es);
    assert stat.Output() !in stat.UndoTables();
    AtOf(s.db.Table(stat.Output()), stat, t);
    LoggedSpec(Arrived(es), stat, slot, t);
  }

  /** The sum of the increments of a slot whose event_time lies in (t - step, t]. */
  function WindowSum(incs: seq<Increment>, stat: CountStat, slot: Slot, t: int): int {
    if incs == [] then 0
    else
      var i := incs[|incs| - 1];
      WindowSum(incs[..|incs| - 1], stat, slot, t)
      + if i.stat == stat && i.slot == slot && t - stat.Frequency().Step() < i.eventTime <= t then i.amount else 0
  }

  lemma {:induction false} EndTimeIsWindow(incs: seq<Increment>, stat: CountStat, slot: Slot, t: int)
    requires OnGrid(t, stat.Frequency())
    ensures IncrementSum(incs, stat, slot, t) == WindowSum(incs, stat, slot, t)
  {
    hide OnGrid, Ceiling;
    if incs != [] {
      var i := incs[|incs| - 1];
      EndTimeIsWindow(incs[..|incs| - 1], stat, slot, t);
      if i.stat == stat {
        GridStep(t, stat.Frequency());
        FloorAndCeilingAreTight(i.eventTime, t, stat.Frequency());
        FloorAndCeilingAreTight(i.eventTime, t - stat.Frequency().Step(), stat.Frequency());
        if Ceiling(i.eventTime, stat.Frequency()) < t {
          GridGap(Ceiling(i.eventTime, stat.Frequency()), t, stat.Frequency());
        }
      }
    }
  }

  /** So the output table buckets by (t - step, t], whereas the queries use [t - step, t). */
  lemma LoggedByWindow(src: Source, es: seq<Event>, stat: CountStat, slot: Slot, t: int)
    requires stat.Logging? && EpochFixed(src, es) && OnGrid(t, stat.Frequency())
    ensures SlotSum(At(Reach(src, es).db.Table(stat.Output()), stat, t), slot) == WindowSum(Arrived(es), stat, slot, t)
  {
    hide Reach, At, SlotSum, OnGrid;
    LoggingLosesNothing(src, es, stat, slot, t);
    EndTimeIsWindow(Arrived(es), stat, slot, t);
  }

  // ----- punctual increments

  /** The increment is stamped after everything stat has completed or is filling. */
  ghost predicate OnTime(s: State, i: Increment) {
    i.stat in s.db.fills ==> s.db.fills[i.stat].endTime < i.eventTime
  }

  /** Increments of stat are on time; other traffic leaves the realms alone, or just the epoch when
      stat is collected per realm and so is not joined with them. */
  ghost predicate Punctual(src: Source, es: seq<Event>, stat: CountStat) {
    es != [] ==>
      var s, e := Reach(src, es[..|es| - 1]), es[|es| - 1];
      Punctual(src, es[..|es| - 1], stat)
      && (e.Log? && e.increment.stat == stat ==> OnTime(s, e.increment))
      && EpochKept(s, e)
      && (e.Grow? && stat.Output() != RealmTable ==> e.src.realms == s.src.realms)
  }

  lemma {:induction false} IncrementRowElsewhere(table: seq<Row>, stat: CountStat, slot: Slot, t: int, amount: int,
      u: int)
    requires u != t
    ensures At(IncrementRow(table, stat, slot, t, amount), stat, u) == At(table, stat, u)
  {
    if table != [] {
      IncrementRowElsewhere(table[1..], stat, slot, t, amount, u);
    }
  }

  lemma PullsIgnoreIncrements(stat: CountStat, src: Source, incs: seq<Increment>, table: seq<Row>, start: int, end: int)
    requires !stat.Logging?
    ensures Pull(stat, src.(increments := incs), table, start, end) == Pull(stat, src, table, start, end)
  {
  }

  lemma BaseIgnoresIncrements(stat: CountStat, src: Source, incs: seq<Increment>, t: int)
    requires !stat.Logging?
    ensures BaseRows(stat, src.(increments := incs), t) == BaseRows(stat, src, t)
  {
    hide Pull;
    var src' := src.(increments := incs);
    PullsIgnoreIncrements(ActiveUsersAudit, src, incs, [], t - ActiveUsersAudit.Interval(), t);
    PullsIgnoreIncrements(FifteenDayActives, src, incs, [], t - FifteenDayActives.Interval(), t);
    PullsIgnoreIncrements(stat, src, incs, DependencyRows(stat, src, t), t - stat.Interval(), t);
  }

  /** Increments do not disturb the stats that are pulled from the source. */
  lemma LogLeavesPulls(s: State, i: Increment, stat: CountStat)
    requires !stat.Logging?
    ensures Undisturbed(s, Log(i), stat)
  {
    hide BaseRows, RealmRollup, InstallationRollup, IncrementRow;
    forall t, k {:trigger TableRows(stat, s.src, t, k)}
      ensures TableRows(stat, Apply(s, Log(i)).src, t, k) == TableRows(stat, s.src, t, k)
    {
      if Fits(i) {
        BaseIgnoresIncrements(stat, s.src, s.src.increments + [i], t);
      }
    }
  }

  /** A punctual increment disturbs no window that any stat has closed or is filling. */
  lemma OnTimeUndisturbed(s: State, i: Increment, stat: CountStat)
    requires stat.Logging? && (i.stat == stat ==> OnTime(s, i))
    ensures Undisturbed(s, Log(i), stat)
  {
    hide RealmRollup, InstallationRollup, IncrementRow, At, OnGrid, Ceiling, Logged;
    if Fits(i) && stat in s.db.fills {
      var src' := Apply(s, Log(i)).src;
      forall t, k {:trigger TableRows(stat, s.src, t, k)} | OnGrid(t, stat.Frequency()) && t <= s.db.fills[stat].endTime
        ensures TableRows(stat, src', t, k) == TableRows(stat, s.src, t, k)
      {
        BaseBeforeIncrement(s.src.increments, i, stat, t);
      }
    }
  }

  lemma BaseBeforeIncrement(incs: seq<Increment>, i: Increment, stat: CountStat, t: int)
    requires i.stat == stat ==> t < i.eventTime
    ensures At(Logged(incs + [i], stat), stat, t) == At(Logged(incs, stat), stat, t)
  {
    assert (incs + [i])[..|incs|] == incs;
    if i.stat == stat {
      assert i.EndTime() != t;
      IncrementRowElsewhere(Logged(incs, stat), stat, i.slot, i.EndTime(), i.amount, t);
    }
  }

  lemma SameRealmsUndisturbed(s: State, src: Source, stat: CountStat)
    requires stat.Logging? && (stat.Output() == RealmTable || src.realms == s.src.realms)
    ensures Undisturbed(s, Grow(src), stat)
  {
    hide RealmRollup, InstallationRollup, At, OnGrid, Logged;
  }

  lemma {:induction false} PunctualIsStable(src: Source, es: seq<Event>, stat: CountStat)
    requires stat.Logging? && Punctual(src, es, stat)
    ensures Stable(src, es, stat)
  {
    hide Undisturbed, OnTime, Apply;
    if es != [] {
      var s, e := Reach(src, es[..|es| - 1]), es[|es| - 1];
      PunctualIsStable(src, es[..|es| - 1], stat);
      assert Undisturbed(s, e, stat) by {
        if e.Log? {
          OnTimeUndisturbed(s, e.increment, stat);
        } else if e.Grow? {
          SameRealmsUndisturbed(s, e.src, stat);
        } else {
          QuietEvents(s, e, stat);
        }
      }
    }
  }

  lemma QuietEvents(s: State, e: Event, stat: CountStat)
    requires !e.Log? && !e.Grow?
    ensures Undisturbed(s, e, stat)
  {
  }

  /** When later increments are stamped after it, a completed InstallationCount equals the sum of
      all increments of its subgroup, and so do RealmCount and the output table. */
  lemma PunctualLoggingReachesInstallation(src: Source, es: seq<Event>, stat: CountStat, t: int, g: Subgroup)
    requires stat.Logging? && Punctual(src, es, stat) && OnGrid(t, stat.Frequency())
    requires var s := Reach(src, es);
      && stat in s.db.fills && Epoch(s.src) < t <= Completed(s.db.fills[stat], stat)
      && (stat.Output() != RealmTable ==>
          UniqueRealms(s.src.realms) && Covered(At(s.db.Table(stat.Output()), stat, t), s.src.realms))
    ensures var db := Reach(src, es).db;
      && SubgroupSum(At(db.installation, stat, t), g) == SubgroupIncrements(Arrived(es), stat, g, t)
      && SubgroupSum(At(db.realm, stat, t), g) == SubgroupIncrements(Arrived(es), stat, g, t)
  {
    hide Reach, At, Logged, LogOk, Punctual, Stable;
    var s := Reach(src, es);
    PunctualIsStable(src, es, stat);
    RollupsConserve(src, es, stat, t, g);
    ReachIsExact(src, es, stat);
    CompletedRows(s, stat, t, stat.Output());
    OutputRows(stat, s.src, t);
    ArrivedIsLog(src, es);
    LoggedSubgroupSum(Arrived(es), stat, g, t);
  }

  function SubgroupIncrements(incs: seq<Increment>, stat: CountStat, g: Subgroup, t: int): int {
    if incs == [] then 0
    else
      var i := incs[|incs| - 1];
      SubgroupIncrements(incs[..|incs| - 1], stat, g, t)
      + if i.stat == stat && i.slot.subgroup == g && i.EndTime() == t then i.amount else 0
  }

  lemma {:induction false} IncrementRowSubgroup(table: seq<Row>, stat: CountStat, slot: Slot, t: int, amount: int,
      g: Subgroup, u: int)
    ensures SubgroupSum(At(IncrementRow(table, stat, slot, t, amount), stat, u), g)
      == SubgroupSum(At(table, stat, u), g) + if u == t && g == slot.subgroup then amount else 0
  {
    if table != [] {
      IncrementRowSubgroup(table[1..], stat, slot, t, amount, g, u);
    }
  }

  lemma {:induction false} LoggedSubgroupSum(incs: seq<Increment>, stat: CountStat, g: Subgroup, t: int)
    ensures SubgroupSum(At(Logged(incs, stat), stat, t), g) == SubgroupIncrements(incs, stat, g, t)
  {
    if incs != [] {
      var init, i := incs[..|incs| - 1], incs[|incs| - 1];
      LoggedSubgroupSum(init, stat, g, t);
      if i.stat == stat {
        IncrementRowSubgroup(Logged(init, stat), stat, i.slot, i.EndTime(), i.amount, g, t);
      }
    }
  }
}
