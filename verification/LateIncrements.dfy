/** What becomes of increments that arrive after their end_time has been rolled up. */
module LateIncrements {
  import opened TimeGrid
  import opened CountStats
  import opened CountTables
  import opened SourceData
  import opened Queries
  import opened FillMachine
  import opened FillSafety
  import opened FillExactness
  import opened Rollups
  import opened LoggingStats
  import opened Origins

  lemma {:induction false} SubgroupConcat(a: seq<Increment>, b: seq<Increment>, stat: CountStat, g: Subgroup, t: int)
    ensures SubgroupIncrements(a + b, stat, g, t)
      == SubgroupIncrements(a, stat, g, t) + SubgroupIncrements(b, stat, g, t)
    decreases |b|
  {
    if b == [] {
      assert a + b == a;
    } else {
      assert (a + b)[..|a + b| - 1] == a + b[..|b| - 1];
      SubgroupConcat(a, b[..|b| - 1], stat, g, t);
    }
  }

  lemma {:induction false} ArrivedEarlier(es: seq<Event>, i: nat)
    requires i <= |es|
    ensures Arrived(es[..i]) <= Arrived(es)
  {
    if i == |es| {
      assert es[..i] == es;
    } else {
      assert es[..|es| - 1][..i] == es[..i];
      ArrivedEarlier(es[..|es| - 1], i);
    }
  }

  /** The roll-up loses nothing: the stat is collected per realm, or the foreign keys of its rows resolve. */
  ghost predicate RealmsFound(src: Source, stat: CountStat, t: int) {
    stat.Output() == RealmTable
    || (UniqueRealms(src.realms) && Covered(At(Logged(src.increments, stat), stat, t), src.realms))
  }

  /** The rolled up rows hold the sum of the increments that had arrived at the roll-up. */
  lemma RolledUpSum(p: State, r: State, stat: CountStat, t: int, g: Subgroup)
    requires stat.Logging? && RealmsFound(r.src, stat, t)
    ensures SubgroupSum(RowsFrom(p, r, stat, t, InstallationTable), g)
      == SubgroupIncrements(r.src.increments, stat, g, t)
    ensures stat.Output() != RealmTable ==>
      SubgroupSum(RowsFrom(p, r, stat, t, RealmTable), g) == SubgroupIncrements(r.src.increments, stat, g, t)
  {
    hide At, Logged, RealmRollup, InstallationRollup, SubgroupSum, Covered, UniqueRealms;
    var table, base := Logged(r.src.increments, stat), At(Logged(r.src.increments, stat), stat, t);
    RollupsReadAt(r.src.realms, table, stat, t);
    RollupStamped(r.src.realms, table, stat, t);
    LoggedSubgroupSum(r.src.increments, stat, g, t);
    if stat.Output() == RealmTable {
      InstallationRollupSpec(table, stat, t, g);
    } else {
      var realmRows := RealmRollup(r.src.realms, table, stat, t);
      RealmRollupConserves(r.src.realms, table, stat, t, g);
      SelectStamped(realmRows, stat, t, stat, t);
      InstallationRollupSpec(realmRows, stat, t, g);
    }
  }

  /** In every history, with increments late or not, a completed end_time was rolled up by some write of
      it; InstallationCount holds at it the sum of the increments that had arrived by then, and the
      output table the sum of all of them. So the two agree if and only if the increments that
      arrived since then net to 0. */
  lemma InstallationMissesTheLate(src: Source, es: seq<Event>, stat: CountStat, t: int, g: Subgroup) returns (r: nat)
    requires stat.Logging? && EpochFixed(src, es) && OnGrid(t, stat.Frequency())
    requires var s := Reach(src, es);
      stat in s.db.fills && Epoch(s.src) < t <= Completed(s.db.fills[stat], stat)
    ensures IsWrite(src, es, r, stat, t, SummaryPoint(stat))
    ensures var db, rolled, all := Reach(src, es).db, Reach(src, es[..r]).src, Arrived(es);
      && rolled.increments <= all
      && SubgroupSum(At(db.Table(stat.Output()), stat, t), g) == SubgroupIncrements(all, stat, g, t)
      && (RealmsFound(rolled, stat, t) ==>
            SubgroupSum(At(db.installation, stat, t), g) == SubgroupIncrements(rolled.increments, stat, g, t))
      && (RealmsFound(rolled, stat, t) ==>
            (SubgroupSum(At(db.installation, stat, t), g) == SubgroupSum(At(db.Table(stat.Output()), stat, t), g)
             <==> SubgroupIncrements(all[|rolled.increments|..], stat, g, t) == 0))
  {
    hide Reach, At, Logged, OnGrid, Of, SubgroupSum, RowsFrom, RealmsFound;
    var p;
    p, r := FindOrigins(src, es, stat, t);
    var s, pulled, rolled := Reach(src, es), Reach(src, es[..p]), Reach(src, es[..r]);
    assert RowsOk(s, stat, t, pulled, rolled, InstallationTable);
    ReachLogOk(src, es, stat);
    ArrivedIsLog(src, es);
    ArrivedIsLog(src, es[..r]);
    ArrivedEarlier(es, r);
    var seen, all := rolled.src.increments, Arrived(es);
    LoggedSubgroupSum(all, stat, g, t);
    assert stat.Output() !in stat.UndoTables();
    AtOf(s.db.Table(stat.Output()), stat, t);
    assert all == seen + all[|seen|..];
    SubgroupConcat(seen, all[|seen|..], stat, g, t);
    if RealmsFound(rolled.src, stat, t) { RolledUpSum(pulled, rolled, stat, t, g); }
  }
}
