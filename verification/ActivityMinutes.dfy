/** minutes_active: clipped activity is additive, and the reported minutes bound it. */
module ActivityMinutes {
  import opened TimeGrid
  import opened Grouping
  import opened CountStats
  import opened CountTables
  import opened SourceData
  import opened Queries
  import opened FillMachine
  import opened FillRuns
  import opened Rollups
  import opened CrashRecovery
  import opened MessageStats

  function Overlap(x: Interval, start: int, end: int): int { Max(0, Min(end, x.end) - Max(start, x.start)) }

  /** The user's activity within [start, end), over all intervals. */
  function ActiveTime(xs: seq<Interval>, user: int, start: int, end: int): int {
    if xs == [] then 0
    else (if xs[0].user == user then Overlap(xs[0], start, end) else 0) + ActiveTime(xs[1..], user, start, end)
  }

  ghost predicate WellFormed(xs: seq<Interval>) { forall x :: x in xs ==> x.start <= x.end }

  lemma {:induction false} ActiveTimeAdds(xs: seq<Interval>, user: int, a: int, b: int, c: int)
    requires a <= b <= c && WellFormed(xs)
    ensures ActiveTime(xs, user, a, c) == ActiveTime(xs, user, a, b) + ActiveTime(xs, user, b, c)
    ensures ActiveTime(xs, user, a, b) >= 0
  {
    if xs != [] {
      assert xs[0] in xs && forall x :: x in xs[1..] ==> x in xs;
      ActiveTimeAdds(xs[1..], user, a, b, c);
    }
  }

  function OwnSlot(u: User): Slot { Slot(UserKey(u.id, u.realm), Null) }

  ghost predicate Owned(us: seq<User>, s: Slot) { exists v :: v in us && OwnSlot(v) == s }

  lemma {:induction false} JoinOwnerSum(x: Interval, us: seq<User>, u: User, start: int, end: int)
    requires UniqueUsers(us)
    ensures SumFor(JoinOwner(x, us, start, end), OwnSlot(u))
      == if Owned(us, OwnSlot(u)) && x.user == u.id then Min(end, x.end) - Max(start, x.start) else 0
  {
    if us != [] {
      UniqueTail(us);
      JoinOwnerSum(x, us[1..], u, start, end);
      assert Owned(us, OwnSlot(u)) <==> OwnSlot(us[0]) == OwnSlot(u) || Owned(us[1..], OwnSlot(u)) by {
        assert forall v :: v in us <==> v == us[0] || v in us[1..];
      }
      if v :| v in us[1..] && OwnSlot(v) == OwnSlot(u) { TailDiffers(us, v); }
      if us[0].id == x.user {
        var head := Entry(OwnSlot(us[0]), Min(end, x.end) - Max(start, x.start));
        assert JoinOwner(x, us, start, end) == [head] + JoinOwner(x, us[1..], start, end);
        assert JoinOwner(x, us, start, end)[1..] == JoinOwner(x, us[1..], start, end);
      } else {
        assert JoinOwner(x, us, start, end) == JoinOwner(x, us[1..], start, end);
      }
    }
  }

  /** The filtered loop sums max(0, overlap) over all of the user's intervals. */
  lemma {:induction false} ClippedSum(xs: seq<Interval>, us: seq<User>, u: User, start: int, end: int)
    requires UniqueUsers(us) && u in us && WellFormed(xs) && start <= end
    ensures SumFor(ClippedIntervals(xs, us, start, end), OwnSlot(u)) == ActiveTime(xs, u.id, start, end)
  {
    if xs != [] {
      assert xs[0] in xs && forall x :: x in xs[1..] ==> x in xs;
      ClippedSum(xs[1..], us, u, start, end);
      JoinOwnerSum(xs[0], us, u, start, end);
      assert Owned(us, OwnSlot(u));
      var head := if xs[0].end > start && xs[0].start < end then JoinOwner(xs[0], us, start, end) else [];
      SumsConcat(head, ClippedIntervals(xs[1..], us, start, end), OwnSlot(u));
    }
  }

  function Whole(amount: int): int { if amount >= MINUTE then amount / MINUTE else 0 }

  lemma {:induction false} WholeMinutesSum(gs: seq<Entry<Slot>>, s: Slot)
    requires DistinctGroups(gs)
    ensures SumFor(WholeMinutes(gs), s) == Whole(SumFor(gs, s))
  {
    if gs != [] {
      forall i, j | 0 <= i < j < |gs[1..]| ensures gs[1..][i].group != gs[1..][j].group {
        assert gs[1..][i] == gs[i + 1] && gs[1..][j] == gs[j + 1];
      }
      WholeMinutesSum(gs[1..], s);
      if gs[0].group == s {
        forall e | e in gs[1..] ensures e.group != s {
          var j :| 0 <= j < |gs[1..]| && gs[1..][j] == e;
          assert gs[j + 1] == e;
        }
        NoGroupNoSum(gs[1..], s);
      }
    }
  }

  /** The minutes stored for one day, times 60 seconds, are at most the user's activity and short
      of it by less than a minute; a missing row stands for 0. */
  lemma DayMinutes(s: State, u: User, day: int)
    requires DayCompleted(s, MinutesActive, day) && UniqueIds(s.src) && u in s.src.users && WellFormed(s.src.intervals)
    ensures var minutes := SlotSum(At(s.db.user, MinutesActive, day), OwnSlot(u));
      minutes * MINUTE <= ActiveTime(s.src.intervals, u.id, day - DAY, day) < minutes * MINUTE + MINUTE
  {
    hide Exact, At, OnGrid, Stamp, ClippedIntervals, WholeMinutes, GroupSum, SlotSum;
    var src := s.src;
    var es := ClippedIntervals(src.intervals, src.users, day - DAY, day);
    CompletedRows(s, MinutesActive, day, UserTable);
    StampSpec(WholeMinutes(GroupSum(es)), MinutesActive, day);
    EntriesSums(Stamp(WholeMinutes(GroupSum(es)), MinutesActive, day), OwnSlot(u), Null);
    GroupSumSpec(es, OwnSlot(u));
    WholeMinutesSum(GroupSum(es), OwnSlot(u));
    ClippedSum(src.intervals, src.users, u, day - DAY, day);
    ActiveTimeAdds(src.intervals, u.id, day - DAY, day, day);
  }

  function MinutesSum(table: seq<Row>, u: User, day: int, n: nat): int
    decreases n
  {
    if n == 0 then 0
    else MinutesSum(table, u, day - DAY, n - 1) + SlotSum(At(table, MinutesActive, day), OwnSlot(u))
  }

  /** Over n consecutive completed days the reported minutes never exceed the true activity and
      fall short of it by less than n minutes. */
  lemma {:induction false} MinutesBoundActivity(s: State, u: User, start: int, day: int, n: nat)
    requires n > 0 && day == start + n * DAY && Epoch(s.src) <= start
    requires DayCompleted(s, MinutesActive, day) && UniqueIds(s.src) && u in s.src.users && WellFormed(s.src.intervals)
    ensures var reported := MinutesSum(s.db.user, u, day, n) * MINUTE;
      reported <= ActiveTime(s.src.intervals, u.id, start, day) < reported + n * MINUTE
    decreases n
  {
    hide Exact, At, OnGrid, SlotSum, ActiveTime, WellFormed, UniqueIds;
    DayMinutes(s, u, day);
    ActiveTimeAdds(s.src.intervals, u.id, start, day - DAY, day);
    if n == 1 {
      ActiveTimeEmpty(s.src.intervals, u.id, start);
      assert MinutesSum(s.db.user, u, day - DAY, 0) == 0;
    } else {
      GridStep(day, Day);
      MinutesBoundActivity(s, u, start, day - DAY, n - 1);
    }
  }

  lemma {:induction false} ActiveTimeEmpty(xs: seq<Interval>, user: int, t: int)
    requires WellFormed(xs)
    ensures ActiveTime(xs, user, t, t) == 0
  {
    if xs != [] {
      assert xs[0] in xs && forall x :: x in xs[1..] ==> x in xs;
      ActiveTimeEmpty(xs[1..], user, t);
    }
  }
}
