/** Inputs on which the statistics do not meet what their documentation says of them, each with the
    reachable state that shows it. */
module Departures {
  import opened TimeGrid
  import opened CountStats
  import opened CountTables
  import opened SourceData
  import opened Queries
  import opened FillMachine
  import opened FillExactness
  import opened FillRuns
  import opened Rollups
  import opened CrashRecovery
  import opened Replay
  import opened MessageStats
  import opened ActiveUsers
  import opened ActiveUserStats

  /** A message sent on the first day by a mirror dummy who was activated two days later. */
  function ActivatedLater(): Source {
    Source([Realm(1, 0)], [User(1, 1, 3 * DAY, false)], [], [Recipient(1, PERSONAL, 1)], [Message(1, 1, 1, HOUR)],
      [], [], [])
  }

  lemma EpochIsZero(src: Source)
    requires src.realms == [Realm(1, 0)]
    ensures Epoch(src) == 0
  {
  }

  lemma DaysAreCompleted(src: Source, es: seq<Event>, stat: CountStat, day: int)
    requires Stable(src, es, stat) && OnGrid(day, Day) && Epoch(Reach(src, es).src) < day
    requires stat in Reach(src, es).db.fills && Reach(src, es).db.fills[stat] == FillState(day, Done)
    ensures DayCompleted(Reach(src, es), stat, day)
  {
    hide Reach, Stable, Exact, OnGrid;
    ReachIsExact(src, es, stat);
  }

  /** Filled after the activation, the first day has the message in its per-type counts alone. */
  lemma MovedJoinDateDisagrees() returns (src: Source, es: seq<Event>)
    ensures var s, u := Reach(src, es), User(1, 1, 3 * DAY, false);
      && Uninterrupted(src, es) && s.src == src == ActivatedLater()
      && DayCompleted(s, MessagesSentByIsBot, DAY) && DayCompleted(s, MessagesSentByClient, DAY)
      && DayCompleted(s, MessagesSentByType, DAY)
      && HourlySum(s.db.user, u.id, DAY, 24) == 0
      && RowSum(At(s.db.user, MessagesSentByClient, DAY), OfUser(u.id)) == 0
      && RowSum(At(s.db.user, MessagesSentByType, DAY), OfUser(u.id)) == 1
  {
    hide Reach, Stable, Uninterrupted, At, HourlySum, RowSum, DayCompleted, Exact;
    src := ActivatedLater();
    EpochIsZero(src);
    es := FillAll(src, [], [MessagesSentByIsBot, MessagesSentByClient, MessagesSentByType], DAY);
    var s, u := Reach(src, es), src.users[0];
    DaysAreCompleted(src, es, MessagesSentByIsBot, DAY);
    DaysAreCompleted(src, es, MessagesSentByClient, DAY);
    DaysAreCompleted(src, es, MessagesSentByType, DAY);
    HourlyDayCount(s, u, DAY);
    ClientDayCount(s, u, DAY);
    TypeDayCount(s, u, DAY);
    OnceJoinedExactlyWhen(src, u, DAY);
    JoinedExactlyWhen(src, u, DAY);
    assert src.messages[1..] == [];
    assert SentBy(1, 0, DAY)(src.messages[0]);
  }

  /** A realm whose internal bot bulk_create_users made: audited, and not logged. */
  function WithInternalBot(): Source {
    Source([Realm(1, 0)], [User(1, 1, HOUR, true)], [], [], [], [AuditEvent(Some(1), 1, UserCreated, HOUR)], [], [])
  }

  lemma InternalBotIsNotLogged() returns (src: Source, es: seq<Event>)
    ensures var s := Reach(src, es);
      && Uninterrupted(src, es) && s.src == src == WithInternalBot()
      && DayCompleted(s, ActiveUsersAudit, DAY)
      && PartialSum(s, 1, true, DAY) == 0 && AuditValue(s, 1, true, DAY) == 1
  {
    hide Reach, Stable, Uninterrupted, At, Of, DayCompleted, Exact, SlotSum, UpTo;
    src := WithInternalBot();
    EpochIsZero(src);
    es := FillAll(src, [], [ActiveUsersAudit], DAY);
    var s, e := Reach(src, es), src.audit[0];
    DaysAreCompleted(src, es, ActiveUsersAudit, DAY);
    LoggedSum(src, es, 1, true);
    assert e in src.audit && src.audit[1..] == [] && src.users[1..] == [];
    assert Concerns(e, 1) && LastEventTime([], 1, DAY) == None;
    AuditRealmCount(s, src.realms[0], true, DAY);
    assert LastBefore(src.audit, e, 1, DAY);
    assert ActiveIn(src, 1, true, DAY)(src.users[0]);
  }

  lemma LoggedSum(src: Source, es: seq<Event>, realm: int, isBot: bool)
    requires Stable(src, es, ACTIVE_USERS_LOG)
    ensures var incs := Reach(src, es).src.increments;
      PartialSum(Reach(src, es), realm, isBot, DAY) == AmountWhere(OfLog(incs), LogSlot(realm, isBot), NotAfter(DAY))
  {
    hide Reach, Stable, Of, UpTo, SlotSum, AmountWhere, OfLog;
    var s := Reach(src, es);
    StableFixesEpoch(src, es, ACTIVE_USERS_LOG);
    ReachLogOk(src, es, ACTIVE_USERS_LOG);
    assert RealmTable !in ACTIVE_USERS_LOG.UndoTables();
    assert Of(s.db.Table(RealmTable), ACTIVE_USERS_LOG) == Logged(s.src.increments, ACTIVE_USERS_LOG);
    LoggedUpTo(s.src.increments, LogSlot(realm, isBot), DAY);
  }

  /** An account created and then, while active, reactivated: both are logged, and audited. */
  function Reactivations(): seq<Increment> {
    var slot := Slot(RealmKey(1), Text("False"));
    [Increment(ACTIVE_USERS_LOG, slot, HOUR, 1), Increment(ACTIVE_USERS_LOG, slot, 2 * HOUR, 1)]
  }

  function ReactivatedWhileActive(): Source {
    var audit := [AuditEvent(Some(1), 1, UserCreated, HOUR), AuditEvent(Some(1), 1, UserReactivated, 2 * HOUR)];
    Source([Realm(1, 0)], [User(1, 1, HOUR, false)], [], [], [], audit, [], Reactivations())
  }

  lemma ReactivationIsLoggedTwice() returns (src: Source, es: seq<Event>)
    ensures var s := Reach(src, es);
      && Uninterrupted(src, es) && s.src == src == ReactivatedWhileActive()
      && DayCompleted(s, ActiveUsersAudit, DAY)
      && PartialSum(s, 1, false, DAY) == 2 && AuditValue(s, 1, false, DAY) == 1
  {
    hide Reach, Stable, Uninterrupted, At, Of, DayCompleted, Exact, SlotSum, UpTo;
    src := ReactivatedWhileActive();
    EpochIsZero(src);
    es := FillAll(src, Reactivations(), [ActiveUsersAudit], DAY);
    var s, e := Reach(src, es), src.audit[1];
    assert src.(increments := Reactivations()) == src;
    DaysAreCompleted(src, es, ActiveUsersAudit, DAY);
    LoggedSum(src, es, 1, false);
    var incs := Reactivations();
    assert incs[1..] == [incs[1]] && incs[1..][1..] == [];
    assert OfLog(incs) == incs by { assert OfLog(incs[1..]) == incs[1..]; }
    assert src.audit == [src.audit[0], e] && src.users[1..] == [];
    AuditRealmCount(s, src.realms[0], false, DAY);
    assert LastBefore(src.audit, e, 1, DAY);
    assert ActiveIn(src, 1, false, DAY)(src.users[0]);
  }
}
