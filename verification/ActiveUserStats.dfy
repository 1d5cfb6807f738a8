/** realm_active_humans, and the audit stat against the log stat, in every reachable state. */
module ActiveUserStats {
  import opened TimeGrid
  import opened Grouping
  import opened CountStats
  import opened CountTables
  import opened SourceData
  import opened Queries
  import opened FillMachine
  import opened FillSpec
  import opened FillExactness
  import opened FillRuns
  import opened Rollups
  import opened CrashRecovery
  import opened MessageStats
  import opened ActiveUsers

  // ----- realm_active_humans

  lemma HumansBase(src: Source, t: int)
    ensures BaseRows(RealmActiveHumans, src, t)
      == Stamp(GroupSum(JoinHumans(Pull(ActiveUsersAudit, src, [], t - DAY, t),
        Pull(FifteenDayActives, src, [], t - FifteenDayActives.Interval(), t))), RealmActiveHumans, t)
  {
    hide Stamp, JoinHumans, At, DependencyRows, Pull;
    DependencyRowsRead(src, t);
    assert ActiveUsersAudit in RealmActiveHumans.Dependencies()
      && FifteenDayActives in RealmActiveHumans.Dependencies();
    HumansPull(src, DependencyRows(RealmActiveHumans, src, t), t - DAY, t);
  }

  lemma HumansPull(src: Source, table: seq<Row>, start: int, end: int)
    ensures Pull(RealmActiveHumans, src, table, start, end)
      == Stamp(GroupSum(JoinHumans(At(table, ActiveUsersAudit, end), At(table, FifteenDayActives, end))),
        RealmActiveHumans, end)
  {
  }

  /** The value of realm_active_humans at a completed day is the number of users who are active
      humans of the realm and were active in the last fifteen days: each once, and so never more
      than the realm's active humans. There is one row at most, and none exactly when the number is 0. */
  lemma ActiveHumansCount(s: State, realm: int, t: int)
    requires DayCompleted(s, RealmActiveHumans, t)
    requires UniqueIds(s.src) && DistinctTimes(s.src.audit) && AuditRealmsMatch(s.src)
    ensures var rows, slot := At(s.db.realm, RealmActiveHumans, t), Slot(RealmKey(realm), Null);
      var both := ActiveHumanIds(s.src, realm, t) * RecentIds(s.src, t);
      && SlotSum(rows, slot) == |both| <= |ActiveHumanIds(s.src, realm, t)|
      && UniqueRows(rows)
      && ((exists r :: r in rows && Slot(r.key, r.subgroup) == slot) <==> both != {})
  {
    hide At, Stamp, JoinHumans, Pull, Exact, Ids, ActiveHuman, RecentlyActive, BaseRows, SumWhere, SlotSum, UniqueRows;
    var src, slot := s.src, Slot(RealmKey(realm), Null);
    var es := JoinHumans(Pull(ActiveUsersAudit, src, [], t - DAY, t),
      Pull(FifteenDayActives, src, [], t - FifteenDayActives.Interval(), t));
    CompletedRows(s, RealmActiveHumans, t, RealmTable);
    HumansBase(src, t);
    GroupedRows(es, RealmActiveHumans, t, slot);
    HumansQueryCounts(src, realm, t);
    SumForIsWhere(es, slot);
    JoinHumansPositive(Pull(ActiveUsersAudit, src, [], t - DAY, t),
      Pull(FifteenDayActives, src, [], t - FifteenDayActives.Interval(), t));
    PositiveGroups(es, slot);
    SubsetCardinality(ActiveHumanIds(src, realm, t) * RecentIds(src, t), ActiveHumanIds(src, realm, t));
  }

  lemma SubsetCardinality(a: set<int>, b: set<int>)
    requires a <= b
    ensures |a| <= |b|
  {
    assert b == a + (b - a);
  }

  lemma {:induction false} SumForIsWhere(es: seq<Entry<Slot>>, slot: Slot)
    ensures SumFor(es, slot) == SumWhere(es, Exactly(slot))
  {
    if es != [] { SumForIsWhere(es[1..], slot); }
  }

  lemma {:induction false} JoinActivesPositive(a: Row, actives: seq<Row>)
    ensures forall e :: e in JoinActives(a, actives) ==> e.amount == 1
  {
    if actives != [] { JoinActivesPositive(a, actives[1..]); }
  }

  lemma {:induction false} JoinHumansPositive(audits: seq<Row>, actives: seq<Row>)
    ensures forall e :: e in JoinHumans(audits, actives) ==> e.amount == 1
  {
    if audits != [] {
      JoinHumansPositive(audits[1..], actives);
      JoinActivesPositive(audits[0], actives);
    }
  }

  lemma {:induction false} PositiveGroups(es: seq<Entry<Slot>>, slot: Slot)
    requires forall e :: e in es ==> e.amount == 1
    ensures SumFor(es, slot) >= 0
    ensures HasGroup(es, slot) <==> SumFor(es, slot) > 0
  {
    if es != [] {
      assert es[0] in es && forall e :: e in es[1..] ==> e in es;
      PositiveGroups(es[1..], slot);
      assert forall e :: e in es <==> e == es[0] || e in es[1..];
    }
  }

  /** Active in the fifteen days before t, a quarter of an hour less, as the declared interval has it. */
  ghost predicate ActiveLately(xs: seq<Interval>, user: int, t: int) {
    exists x :: x in xs && x.user == user && t - 15 * DAY + 15 * MINUTE <= x.end && x.start < t
  }

  lemma HumansAre(src: Source, realm: int, t: int)
    ensures ActiveHumanIds(src, realm, t)
      == set u | u in src.users && u.realm == realm && !u.isBot && LeftOn(src.audit, u.id, t) :: u.id
    ensures RecentIds(src, t) == set u | u in src.users && ActiveLately(src.intervals, u.id, t) :: u.id
  {
    hide ActiveAt, LeftOn;
    forall u: User ensures ActiveAt(src.audit, u.id, t) == LeftOn(src.audit, u.id, t) {
      LeftOnIsActive(src.audit, u.id, t);
    }
    var start := t - FifteenDayActives.Interval();
    forall u: User ensures RecentlyActive(src.intervals, start, t)(u) == ActiveLately(src.intervals, u.id, t) {}
  }

  /** realm_active_humans spelled out: the users of the realm who are no bots, whose account was last
      turned on, and who were active lately, each once. */
  lemma ActiveHumansSpelledOut(s: State, realm: int, t: int)
    requires DayCompleted(s, RealmActiveHumans, t)
    requires UniqueIds(s.src) && DistinctTimes(s.src.audit) && AuditRealmsMatch(s.src)
    ensures SlotSum(At(s.db.realm, RealmActiveHumans, t), Slot(RealmKey(realm), Null))
      == |set u | u in s.src.users && u.realm == realm && !u.isBot && LeftOn(s.src.audit, u.id, t)
                  && ActiveLately(s.src.intervals, u.id, t) :: u.id|
  {
    hide DayCompleted, DistinctTimes, AuditRealmsMatch, SlotSum, At, LeftOn, ActiveLately, ActiveHumanIds, RecentIds;
    var users := s.src.users;
    ActiveHumansCount(s, realm, t);
    HumansAre(s.src, realm, t);
    var humans := set u | u in users && u.realm == realm && !u.isBot && LeftOn(s.src.audit, u.id, t) :: u.id;
    var lately := set u | u in users && ActiveLately(s.src.intervals, u.id, t) :: u.id;
    var both := set u | u in users && u.realm == realm && !u.isBot && LeftOn(s.src.audit, u.id, t)
                        && ActiveLately(s.src.intervals, u.id, t) :: u.id;
    forall id | id in humans * lately ensures id in both {
      var u :| u in users && u.realm == realm && !u.isBot && LeftOn(s.src.audit, u.id, t) && u.id == id;
      var v :| v in users && ActiveLately(s.src.intervals, v.id, t) && v.id == id;
      SameUser(users, u, v);
    }
    assert humans * lately == both;
  }

  /** Somebody whose account was last deactivated is in no realm's active humans. */
  lemma DeactivatedIsNoHuman(src: Source, u: User, realm: int, t: int)
    requires UniqueIds(src) && DistinctTimes(src.audit) && u in src.users && LeftOff(src.audit, u.id, t)
    ensures u.id !in ActiveHumanIds(src, realm, t)
  {
    hide LeftOff, LeftOn, DistinctTimes, ActiveHumanIds, RecentIds;
    HumansAre(src, realm, t);
    LeftOffIsNotOn(src.audit, u.id, t);
  }

  lemma {:induction false} OnesWhere(es: seq<Entry<Slot>>, p: Slot -> bool)
    requires forall e :: e in es ==> e.amount == 1
    ensures SumWhere(es, p) >= 0
    ensures SumWhere(es, p) > 0 <==> exists e :: e in es && p(e.group)
  {
    if es != [] {
      assert es[0] in es && forall e :: e in es <==> e == es[0] || e in es[1..];
      OnesWhere(es[1..], p);
    }
  }

  /** active_users_audit spelled out: at a completed day a user has a row if and only if the account was
      last turned on before it, and then it is the one row with value 1 under the user's realm and kind. */
  lemma AuditRowExactlyWhen(s: State, u: User, day: int)
    requires DayCompleted(s, ActiveUsersAudit, day) && u in s.src.users
    requires UniqueIds(s.src) && DistinctTimes(s.src.audit) && AuditRealmsMatch(s.src)
    ensures var rows := At(s.db.user, ActiveUsersAudit, day);
      && ((exists r :: r in rows && r.key.UserKey? && r.key.user == u.id) <==> LeftOn(s.src.audit, u.id, day))
      && (LeftOn(s.src.audit, u.id, day) ==>
            Row(UserKey(u.id, u.realm), ActiveUsersAudit, Text(if u.isBot then "true" else "false"), day, 1) in rows)
  {
    hide Exact, At, Stamp, JoinLastEvents, LeftOn, ActiveAt, SumWhere, OnGrid, DistinctTimes, AuditRealmsMatch;
    var src, slot := s.src, AuditSlot(u, u.realm);
    var es := JoinLastEvents(src.audit, src.audit, src.users, day);
    var rows := Stamp(es, ActiveUsersAudit, day);
    CompletedRows(s, ActiveUsersAudit, day, UserTable);
    StampSpec(es, ActiveUsersAudit, day);
    JoinLastEventsOnes(src.audit, src.audit, src.users, day);
    OnesWhere(es, OfUser(u.id));
    OnesWhere(es, Exactly(slot));
    AuditCountsActives(src, day, OfUser(u.id));
    AuditCountsActives(src, day, Exactly(slot));
    LeftOnIsActive(src.audit, u.id, day);
    OneUserCounted(src, u, day, OfUser(u.id));
    OneUserCounted(src, u, day, Exactly(slot));
    forall i | 0 <= i < |es| ensures es[i] in es && rows[i] in rows {}
    if e :| e in es && e.group == slot {
      var i :| 0 <= i < |es| && es[i] == e;
      assert rows[i].key == UserKey(u.id, u.realm) && rows[i].subgroup == Text(if u.isBot then "true" else "false");
    }
    if r :| r in rows && r.key.UserKey? && r.key.user == u.id {
      var i :| 0 <= i < |rows| && rows[i] == r;
      assert OfUser(u.id)(es[i].group);
    }
  }

  lemma OneUserCounted(src: Source, u: User, t: int, p: Slot -> bool)
    requires UniqueIds(src) && u in src.users && p(AuditSlot(u, u.realm))
    requires forall s: Slot :: p(s) ==> s.key.UserKey? && s.key.user == u.id
    ensures CountUsers(src.users, ActiveWith(src, t, p)) > 0 <==> ActiveAt(src.audit, u.id, t)
  {
    hide ActiveAt, CountUsers;
    var q := ActiveWith(src, t, p);
    CountIsCardinality(src.users, q);
    if ActiveAt(src.audit, u.id, t) {
      assert u.id in Ids(src.users, q);
    } else {
      forall v | v in src.users ensures !q(v) {
        var slot := AuditSlot(v, v.realm);
        assert p(slot) ==> slot.key.user == u.id;
      }
      assert Ids(src.users, q) == {};
    }
  }

  // ----- net activations

  function Sign(e: AuditEvent): int { if e.eventType.Activates() then 1 else -1 }

  /** Activations less deactivations of the user, over the events whose time satisfies p. */
  function Net(es: seq<AuditEvent>, user: int, p: int -> bool): int {
    if es == [] then 0
    else (if Concerns(es[0], user) && p(es[0].eventTime) then Sign(es[0]) else 0) + Net(es[1..], user, p)
  }

  function Before(t: int): int -> bool { (x: int) => x < t }
  function NotAfter(t: int): int -> bool { (x: int) => x <= t }
  function On(t: int): int -> bool { (x: int) => x == t }

  lemma {:induction false} NetSplit(es: seq<AuditEvent>, user: int, c: int -> bool, a: int -> bool, b: int -> bool)
    requires forall e :: e in es && Concerns(e, user) ==>
      c(e.eventTime) == (a(e.eventTime) || b(e.eventTime)) && !(a(e.eventTime) && b(e.eventTime))
    ensures Net(es, user, c) == Net(es, user, a) + Net(es, user, b)
  {
    if es != [] {
      assert es[0] in es && forall e :: e in es[1..] ==> e in es;
      NetSplit(es[1..], user, c, a, b);
    }
  }

  lemma {:induction false} NetNone(es: seq<AuditEvent>, user: int, p: int -> bool)
    requires forall e :: e in es && Concerns(e, user) ==> !p(e.eventTime)
    ensures Net(es, user, p) == 0
  {
    if es != [] {
      assert es[0] in es && forall e :: e in es[1..] ==> e in es;
      NetNone(es[1..], user, p);
    }
  }

  /** With distinct times, one event makes up the net of its instant. */
  lemma {:induction false} NetOfOne(audit: seq<AuditEvent>, n: nat, es: seq<AuditEvent>, e: AuditEvent, user: int)
    requires DistinctTimes(audit) && n <= |audit| && es == audit[n..]
    requires e in es && Concerns(e, user)
    ensures Net(es, user, On(e.eventTime)) == Sign(e)
    decreases |es|
  {
    var rest := es[1..];
    assert es[0] == audit[n] && rest == audit[n + 1..];
    if es[0] == e {
      forall f | f in rest && Concerns(f, user) ensures f.eventTime != e.eventTime {
        var j :| 0 <= j < |rest| && rest[j] == f;
        assert audit[n + 1 + j] == f && Concerns(audit[n], user) && Concerns(audit[n + 1 + j], user);
      }
      NetNone(rest, user, On(e.eventTime));
    } else {
      assert e in rest;
      var j :| 0 <= j < |rest| && rest[j] == e;
      assert audit[n + 1 + j] == e && Concerns(audit[n + 1 + j], user);
      assert Concerns(audit[n], user) ==> audit[n].eventTime != e.eventTime;
      NetOfOne(audit, n + 1, rest, e, user);
    }
  }

  function EventsBefore(es: seq<AuditEvent>, user: int, t: int): nat {
    if es == [] then 0
    else (if Concerns(es[0], user) && es[0].eventTime < t then 1 else 0) + EventsBefore(es[1..], user, t)
  }

  lemma {:induction false} FewerEvents(es: seq<AuditEvent>, user: int, t: int, u: int)
    requires t <= u
    ensures EventsBefore(es, user, t) <= EventsBefore(es, user, u)
    ensures (exists e :: e in es && Concerns(e, user) && t <= e.eventTime < u) ==>
      EventsBefore(es, user, t) < EventsBefore(es, user, u)
  {
    if es != [] {
      FewerEvents(es[1..], user, t, u);
      assert forall e :: e in es <==> e == es[0] || e in es[1..];
    }
  }

  /** The events, of all users, that keep describes. */
  function Where(es: seq<AuditEvent>, keep: AuditEvent -> bool): seq<AuditEvent> {
    if es == [] then []
    else if keep(es[0]) then [es[0]] + Where(es[1..], keep)
    else Where(es[1..], keep)
  }

  function Not(keep: AuditEvent -> bool): AuditEvent -> bool { (e: AuditEvent) => !keep(e) }

  lemma {:induction false} WhereMembers(es: seq<AuditEvent>, keep: AuditEvent -> bool)
    ensures forall e :: e in Where(es, keep) <==> e in es && keep(e)
  {
    if es != [] {
      WhereMembers(es[1..], keep);
      assert forall e :: e in es <==> e == es[0] || e in es[1..];
    }
  }

  lemma {:induction false} NetOfParts(es: seq<AuditEvent>, user: int, p: int -> bool, keep: AuditEvent -> bool)
    ensures Net(es, user, p) == Net(Where(es, keep), user, p) + Net(Where(es, Not(keep)), user, p)
  {
    if es != [] { NetOfParts(es[1..], user, p, keep); }
  }

  /** The event leaves the account as it was: it activates an active account, which do_reactivate_user
      does not refuse, or deactivates an inactive one. */
  ghost function Redundant(audit: seq<AuditEvent>): AuditEvent -> bool {
    (e: AuditEvent) =>
      e.modifiedUser.Some? && (e.eventType.Activates() <==> ActiveAt(audit, e.modifiedUser.value, e.eventTime))
  }

  lemma SameInstant(audit: seq<AuditEvent>, e: AuditEvent, f: AuditEvent, user: int)
    requires DistinctTimes(audit) && e in audit && f in audit && Concerns(e, user) && Concerns(f, user)
    requires e.eventTime == f.eventTime
    ensures e == f
  {
    var i :| 0 <= i < |audit| && audit[i] == e;
    var j :| 0 <= j < |audit| && audit[j] == f;
    assert Concerns(audit[i], user) && Concerns(audit[j], user);
  }

  /** Of the events of one instant, the one there is counts if it is kept. */
  lemma NetOfInstant(audit: seq<AuditEvent>, keep: AuditEvent -> bool, e: AuditEvent, user: int)
    requires DistinctTimes(audit) && e in audit && Concerns(e, user)
    ensures Net(Where(audit, keep), user, On(e.eventTime)) == if keep(e) then Sign(e) else 0
  {
    hide Where, Net, DistinctTimes;
    NetOfOne(audit, 0, audit, e, user);
    NetOfParts(audit, user, On(e.eventTime), keep);
    WhereMembers(audit, keep);
    WhereMembers(audit, Not(keep));
    var without := Where(audit, if keep(e) then Not(keep) else keep);
    forall f | f in without && Concerns(f, user) ensures f.eventTime != e.eventTime {
      if f.eventTime == e.eventTime { SameInstant(audit, e, f, user); }
    }
    NetNone(without, user, On(e.eventTime));
  }

  /** Whatever the history, the net of the events that are not redundant is 1 while the user is active
      and 0 otherwise. */
  lemma {:induction false} NetIsActive(audit: seq<AuditEvent>, user: int, t: int)
    requires DistinctTimes(audit)
    ensures Net(Where(audit, Not(Redundant(audit))), user, Before(t)) == if ActiveAt(audit, user, t) then 1 else 0
    decreases EventsBefore(audit, user, t)
  {
    hide Where, Net, DistinctTimes;
    var keep := Not(Redundant(audit));
    var effective := Where(audit, keep);
    var last := LastEventTime(audit, user, t);
    LastEventTimeSpec(audit, user, t);
    WhereMembers(audit, keep);
    if last.None? {
      NetNone(effective, user, Before(t));
    } else {
      var e :| e in audit && Concerns(e, user) && e.eventTime == last.value;
      FewerEvents(audit, user, last.value, t);
      NetIsActive(audit, user, last.value);
      NetSplit(effective, user, Before(t), Before(last.value), On(last.value));
      NetOfInstant(audit, keep, e, user);
      assert LastBefore(audit, e, user, t);
      if ActiveAt(audit, user, t) {
        var f :| LastBefore(audit, f, user, t) && f.eventType.Activates();
        SameInstant(audit, e, f, user);
      }
    }
  }

  // ----- the log stat mirrors the audit log

  /** str() of a Python bool, which is how the increments name the subgroup. */
  function LoggedLabel(isBot: bool): Subgroup { if isBot then Text("True") else Text("False") }

  /** The increment that each relevant audit event goes with (zerver/lib/actions.py). */
  function Mirror(e: AuditEvent, us: seq<User>): seq<Increment> {
    if us == [] then []
    else
      (if Concerns(e, us[0].id) then [Increment(ACTIVE_USERS_LOG,
        Slot(RealmKey(us[0].realm), LoggedLabel(us[0].isBot)), e.eventTime, Sign(e))] else [])
      + Mirror(e, us[1..])
  }

  function Mirrors(es: seq<AuditEvent>, us: seq<User>): seq<Increment> {
    if es == [] then [] else Mirror(es[0], us) + Mirrors(es[1..], us)
  }

  function OfLog(incs: seq<Increment>): seq<Increment> {
    if incs == [] then []
    else if incs[0].stat == ACTIVE_USERS_LOG then [incs[0]] + OfLog(incs[1..])
    else OfLog(incs[1..])
  }

  /** The log stat was incremented exactly once for each relevant event that logged describes, in
      some order. bulk_create_users writes audit rows without an increment, for the internal bots of
      every new realm among others (zerver/lib/bulk_create.py), so not every event is logged. */
  ghost predicate LogMirrors(src: Source, logged: AuditEvent -> bool) {
    multiset(OfLog(src.increments)) == multiset(Mirrors(Where(src.audit, logged), src.users))
  }

  function AmountWhere(incs: seq<Increment>, slot: Slot, p: int -> bool): int {
    if incs == [] then 0
    else (if incs[0].slot == slot && p(incs[0].eventTime) then incs[0].amount else 0) + AmountWhere(incs[1..], slot, p)
  }

  lemma {:induction false} AmountConcat(a: seq<Increment>, b: seq<Increment>, slot: Slot, p: int -> bool)
    ensures AmountWhere(a + b, slot, p) == AmountWhere(a, slot, p) + AmountWhere(b, slot, p)
  {
    if a == [] {
      assert a + b == b;
    } else {
      assert (a + b)[1..] == a[1..] + b;
      AmountConcat(a[1..], b, slot, p);
    }
  }

  lemma TakeOut(a: seq<Increment>, b: seq<Increment>, j: nat)
    requires multiset(a) == multiset(b) && a != [] && j < |b| && a[0] == b[j]
    ensures multiset(a[1..]) == multiset(b[..j] + b[j + 1..])
  {
    var x := a[0];
    assert a == [x] + a[1..];
    assert b == b[..j] + [x] + b[j + 1..];
    assert multiset(a) == multiset{x} + multiset(a[1..]);
    assert multiset(b) == multiset(b[..j]) + multiset{x} + multiset(b[j + 1..]);
    assert multiset(b[..j] + b[j + 1..]) == multiset(b[..j]) + multiset(b[j + 1..]);
    assert multiset(a[1..]) == multiset(a) - multiset{x};
  }

  /** The sum does not depend on the order of arrival. */
  lemma {:induction false} AmountOfBag(a: seq<Increment>, b: seq<Increment>, slot: Slot, p: int -> bool)
    requires multiset(a) == multiset(b)
    ensures AmountWhere(a, slot, p) == AmountWhere(b, slot, p)
  {
    if a == [] {
      assert |b| == |multiset(b)| == |multiset(a)| == 0;
    } else {
      assert a[0] in multiset(b);
      var j :| 0 <= j < |b| && b[j] == a[0];
      var rest := b[..j] + b[j + 1..];
      assert b == b[..j] + ([b[j]] + b[j + 1..]);
      TakeOut(a, b, j);
      AmountOfBag(a[1..], rest, slot, p);
      AmountConcat(b[..j], b[j + 1..], slot, p);
      AmountConcat(b[..j], [b[j]] + b[j + 1..], slot, p);
    }
  }

  /** Net activations of the realm's bots, or humans. */
  function RealmNet(us: seq<User>, audit: seq<AuditEvent>, realm: int, isBot: bool, p: int -> bool): int {
    if us == [] then 0
    else
      (if us[0].realm == realm && us[0].isBot == isBot then Net(audit, us[0].id, p) else 0)
      + RealmNet(us[1..], audit, realm, isBot, p)
  }

  function LogSlot(realm: int, isBot: bool): Slot { Slot(RealmKey(realm), LoggedLabel(isBot)) }

  lemma LogSlotInjective(realm: int, isBot: bool, realm': int, isBot': bool)
    ensures LogSlot(realm, isBot) == LogSlot(realm', isBot') <==> realm == realm' && isBot == isBot'
  {
    assert LoggedLabel(true).text[0] != LoggedLabel(false).text[0];
  }

  lemma {:induction false} RealmNetCons(us: seq<User>, es: seq<AuditEvent>, realm: int, isBot: bool, p: int -> bool)
    requires es != []
    ensures RealmNet(us, es, realm, isBot, p)
      == AmountWhere(Mirror(es[0], us), LogSlot(realm, isBot), p) + RealmNet(us, es[1..], realm, isBot, p)
  {
    if us != [] {
      RealmNetCons(us[1..], es, realm, isBot, p);
      var head := if Concerns(es[0], us[0].id) then
        [Increment(ACTIVE_USERS_LOG, LogSlot(us[0].realm, us[0].isBot), es[0].eventTime, Sign(es[0]))] else [];
      AmountConcat(head, Mirror(es[0], us[1..]), LogSlot(realm, isBot), p);
      LogSlotInjective(us[0].realm, us[0].isBot, realm, isBot);
      assert head != [] ==> head[1..] == [];
    }
  }

  lemma {:induction false} RealmNetEmpty(us: seq<User>, realm: int, isBot: bool, p: int -> bool)
    ensures RealmNet(us, [], realm, isBot, p) == 0
  {
    if us != [] { RealmNetEmpty(us[1..], realm, isBot, p); }
  }

  lemma {:induction false} MirrorsAreNet(es: seq<AuditEvent>, us: seq<User>, realm: int, isBot: bool, p: int -> bool)
    ensures AmountWhere(Mirrors(es, us), LogSlot(realm, isBot), p) == RealmNet(us, es, realm, isBot, p)
  {
    if es == [] {
      RealmNetEmpty(us, realm, isBot, p);
    } else {
      MirrorsAreNet(es[1..], us, realm, isBot, p);
      AmountConcat(Mirror(es[0], us), Mirrors(es[1..], us), LogSlot(realm, isBot), p);
      RealmNetCons(us, es, realm, isBot, p);
    }
  }

  lemma {:induction false} RealmNetSplit(us: seq<User>, audit: seq<AuditEvent>, realm: int, isBot: bool, t: int)
    ensures RealmNet(us, audit, realm, isBot, NotAfter(t))
      == RealmNet(us, audit, realm, isBot, Before(t)) + RealmNet(us, audit, realm, isBot, On(t))
  {
    if us != [] {
      RealmNetSplit(us[1..], audit, realm, isBot, t);
      NetSplit(audit, us[0].id, NotAfter(t), Before(t), On(t));
    }
  }

  ghost function ActiveIn(src: Source, realm: int, isBot: bool, t: int): User -> bool {
    (u: User) => u.realm == realm && u.isBot == isBot && ActiveAt(src.audit, u.id, t)
  }

  lemma {:induction false} RealmNetCountsActives(us: seq<User>, src: Source, realm: int, isBot: bool, t: int)
    requires DistinctTimes(src.audit)
    ensures RealmNet(us, Where(src.audit, Not(Redundant(src.audit))), realm, isBot, Before(t))
      == CountUsers(us, ActiveIn(src, realm, isBot, t))
  {
    if us != [] {
      RealmNetCountsActives(us[1..], src, realm, isBot, t);
      NetIsActive(src.audit, us[0].id, t);
    }
  }

  // ----- the partial sums of the log stat

  lemma {:induction false} IncrementRowUpTo(table: seq<Row>, stat: CountStat, slot: Slot, t: int, amount: int,
      q: Slot, u: int)
    ensures SlotSum(UpTo(IncrementRow(table, stat, slot, t, amount), u), q)
      == SlotSum(UpTo(table, u), q) + if t <= u && q == slot then amount else 0
  {
    if table != [] {
      IncrementRowUpTo(table[1..], stat, slot, t, amount, q, u);
    }
  }

  lemma {:induction false} OfLogConcat(a: seq<Increment>, b: seq<Increment>)
    ensures OfLog(a + b) == OfLog(a) + OfLog(b)
  {
    if a == [] {
      assert a + b == b;
    } else {
      assert (a + b)[1..] == a[1..] + b;
      OfLogConcat(a[1..], b);
    }
  }

  lemma {:induction false} LoggedUpTo(incs: seq<Increment>, slot: Slot, t: int)
    requires OnGrid(t, Day)
    ensures SlotSum(UpTo(Logged(incs, ACTIVE_USERS_LOG), t), slot) == AmountWhere(OfLog(incs), slot, NotAfter(t))
  {
    hide OnGrid;
    if incs != [] {
      var init, i := incs[..|incs| - 1], incs[|incs| - 1];
      LoggedUpTo(init, slot, t);
      assert incs == init + [i];
      OfLogConcat(init, [i]);
      assert OfLog([i]) == if i.stat == ACTIVE_USERS_LOG then [i] else [] by { assert [i][1..] == []; }
      AmountConcat(OfLog(init), OfLog([i]), slot, NotAfter(t));
      if i.stat == ACTIVE_USERS_LOG {
        IncrementRowUpTo(Logged(init, ACTIVE_USERS_LOG), ACTIVE_USERS_LOG, i.slot, i.EndTime(), i.amount, slot, t);
        FloorAndCeilingAreTight(i.eventTime, t, Day);
        assert [i][1..] == [];
      }
    }
  }

  lemma AuditRealmCount(s: State, realm: Realm, isBot: bool, t: int)
    requires DayCompleted(s, ActiveUsersAudit, t) && realm in s.src.realms
    requires UniqueIds(s.src) && DistinctTimes(s.src.audit) && AuditRealmsMatch(s.src)
    ensures SlotSum(At(s.db.realm, ActiveUsersAudit, t), Slot(RealmKey(realm.id), BoolText(isBot)))
      == CountUsers(s.src.users, ActiveIn(s.src, realm.id, isBot, t))
  {
    hide Exact, At, RowSum, RealmRollup, SlotSum, RealmSum, Stamp, JoinLastEvents, SumWhere, ActiveAt, OnGrid;
    var stat, src, g := ActiveUsersAudit, s.src, BoolText(isBot);
    var base := BaseRows(stat, src, t);
    CompletedRows(s, stat, t, RealmTable);
    BaseRowsStamped(stat, src, t);
    SelectStamped(base, stat, t, stat, t);
    RealmRollupSpec(src.realms, base, stat, t, realm, g);
    RealmIsRowSum(base, realm.id, g);
    StampSums(JoinLastEvents(src.audit, src.audit, src.users, t), stat, t, OfRealm(realm.id, g));
    AuditCountsActives(src, t, OfRealm(realm.id, g));
    AuditSlotsMatch(src, realm.id, isBot, t);
    CountUsersSame(src.users, ActiveWith(src, t, OfRealm(realm.id, g)), ActiveIn(src, realm.id, isBot, t));
  }

  lemma AuditSlotsMatch(src: Source, realm: int, isBot: bool, t: int)
    ensures forall u :: u in src.users ==>
      ActiveWith(src, t, OfRealm(realm, BoolText(isBot)))(u) == ActiveIn(src, realm, isBot, t)(u)
  {
    hide ActiveAt;
    assert BoolText(true).text[0] != BoolText(false).text[0];
    assert forall u: User ::
      OfRealm(realm, BoolText(isBot))(AuditSlot(u, u.realm)) <==> u.realm == realm && u.isBot == isBot;
  }

  lemma {:induction false} RealmNetOfParts(us: seq<User>, es: seq<AuditEvent>, realm: int, isBot: bool,
      p: int -> bool, keep: AuditEvent -> bool)
    ensures RealmNet(us, es, realm, isBot, p)
      == RealmNet(us, Where(es, keep), realm, isBot, p) + RealmNet(us, Where(es, Not(keep)), realm, isBot, p)
  {
    if us != [] {
      RealmNetOfParts(us[1..], es, realm, isBot, p, keep);
      NetOfParts(es, us[0].id, p, keep);
    }
  }

  /** The comment on the audit stat made exact: in RealmCount, the partial sum of active_users_log up
      to a completed day and the unlogged events up to it make up active_users_audit at that day,
      the events exactly on the day boundary, which the log counts and the audit does not yet, and
      the redundant events before it, which the log counts and the audit does not see. */
  lemma AuditIsPartialSumOfLog(s: State, realm: Realm, isBot: bool, t: int, logged: AuditEvent -> bool)
    requires DayCompleted(s, ActiveUsersAudit, t) && realm in s.src.realms && LogOk(s, ACTIVE_USERS_LOG)
    requires UniqueIds(s.src) && DistinctTimes(s.src.audit) && AuditRealmsMatch(s.src) && LogMirrors(s.src, logged)
    ensures var us, audit := s.src.users, s.src.audit;
      PartialSum(s, realm.id, isBot, t) + RealmNet(us, Where(audit, Not(logged)), realm.id, isBot, NotAfter(t))
      == AuditValue(s, realm.id, isBot, t) + RealmNet(us, audit, realm.id, isBot, On(t))
         + RealmNet(us, Where(audit, Redundant(audit)), realm.id, isBot, Before(t))
  {
    hide Exact, At, Of, SlotSum, Logged, Mirrors, UpTo, DistinctTimes, UniqueIds, OnGrid, Where, RealmNet, ActiveAt;
    var src, slot, kept := s.src, LogSlot(realm.id, isBot), Where(s.src.audit, logged);
    assert RealmTable !in ACTIVE_USERS_LOG.UndoTables();
    LoggedUpTo(src.increments, slot, t);
    AmountOfBag(OfLog(src.increments), Mirrors(kept, src.users), slot, NotAfter(t));
    MirrorsAreNet(kept, src.users, realm.id, isBot, NotAfter(t));
    RealmNetOfParts(src.users, src.audit, realm.id, isBot, NotAfter(t), logged);
    RealmNetSplit(src.users, src.audit, realm.id, isBot, t);
    RealmNetOfParts(src.users, src.audit, realm.id, isBot, Before(t), Redundant(src.audit));
    RealmNetCountsActives(src.users, src, realm.id, isBot, t);
    AuditRealmCount(s, realm, isBot, t);
  }

  /** RealmCount of active_users_log, summed up to t. */
  function PartialSum(s: State, realm: int, isBot: bool, t: int): int {
    SlotSum(UpTo(Of(s.db.realm, ACTIVE_USERS_LOG), t), Slot(RealmKey(realm), Text(if isBot then "True" else "False")))
  }

  /** RealmCount of active_users_audit at t. */
  function AuditValue(s: State, realm: int, isBot: bool, t: int): int {
    SlotSum(At(s.db.realm, ActiveUsersAudit, t), Slot(RealmKey(realm), Text(if isBot then "true" else "false")))
  }

  // ----- when the two agree

  /** The event is about one of the realm's bots, or humans. */
  ghost predicate Affects(e: AuditEvent, us: seq<User>, realm: int, isBot: bool) {
    exists u :: u in us && u.realm == realm && u.isBot == isBot && Concerns(e, u.id)
  }

  ghost function Affecting(us: seq<User>, realm: int, isBot: bool, p: int -> bool): AuditEvent -> bool {
    (e: AuditEvent) => Affects(e, us, realm, isBot) && p(e.eventTime)
  }

  ghost function CountEvents(es: seq<AuditEvent>, q: AuditEvent -> bool): nat {
    if es == [] then 0 else (if q(es[0]) then 1 else 0) + CountEvents(es[1..], q)
  }

  lemma {:induction false} CountEventsZero(es: seq<AuditEvent>, q: AuditEvent -> bool)
    ensures CountEvents(es, q) == 0 <==> forall e :: e in es ==> !q(e)
  {
    if es != [] {
      CountEventsZero(es[1..], q);
      assert forall e :: e in es <==> e == es[0] || e in es[1..];
    }
  }

  lemma AffectsCons(e: AuditEvent, us: seq<User>, realm: int, isBot: bool)
    requires us != []
    ensures Affects(e, us, realm, isBot)
      <==> (us[0].realm == realm && us[0].isBot == isBot && Concerns(e, us[0].id)) || Affects(e, us[1..], realm, isBot)
  {
    assert forall u :: u in us <==> u == us[0] || u in us[1..];
  }

  lemma {:induction false} MirrorOfNobody(e: AuditEvent, us: seq<User>)
    requires forall u :: u in us ==> !Concerns(e, u.id)
    ensures Mirror(e, us) == []
  {
    if us != [] {
      assert us[0] in us && forall u :: u in us[1..] ==> u in us;
      MirrorOfNobody(e, us[1..]);
    }
  }

  /** An event is about one user at most, so it counts once. */
  lemma {:induction false} MirrorOfOne(e: AuditEvent, us: seq<User>, realm: int, isBot: bool, p: int -> bool)
    requires UniqueUsers(us)
    ensures AmountWhere(Mirror(e, us), LogSlot(realm, isBot), p)
      == if Affecting(us, realm, isBot, p)(e) then Sign(e) else 0
  {
    if us != [] {
      AffectsCons(e, us, realm, isBot);
      LogSlotInjective(us[0].realm, us[0].isBot, realm, isBot);
      if Concerns(e, us[0].id) {
        forall u | u in us[1..] ensures !Concerns(e, u.id) { TailDiffers(us, u); }
        MirrorOfNobody(e, us[1..]);
        assert !Affects(e, us[1..], realm, isBot);
        var i := Increment(ACTIVE_USERS_LOG, LogSlot(us[0].realm, us[0].isBot), e.eventTime, Sign(e));
        assert Mirror(e, us) == [i] && [i][1..] == [];
      } else {
        UniqueTail(us);
        MirrorOfOne(e, us[1..], realm, isBot, p);
        assert Mirror(e, us) == Mirror(e, us[1..]);
      }
    } else {
      assert !Affects(e, us, realm, isBot);
    }
  }

  /** The net of activations alone is their number. */
  lemma {:induction false} RealmNetIsCount(us: seq<User>, es: seq<AuditEvent>, realm: int, isBot: bool, p: int -> bool)
    requires UniqueUsers(us)
    requires forall e :: e in es && Affecting(us, realm, isBot, p)(e) ==> e.eventType.Activates()
    ensures RealmNet(us, es, realm, isBot, p) == CountEvents(es, Affecting(us, realm, isBot, p))
  {
    hide RealmNet, Affects, UniqueUsers, Mirror, AmountWhere;
    if es == [] {
      RealmNetEmpty(us, realm, isBot, p);
    } else {
      assert es[0] in es && forall e :: e in es[1..] ==> e in es;
      RealmNetCons(us, es, realm, isBot, p);
      MirrorOfOne(es[0], us, realm, isBot, p);
      RealmNetIsCount(us, es[1..], realm, isBot, p);
    }
  }

  /** Events about others, or at other times, add nothing. */
  lemma {:induction false} RealmNetNone(us: seq<User>, es: seq<AuditEvent>, realm: int, isBot: bool, p: int -> bool)
    requires forall e :: e in es ==> !Affecting(us, realm, isBot, p)(e)
    ensures RealmNet(us, es, realm, isBot, p) == 0
  {
    if us != [] {
      forall e | e in es ensures !Affecting(us[1..], realm, isBot, p)(e) { AffectsCons(e, us, realm, isBot); }
      RealmNetNone(us[1..], es, realm, isBot, p);
      if us[0].realm == realm && us[0].isBot == isBot {
        forall e | e in es && Concerns(e, us[0].id) ensures !p(e.eventTime) { AffectsCons(e, us, realm, isBot); }
        NetNone(es, us[0].id, p);
      }
    }
  }

  ghost function UnloggedCount(src: Source, logged: AuditEvent -> bool, realm: int, isBot: bool, t: int): nat {
    CountEvents(Where(src.audit, Not(logged)), Affecting(src.users, realm, isBot, NotAfter(t)))
  }

  ghost function RedundantCount(src: Source, realm: int, isBot: bool, t: int): nat {
    CountEvents(Where(src.audit, Redundant(src.audit)), Affecting(src.users, realm, isBot, Before(t)))
  }

  /** What the code does to the realm's bots, or humans, up to a day: creations alone go unlogged,
      since do_deactivate_user returns early for an inactive account activations alone are
      redundant, and no event falls on the boundary. */
  ghost predicate Ordinary(src: Source, logged: AuditEvent -> bool, realm: int, isBot: bool, t: int) {
    && (forall e :: e in src.audit && Affecting(src.users, realm, isBot, NotAfter(t))(e) && !logged(e) ==>
          e.eventType.Activates())
    && (forall e :: e in src.audit && Affecting(src.users, realm, isBot, Before(t))(e) && Redundant(src.audit)(e) ==>
          e.eventType.Activates())
    && (forall e :: e in src.audit ==> !Affecting(src.users, realm, isBot, On(t))(e))
  }

  /** The partial sum falls short by the accounts that bulk_create_users made, the internal bots of
      every realm among them, and is over by the reactivations of active accounts. The two stats
      agree if and only if these are equally many. */
  lemma PartialSumAgreesExactlyWhen(s: State, realm: Realm, isBot: bool, t: int, logged: AuditEvent -> bool)
    requires DayCompleted(s, ActiveUsersAudit, t) && realm in s.src.realms && LogOk(s, ACTIVE_USERS_LOG)
    requires UniqueIds(s.src) && DistinctTimes(s.src.audit) && AuditRealmsMatch(s.src) && LogMirrors(s.src, logged)
    requires Ordinary(s.src, logged, realm.id, isBot, t)
    ensures var partial, value := PartialSum(s, realm.id, isBot, t), AuditValue(s, realm.id, isBot, t);
      var unlogged := UnloggedCount(s.src, logged, realm.id, isBot, t);
      var redundant := RedundantCount(s.src, realm.id, isBot, t);
      partial + unlogged == value + redundant && (partial == value <==> unlogged == redundant)
    ensures var us, audit := s.src.users, s.src.audit;
      && (UnloggedCount(s.src, logged, realm.id, isBot, t) == 0
          <==> forall e :: e in audit && !logged(e) ==> !Affecting(us, realm.id, isBot, NotAfter(t))(e))
      && (RedundantCount(s.src, realm.id, isBot, t) == 0
          <==> forall e :: e in audit && Redundant(audit)(e) ==> !Affecting(us, realm.id, isBot, Before(t))(e))
  {
    hide DayCompleted, LogOk, DistinctTimes, AuditRealmsMatch, LogMirrors, PartialSum, AuditValue;
    hide Affects, RealmNet, Where, Redundant, CountEvents;
    var us, audit := s.src.users, s.src.audit;
    AuditIsPartialSumOfLog(s, realm, isBot, t, logged);
    RealmNetNone(us, audit, realm.id, isBot, On(t));
    WhereMembers(audit, Not(logged));
    WhereMembers(audit, Redundant(audit));
    RealmNetIsCount(us, Where(audit, Not(logged)), realm.id, isBot, NotAfter(t));
    RealmNetIsCount(us, Where(audit, Redundant(audit)), realm.id, isBot, Before(t));
    CountEventsZero(Where(audit, Not(logged)), Affecting(us, realm.id, isBot, NotAfter(t)));
    CountEventsZero(Where(audit, Redundant(audit)), Affecting(us, realm.id, isBot, Before(t)));
  }

  /** When all of the realm's events are logged, what is left is the boundary and the redundant
      events: the two agree if and only if these net to 0. */
  lemma LoggedPartialSumAgreesExactlyWhen(s: State, realm: Realm, isBot: bool, t: int, logged: AuditEvent -> bool)
    requires DayCompleted(s, ActiveUsersAudit, t) && realm in s.src.realms && LogOk(s, ACTIVE_USERS_LOG)
    requires UniqueIds(s.src) && DistinctTimes(s.src.audit) && AuditRealmsMatch(s.src) && LogMirrors(s.src, logged)
    requires forall e :: e in s.src.audit && Affecting(s.src.users, realm.id, isBot, NotAfter(t))(e) ==> logged(e)
    ensures var us, audit := s.src.users, s.src.audit;
      PartialSum(s, realm.id, isBot, t) == AuditValue(s, realm.id, isBot, t)
      <==> RealmNet(us, audit, realm.id, isBot, On(t))
           + RealmNet(us, Where(audit, Redundant(audit)), realm.id, isBot, Before(t)) == 0
  {
    hide DayCompleted, LogOk, UniqueIds, DistinctTimes, AuditRealmsMatch, LogMirrors, PartialSum, AuditValue;
    hide Affects, RealmNet, Where, Redundant;
    AuditIsPartialSumOfLog(s, realm, isBot, t, logged);
    WhereMembers(s.src.audit, Not(logged));
    RealmNetNone(s.src.users, Where(s.src.audit, Not(logged)), realm.id, isBot, NotAfter(t));
  }
}
