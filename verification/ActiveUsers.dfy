/** The user-activity queries equal direct definitions over the audit log and the intervals. */
module ActiveUsers {
  import opened TimeGrid
  import opened Grouping
  import opened CountStats
  import opened CountTables
  import opened SourceData
  import opened Queries
  import opened Rollups
  import opened MessageStats

  // ----- who is active, defined directly

  ghost predicate LastBefore(audit: seq<AuditEvent>, e: AuditEvent, user: int, t: int) {
    e in audit && Concerns(e, user) && e.eventTime < t
    && forall f :: f in audit && Concerns(f, user) && f.eventTime < t ==> f.eventTime <= e.eventTime
  }

  /** The user's last relevant event before t, if any, activated the account. */
  ghost predicate ActiveAt(audit: seq<AuditEvent>, user: int, t: int) {
    exists e :: LastBefore(audit, e, user, t) && e.eventType.Activates()
  }

  /** The same by the names of the events. */
  ghost predicate TurnsOn(e: AuditEvent, user: int) {
    e.modifiedUser == Some(user)
    && (e.eventType.UserCreated? || e.eventType.UserActivated? || e.eventType.UserReactivated?)
  }

  ghost predicate TurnsOff(e: AuditEvent, user: int) { e.modifiedUser == Some(user) && e.eventType.UserDeactivated? }

  /** Nothing was done to the account after e and before t. */
  ghost predicate NothingSince(audit: seq<AuditEvent>, e: AuditEvent, user: int, t: int) {
    forall f :: f in audit && (TurnsOn(f, user) || TurnsOff(f, user)) ==> !(e.eventTime < f.eventTime < t)
  }

  ghost predicate LeftOn(audit: seq<AuditEvent>, user: int, t: int) {
    exists e :: e in audit && TurnsOn(e, user) && e.eventTime < t && NothingSince(audit, e, user, t)
  }

  ghost predicate LeftOff(audit: seq<AuditEvent>, user: int, t: int) {
    exists e :: e in audit && TurnsOff(e, user) && e.eventTime < t && NothingSince(audit, e, user, t)
  }

  lemma LeftOnIsActive(audit: seq<AuditEvent>, user: int, t: int)
    ensures ActiveAt(audit, user, t) <==> LeftOn(audit, user, t)
  {
    if ActiveAt(audit, user, t) {
      var e :| LastBefore(audit, e, user, t) && e.eventType.Activates();
      assert TurnsOn(e, user) && NothingSince(audit, e, user, t);
    }
    if e :| e in audit && TurnsOn(e, user) && e.eventTime < t && NothingSince(audit, e, user, t) {
      forall f | f in audit && Concerns(f, user) && f.eventTime < t ensures f.eventTime <= e.eventTime {
        assert TurnsOn(f, user) || TurnsOff(f, user);
      }
      assert LastBefore(audit, e, user, t);
    }
  }

  /** An account whose last event is a deactivation is not left on. */
  lemma LeftOffIsNotOn(audit: seq<AuditEvent>, user: int, t: int)
    requires DistinctTimes(audit) && LeftOff(audit, user, t)
    ensures !LeftOn(audit, user, t)
  {
    var e :| e in audit && TurnsOff(e, user) && e.eventTime < t && NothingSince(audit, e, user, t);
    if f :| f in audit && TurnsOn(f, user) && f.eventTime < t && NothingSince(audit, f, user, t) {
      var i :| 0 <= i < |audit| && audit[i] == e;
      var j :| 0 <= j < |audit| && audit[j] == f;
      assert Concerns(audit[i], user) && Concerns(audit[j], user);
    }
  }

  /** No two relevant events of one user at the same time, as the query assumes. */
  ghost predicate DistinctTimes(audit: seq<AuditEvent>) {
    forall i, j, user {:trigger Concerns(audit[i], user), Concerns(audit[j], user)} ::
      0 <= i < j < |audit| && Concerns(audit[i], user) && Concerns(audit[j], user) ==>
        audit[i].eventTime != audit[j].eventTime
  }

  /** Audit rows name the realm of the user they are about. */
  ghost predicate AuditRealmsMatch(src: Source) {
    forall e, u :: e in src.audit && u in src.users && Concerns(e, u.id) ==> e.realm == u.realm
  }

  /** Some activity interval of the user meets [start, end). */
  ghost predicate Recent(xs: seq<Interval>, user: int, start: int, end: int) {
    exists x :: x in xs && x.user == user && start <= x.end && x.start < end
  }

  /** The number of users that satisfy p. */
  ghost function CountUsers(us: seq<User>, p: User -> bool): nat {
    if us == [] then 0 else (if p(us[0]) then 1 else 0) + CountUsers(us[1..], p)
  }

  ghost function Ids(us: seq<User>, p: User -> bool): set<int> { set u | u in us && p(u) :: u.id }

  lemma {:induction false} CountIsCardinality(us: seq<User>, p: User -> bool)
    requires UniqueUsers(us)
    ensures CountUsers(us, p) == |Ids(us, p)|
  {
    if us != [] {
      UniqueTail(us);
      CountIsCardinality(us[1..], p);
      var rest := Ids(us[1..], p);
      assert forall u :: u in us <==> u == us[0] || u in us[1..];
      if us[0].id in rest {
        var u :| u in us[1..] && p(u) && u.id == us[0].id;
        TailDiffers(us, u);
      }
      assert Ids(us, p) == if p(us[0]) then rest + {us[0].id} else rest;
    }
  }

  // ----- check_realmauditlog_by_user_query

  lemma {:induction false} LastEventTimeSpec(audit: seq<AuditEvent>, user: int, end: int)
    ensures var r := LastEventTime(audit, user, end);
      && (r.None? ==> forall e :: e in audit && Concerns(e, user) ==> end <= e.eventTime)
      && (r.Some? ==> r.value < end && exists e :: e in audit && Concerns(e, user) && e.eventTime == r.value)
      && (r.Some? ==> forall e :: e in audit && Concerns(e, user) && e.eventTime < end ==> e.eventTime <= r.value)
  {
    if audit != [] {
      LastEventTimeSpec(audit[1..], user, end);
      assert forall e :: e in audit <==> e == audit[0] || e in audit[1..];
    }
  }

  ghost predicate HitsFor(e: AuditEvent, audit: seq<AuditEvent>, u: User, end: int) {
    e.modifiedUser == Some(u.id) && e.eventType.Activates() && LastEventTime(audit, u.id, end) == Some(e.eventTime)
  }

  function AuditSlot(u: User, realm: int): Slot { Slot(UserKey(u.id, realm), BoolText(u.isBot)) }

  ghost predicate JoinedEvent(e: AuditEvent, audit: seq<AuditEvent>, u: User, end: int, p: Slot -> bool) {
    HitsFor(e, audit, u, end) && p(AuditSlot(u, e.realm))
  }

  lemma {:induction false} JoinProfilesCount(e: AuditEvent, us: seq<User>, p: Slot -> bool)
    ensures SumWhere(JoinProfiles(e, us), p)
      == CountUsers(us, (u: User) => e.modifiedUser == Some(u.id) && p(AuditSlot(u, e.realm)))
  {
    if us != [] {
      JoinProfilesCount(e, us[1..], p);
      if e.modifiedUser == Some(us[0].id) {
        assert JoinProfiles(e, us) == [Entry(AuditSlot(us[0], e.realm), 1)] + JoinProfiles(e, us[1..]);
        assert JoinProfiles(e, us)[1..] == JoinProfiles(e, us[1..]);
      } else {
        assert JoinProfiles(e, us) == JoinProfiles(e, us[1..]);
      }
    }
  }

  ghost function UserHits(es: seq<AuditEvent>, audit: seq<AuditEvent>, u: User, end: int, p: Slot -> bool): nat {
    if es == [] then 0
    else (if JoinedEvent(es[0], audit, u, end, p) then 1 else 0) + UserHits(es[1..], audit, u, end, p)
  }

  ghost function AllHits(es: seq<AuditEvent>, audit: seq<AuditEvent>, us: seq<User>, end: int, p: Slot -> bool): nat {
    if us == [] then 0 else UserHits(es, audit, us[0], end, p) + AllHits(es, audit, us[1..], end, p)
  }

  lemma {:induction false} CountUsersSame(us: seq<User>, a: User -> bool, b: User -> bool)
    requires forall u :: u in us ==> a(u) == b(u)
    ensures CountUsers(us, a) == CountUsers(us, b)
  {
    if us != [] {
      assert us[0] in us && forall u :: u in us[1..] ==> u in us;
      CountUsersSame(us[1..], a, b);
    }
  }

  lemma {:induction false} AllHitsCons(es: seq<AuditEvent>, audit: seq<AuditEvent>, us: seq<User>, end: int,
      p: Slot -> bool)
    requires es != []
    ensures AllHits(es, audit, us, end, p)
      == CountUsers(us, (u: User) => JoinedEvent(es[0], audit, u, end, p)) + AllHits(es[1..], audit, us, end, p)
  {
    if us != [] { AllHitsCons(es, audit, us[1..], end, p); }
  }

  lemma {:induction false} AllHitsNone(audit: seq<AuditEvent>, us: seq<User>, end: int, p: Slot -> bool)
    ensures AllHits([], audit, us, end, p) == 0
  {
    if us != [] { AllHitsNone(audit, us[1..], end, p); }
  }

  lemma {:induction false} CountUsersNone(us: seq<User>, p: User -> bool)
    requires forall u :: u in us ==> !p(u)
    ensures CountUsers(us, p) == 0
  {
    if us != [] {
      assert us[0] in us && forall u :: u in us[1..] ==> u in us;
      CountUsersNone(us[1..], p);
    }
  }

  lemma {:induction false} JoinLastEventsCount(es: seq<AuditEvent>, audit: seq<AuditEvent>, us: seq<User>, end: int,
      p: Slot -> bool)
    ensures SumWhere(JoinLastEvents(es, audit, us, end), p) == AllHits(es, audit, us, end, p)
  {
    if es == [] {
      AllHitsNone(audit, us, end, p);
    } else {
      var e := es[0];
      var last := e.eventType.Activates() && e.modifiedUser.Some?
        && LastEventTime(audit, e.modifiedUser.value, end) == Some(e.eventTime);
      var hit := (u: User) => JoinedEvent(e, audit, u, end, p);
      var head := if last then JoinProfiles(e, us) else [];
      SumWhereConcat(head, JoinLastEvents(es[1..], audit, us, end), p);
      JoinLastEventsCount(es[1..], audit, us, end, p);
      AllHitsCons(es, audit, us, end, p);
      if last {
        JoinProfilesCount(e, us, p);
        CountUsersSame(us, hit, (u: User) => e.modifiedUser == Some(u.id) && p(AuditSlot(u, e.realm)));
      } else {
        CountUsersNone(us, hit);
      }
    }
  }

  /** At most one event is the user's last one, and it is an activation exactly if the user is active. */
  lemma {:induction false} UserHitsSuffix(es: seq<AuditEvent>, n: nat, audit: seq<AuditEvent>, u: User, end: int,
      p: Slot -> bool)
    requires n <= |audit| && es == audit[n..] && DistinctTimes(audit)
    ensures UserHits(es, audit, u, end, p) == if exists e :: e in es && JoinedEvent(e, audit, u, end, p) then 1 else 0
    decreases |es|
  {
    if es != [] {
      assert es[0] == audit[n] && es[1..] == audit[n + 1..];
      UserHitsSuffix(es[1..], n + 1, audit, u, end, p);
      assert forall e :: e in es <==> e == es[0] || e in es[1..];
      if JoinedEvent(es[0], audit, u, end, p) {
        forall e | e in es[1..] ensures !JoinedEvent(e, audit, u, end, p) {
          var j :| 0 <= j < |es[1..]| && es[1..][j] == e;
          assert audit[n + 1 + j] == e && Concerns(audit[n], u.id);
          assert Concerns(audit[n + 1 + j], u.id) ==> audit[n].eventTime != audit[n + 1 + j].eventTime;
        }
      }
    }
  }

  lemma ActiveHit(src: Source, u: User, end: int, p: Slot -> bool)
    requires u in src.users && AuditRealmsMatch(src)
    ensures (exists e :: e in src.audit && JoinedEvent(e, src.audit, u, end, p))
      <==> ActiveAt(src.audit, u.id, end) && p(AuditSlot(u, u.realm))
  {
    LastEventTimeSpec(src.audit, u.id, end);
    if e :| e in src.audit && JoinedEvent(e, src.audit, u, end, p) {
      assert Concerns(e, u.id);
      assert LastBefore(src.audit, e, u.id, end);
    }
    if ActiveAt(src.audit, u.id, end) && p(AuditSlot(u, u.realm)) {
      var e :| LastBefore(src.audit, e, u.id, end) && e.eventType.Activates();
      assert JoinedEvent(e, src.audit, u, end, p);
    }
  }

  ghost function ActiveWith(src: Source, end: int, p: Slot -> bool): User -> bool {
    (u: User) => ActiveAt(src.audit, u.id, end) && p(AuditSlot(u, u.realm))
  }

  lemma {:induction false} AllHitsCount(us: seq<User>, src: Source, end: int, p: Slot -> bool)
    requires DistinctTimes(src.audit) && AuditRealmsMatch(src) && forall u :: u in us ==> u in src.users
    ensures AllHits(src.audit, src.audit, us, end, p) == CountUsers(us, ActiveWith(src, end, p))
  {
    if us != [] {
      assert us[0] in us && forall u :: u in us[1..] ==> u in us;
      AllHitsCount(us[1..], src, end, p);
      UserHitsSuffix(src.audit, 0, src.audit, us[0], end, p);
      ActiveHit(src, us[0], end, p);
    }
  }

  /** The audit query yields one tuple for each active user and no others. */
  lemma AuditCountsActives(src: Source, end: int, p: Slot -> bool)
    requires DistinctTimes(src.audit) && AuditRealmsMatch(src)
    ensures SumWhere(JoinLastEvents(src.audit, src.audit, src.users, end), p)
      == CountUsers(src.users, ActiveWith(src, end, p))
  {
    JoinLastEventsCount(src.audit, src.audit, src.users, end, p);
    AllHitsCount(src.users, src, end, p);
  }

  lemma {:induction false} JoinProfilesOnes(e: AuditEvent, us: seq<User>)
    ensures forall x :: x in JoinProfiles(e, us) ==> x.amount == 1 && x.group.key.UserKey?
  {
    if us != [] { JoinProfilesOnes(e, us[1..]); }
  }

  lemma {:induction false} JoinLastEventsOnes(es: seq<AuditEvent>, audit: seq<AuditEvent>, us: seq<User>, end: int)
    ensures forall x :: x in JoinLastEvents(es, audit, us, end) ==> x.amount == 1 && x.group.key.UserKey?
  {
    if es != [] {
      JoinLastEventsOnes(es[1..], audit, us, end);
      JoinProfilesOnes(es[0], us);
    }
  }

  // ----- check_useractivityinterval_by_user_query

  lemma {:induction false} UserIntervalsGroups(u: User, xs: seq<Interval>, start: int, end: int)
    ensures forall e :: e in UserIntervals(u, xs, start, end) ==> e.group == Slot(UserKey(u.id, u.realm), Null)
    ensures UserIntervals(u, xs, start, end) != [] <==> Recent(xs, u.id, start, end)
  {
    if xs != [] {
      UserIntervalsGroups(u, xs[1..], start, end);
      assert forall x :: x in xs <==> x == xs[0] || x in xs[1..];
    }
  }

  lemma {:induction false} JoinIntervalsGroups(us: seq<User>, xs: seq<Interval>, start: int, end: int, s: Slot)
    ensures HasGroup(JoinIntervals(us, xs, start, end), s) <==>
      exists u :: u in us && Recent(xs, u.id, start, end) && s == Slot(UserKey(u.id, u.realm), Null)
  {
    if us != [] {
      var a, b := UserIntervals(us[0], xs, start, end), JoinIntervals(us[1..], xs, start, end);
      JoinIntervalsGroups(us[1..], xs, start, end, s);
      UserIntervalsGroups(us[0], xs, start, end);
      assert forall e :: e in a + b <==> e in a || e in b;
      assert forall u :: u in us <==> u == us[0] || u in us[1..];
      if a != [] { assert a[0] in a; }
    }
  }

  lemma {:induction false} OnesGroups(es: seq<Entry<Slot>>)
    ensures |Ones(es)| == |es| && forall i :: 0 <= i < |es| ==> Ones(es)[i] == Entry(es[i].group, 1)
  {
    if es != [] { OnesGroups(es[1..]); }
  }

  ghost predicate RowOf(g: Entry<Slot>, u: User, xs: seq<Interval>, start: int, end: int) {
    Recent(xs, u.id, start, end) && g.group == Slot(UserKey(u.id, u.realm), Null)
  }

  lemma RecentGroups(src: Source, start: int, end: int)
    ensures var gs := GroupSum(JoinIntervals(src.users, src.intervals, start, end));
      && DistinctGroups(gs)
      && (forall g :: g in gs ==>
          exists u :: u in src.users && RowOf(g, u, src.intervals, start, end))
      && forall u :: u in src.users && Recent(src.intervals, u.id, start, end) ==>
        HasGroup(gs, Slot(UserKey(u.id, u.realm), Null))
  {
    hide GroupSum, JoinIntervals, Recent;
    var es := JoinIntervals(src.users, src.intervals, start, end);
    var gs := GroupSum(es);
    GroupSumSpec(es, Slot(InstallationKey, Null));
    forall g | g in gs
      ensures exists u :: u in src.users && RowOf(g, u, src.intervals, start, end)
    {
      GroupSumSpec(es, g.group);
      JoinIntervalsGroups(src.users, src.intervals, start, end, g.group);
    }
    forall u | u in src.users && Recent(src.intervals, u.id, start, end)
      ensures HasGroup(gs, Slot(UserKey(u.id, u.realm), Null))
    {
      GroupSumSpec(es, Slot(UserKey(u.id, u.realm), Null));
      JoinIntervalsGroups(src.users, src.intervals, start, end, Slot(UserKey(u.id, u.realm), Null));
    }
  }

  ghost predicate DistinctUsers(rows: seq<Row>) {
    (forall r :: r in rows ==> r.key.UserKey?) && forall i, j :: 0 <= i < j < |rows| ==>
      rows[i].key.user != rows[j].key.user
  }

  ghost predicate HasUser(rows: seq<Row>, id: int) {
    exists r :: r in rows && r.key.UserKey? && r.key.user == id
  }

  /** rows are the groups gs of users picked by p, one row a group. */
  ghost predicate OneRowEach(rows: seq<Row>, gs: seq<Entry<Slot>>, us: seq<User>, p: User -> bool) {
    && |rows| == |gs| && DistinctGroups(gs)
    && (forall i :: 0 <= i < |gs| ==> rows[i].key == gs[i].group.key)
    && (forall g :: g in gs ==> exists u :: u in us && p(u) && g.group == Slot(UserKey(u.id, u.realm), Null))
    && (forall u :: u in us && p(u) ==> HasGroup(gs, Slot(UserKey(u.id, u.realm), Null)))
  }

  lemma OneRowEachDistinct(rows: seq<Row>, gs: seq<Entry<Slot>>, us: seq<User>, p: User -> bool)
    requires OneRowEach(rows, gs, us, p) && UniqueUsers(us)
    ensures DistinctUsers(rows)
  {
    forall r | r in rows ensures r.key.UserKey? {
      var i :| 0 <= i < |rows| && rows[i] == r;
      assert gs[i] in gs;
    }
    forall i, j | 0 <= i < j < |rows| ensures rows[i].key.user != rows[j].key.user {
      assert gs[i] in gs && gs[j] in gs && gs[i].group != gs[j].group;
      var u :| u in us && p(u) && gs[i].group == Slot(UserKey(u.id, u.realm), Null);
      var v :| v in us && p(v) && gs[j].group == Slot(UserKey(v.id, v.realm), Null);
      if u.id == v.id { SameUser(us, u, v); }
    }
  }

  lemma UserOfRow(rows: seq<Row>, gs: seq<Entry<Slot>>, us: seq<User>, p: User -> bool, id: int)
    requires OneRowEach(rows, gs, us, p) && HasUser(rows, id)
    ensures id in Ids(us, p)
  {
    hide DistinctGroups, HasGroup;
    var r :| r in rows && r.key.UserKey? && r.key.user == id;
    var i :| 0 <= i < |rows| && rows[i] == r;
    assert gs[i] in gs;
    var u :| u in us && p(u) && gs[i].group == Slot(UserKey(u.id, u.realm), Null);
  }

  lemma RowOfUser(rows: seq<Row>, gs: seq<Entry<Slot>>, us: seq<User>, p: User -> bool, id: int)
    requires OneRowEach(rows, gs, us, p) && id in Ids(us, p)
    ensures HasUser(rows, id)
  {
    hide DistinctGroups;
    var u :| u in us && p(u) && u.id == id;
    var e :| e in gs && e.group == Slot(UserKey(u.id, u.realm), Null);
    var i :| 0 <= i < |gs| && gs[i] == e;
    assert rows[i] in rows;
  }

  ghost function RecentlyActive(xs: seq<Interval>, start: int, end: int): User -> bool {
    (u: User) => Recent(xs, u.id, start, end)
  }

  lemma RecentRowsAreGroups(src: Source, start: int, end: int)
    ensures OneRowEach(Pull(FifteenDayActives, src, [], start, end),
      GroupSum(JoinIntervals(src.users, src.intervals, start, end)),
                       src.users, RecentlyActive(src.intervals, start, end))
  {
    hide GroupSum, JoinIntervals, Recent;
    var gs := GroupSum(JoinIntervals(src.users, src.intervals, start, end));
    RecentGroups(src, start, end);
    OnesGroups(gs);
    StampSpec(Ones(gs), FifteenDayActives, end);
  }

  /** Each recently active user has exactly one row, whatever the number of intervals. */
  lemma RecentRows(src: Source, start: int, end: int)
    requires UniqueIds(src)
    ensures var rows := Pull(FifteenDayActives, src, [], start, end);
      && DistinctUsers(rows)
      && forall id :: HasUser(rows, id) <==> id in Ids(src.users, RecentlyActive(src.intervals, start, end))
  {
    hide GroupSum, JoinIntervals, Pull, OneRowEach, HasUser, Ids, DistinctUsers;
    var gs := GroupSum(JoinIntervals(src.users, src.intervals, start, end));
    var rows, p := Pull(FifteenDayActives, src, [], start, end), RecentlyActive(src.intervals, start, end);
    RecentRowsAreGroups(src, start, end);
    OneRowEachDistinct(rows, gs, src.users, p);
    forall id ensures HasUser(rows, id) <==> id in Ids(src.users, p) {
      if HasUser(rows, id) { UserOfRow(rows, gs, src.users, p, id); }
      if id in Ids(src.users, p) { RowOfUser(rows, gs, src.users, p, id); }
    }
  }

  // ----- count_realm_active_humans_query

  lemma {:induction false} JoinActivesCount(a: Row, actives: seq<Row>, p: Slot -> bool)
    requires a.key.UserKey? && DistinctUsers(actives)
    ensures SumWhere(JoinActives(a, actives), p)
      == if HasUser(actives, a.key.user) && p(Slot(RealmKey(a.key.realm), Null)) then 1 else 0
  {
    if actives != [] {
      var rest := actives[1..];
      assert actives[0] in actives;
      forall r | r in rest ensures r.key.UserKey? && r.key.user != actives[0].key.user {
        var j :| 0 <= j < |rest| && rest[j] == r;
        assert actives[j + 1] == r && actives[j + 1] in actives;
      }
      forall i, j | 0 <= i < j < |rest| ensures rest[i].key.user != rest[j].key.user {
        assert rest[i] == actives[i + 1] && rest[j] == actives[j + 1];
      }
      JoinActivesCount(a, rest, p);
      if a.key.user != actives[0].key.user {
        assert JoinActives(a, actives) == JoinActives(a, rest);
      } else {
        assert JoinActives(a, actives)[1..] == JoinActives(a, rest);
      }
      assert HasUser(actives, a.key.user) <==> actives[0].key.user == a.key.user || HasUser(rest, a.key.user) by {
        assert forall r :: r in actives <==> r == actives[0] || r in rest;
      }
    }
  }

  ghost function HumanSlot(actives: seq<Row>, p: Slot -> bool): Slot -> bool {
    (s: Slot) => s.subgroup == Text("false") && s.key.UserKey? && HasUser(actives, s.key.user)
      && p(Slot(RealmKey(s.key.realm), Null))
  }

  lemma {:induction false} JoinHumansCount(audits: seq<Row>, actives: seq<Row>, p: Slot -> bool)
    requires DistinctUsers(actives)
    requires forall a :: a in audits ==> a.key.UserKey? && a.value == 1
    ensures SumWhere(JoinHumans(audits, actives), p) == RowSum(audits, HumanSlot(actives, p))
  {
    if audits != [] {
      assert audits[0] in audits && forall a :: a in audits[1..] ==> a in audits;
      JoinHumansCount(audits[1..], actives, p);
      JoinActivesCount(audits[0], actives, p);
      var head := if audits[0].subgroup == Text("false") then JoinActives(audits[0], actives) else [];
      SumWhereConcat(head, JoinHumans(audits[1..], actives), p);
    }
  }

  lemma {:induction false} StampOnes(es: seq<Entry<Slot>>, stat: CountStat, t: int)
    requires forall e :: e in es ==> e.amount == 1 && e.group.key.UserKey?
    ensures forall r :: r in Stamp(es, stat, t) ==> r.value == 1 && r.key.UserKey?
  {
    if es != [] {
      assert es[0] in es && forall e :: e in es[1..] ==> e in es;
      StampOnes(es[1..], stat, t);
    }
  }

  ghost function ActiveHuman(src: Source, realm: int, t: int): User -> bool {
    (u: User) => u.realm == realm && !u.isBot && ActiveAt(src.audit, u.id, t)
  }

  /** The ids of the realm's active humans at t. */
  ghost function ActiveHumanIds(src: Source, realm: int, t: int): set<int> {
    Ids(src.users, ActiveHuman(src, realm, t))
  }

  /** The ids of the users with activity in the fifteen days, less the minimum interval, before t. */
  ghost function RecentIds(src: Source, t: int): set<int> {
    Ids(src.users, RecentlyActive(src.intervals, t - FifteenDayActives.Interval(), t))
  }

  lemma HumanSlotIsBoth(src: Source, realm: int, t: int, u: User)
    requires UniqueIds(src) && u in src.users
    ensures var actives := Pull(FifteenDayActives, src, [], t - FifteenDayActives.Interval(), t);
      var both := ActiveWith(src, t, HumanSlot(actives, Exactly(Slot(RealmKey(realm), Null))));
      both(u) <==> (ActiveHuman(src, realm, t)(u) && u.id in RecentIds(src, t))
  {
    hide Pull, ActiveAt, DistinctUsers, HasUser, Ids;
    var actives := Pull(FifteenDayActives, src, [], t - FifteenDayActives.Interval(), t);
    RecentRows(src, t - FifteenDayActives.Interval(), t);
    assert BoolText(true).text[0] != BoolText(false).text[0];
    assert AuditSlot(u, u.realm).subgroup == Text("false") <==> !u.isBot;
    assert HasUser(actives, u.id) <==> u.id in RecentIds(src, t);
    assert Exactly(Slot(RealmKey(realm), Null))(Slot(RealmKey(u.realm), Null)) <==> u.realm == realm;
  }

  /** The query of realm_active_humans, on the rows its two dependencies give on the source, counts
      exactly the users who are both active humans of the realm and recently active, each once. */
  lemma HumansQueryCounts(src: Source, realm: int, t: int)
    requires UniqueIds(src) && DistinctTimes(src.audit) && AuditRealmsMatch(src)
    ensures var audits := Pull(ActiveUsersAudit, src, [], t - DAY, t);
      var actives := Pull(FifteenDayActives, src, [], t - FifteenDayActives.Interval(), t);
      SumWhere(JoinHumans(audits, actives), Exactly(Slot(RealmKey(realm), Null)))
        == |ActiveHumanIds(src, realm, t) * RecentIds(src, t)|
  {
    hide JoinLastEvents, JoinHumans, Stamp, ActiveWith, HumanSlot, ActiveHuman, RecentlyActive;
    hide Ids, DistinctUsers, HasUser, UniqueIds, JoinIntervals;
    var events := JoinLastEvents(src.audit, src.audit, src.users, t);
    var audits := Stamp(events, ActiveUsersAudit, t);
    var actives := Pull(FifteenDayActives, src, [], t - FifteenDayActives.Interval(), t);
    var q := HumanSlot(actives, Exactly(Slot(RealmKey(realm), Null)));
    JoinLastEventsOnes(src.audit, src.audit, src.users, t);
    StampOnes(events, ActiveUsersAudit, t);
    RecentRows(src, t - FifteenDayActives.Interval(), t);
    JoinHumansCount(audits, actives, Exactly(Slot(RealmKey(realm), Null)));
    StampSums(events, ActiveUsersAudit, t, q);
    AuditCountsActives(src, t, q);
    BothCounted(src, realm, t);
  }

  lemma BothCounted(src: Source, realm: int, t: int)
    requires UniqueIds(src)
    ensures var actives := Pull(FifteenDayActives, src, [], t - FifteenDayActives.Interval(), t);
      CountUsers(src.users, ActiveWith(src, t, HumanSlot(actives, Exactly(Slot(RealmKey(realm), Null)))))
        == |ActiveHumanIds(src, realm, t) * RecentIds(src, t)|
  {
    hide Pull, ActiveWith, HumanSlot, ActiveHuman, RecentlyActive;
    var actives := Pull(FifteenDayActives, src, [], t - FifteenDayActives.Interval(), t);
    var q := ActiveWith(src, t, HumanSlot(actives, Exactly(Slot(RealmKey(realm), Null))));
    var both := (u: User) => ActiveHuman(src, realm, t)(u) && u.id in RecentIds(src, t);
    forall u | u in src.users ensures q(u) == both(u) { HumanSlotIsBoth(src, realm, t, u); }
    CountUsersSame(src.users, q, both);
    CountIsCardinality(src.users, both);
    assert Ids(src.users, both) == ActiveHumanIds(src, realm, t) * RecentIds(src, t) by {
      forall id | id in ActiveHumanIds(src, realm, t) * RecentIds(src, t) ensures id in Ids(src.users, both) {
        var u :| u in src.users && ActiveHuman(src, realm, t)(u) && u.id == id;
        assert both(u);
      }
    }
  }
}
