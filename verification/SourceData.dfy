/** The tables the statistics are computed from. */
module SourceData {
  import opened CountStats
  import opened CountTables
  import opened TimeGrid

  datatype Option<T> = None | Some(value: T)

  datatype User = User(id: int, realm: int, dateJoined: int, isBot: bool)

  /** inviteOnly is a NullBooleanField. */
  datatype Stream = Stream(id: int, realm: int, inviteOnly: Option<bool>, dateCreated: int)

  const PERSONAL := 1
  const STREAM := 2
  const HUDDLE := 3

  datatype Recipient = Recipient(id: int, kind: int, typeId: int)

  datatype Message = Message(sender: int, recipient: int, client: int, pubDate: int)

  datatype EventType = UserCreated | UserDeactivated | UserActivated | UserReactivated | Unrelated {
    predicate Relevant() { !Unrelated? }
    predicate Activates() { UserCreated? || UserActivated? || UserReactivated? }
  }

  datatype AuditEvent = AuditEvent(modifiedUser: Option<int>, realm: int, eventType: EventType, eventTime: int)

  datatype Interval = Interval(user: int, start: int, end: int)

  /** One call of do_increment_logging_stat; slot is the object counted for and the subgroup. */
  datatype Increment = Increment(stat: CountStat, slot: Slot, eventTime: int, amount: int) {
    function EndTime(): int { Ceiling(eventTime, stat.Frequency()) }
  }

  datatype Source = Source(
    realms: seq<Realm>, users: seq<User>, streams: seq<Stream>, recipients: seq<Recipient>,
    messages: seq<Message>, audit: seq<AuditEvent>, intervals: seq<Interval>,
    increments: seq<Increment>)

  function EarliestCreation(realms: seq<Realm>): (t: int)
    requires realms != []
    ensures exists r :: r in realms && r.dateCreated == t
    ensures forall r :: r in realms ==> t <= r.dateCreated
  {
    if |realms| == 1 then assert realms[0] in realms; realms[0].dateCreated
    else
      var rest := EarliestCreation(realms[1..]);
      assert forall r :: r in realms ==> r == realms[0] || r in realms[1..];
      assert realms[0] in realms && forall r :: r in realms[1..] ==> r in realms;
      if realms[0].dateCreated < rest then realms[0].dateCreated else rest
  }

  /** The last day boundary that is not after the creation of any realm. The repository assumes
      that there is at least one realm; without one, 0 stands in. */
  function InstallationEpoch(realms: seq<Realm>): (t: int)
    ensures OnGrid(t, Day)
    ensures forall r :: r in realms ==> t <= r.dateCreated
    ensures realms != [] ==> exists r :: r in realms && r.dateCreated < t + DAY
  {
    if realms == [] then 0 else Floor(EarliestCreation(realms), Day)
  }

  /** e is the day boundary at or before the earliest creation of a realm. */
  ghost predicate IsFirstDay(e: int, realms: seq<Realm>) {
    && e % DAY == 0
    && (forall r :: r in realms ==> e <= r.dateCreated)
    && exists r :: r in realms && r.dateCreated < e + DAY
  }

  lemma FirstDayIsUnique(e: int, f: int, realms: seq<Realm>)
    requires IsFirstDay(e, realms) && IsFirstDay(f, realms)
    ensures e == f
  {
    GridIsMultiples(e);
    GridIsMultiples(f);
    if e < f { GridGap(e, f, Day); }
    if f < e { GridGap(f, e, Day); }
  }

  // ----- primary keys

  ghost predicate UniqueRealms(xs: seq<Realm>) {
    forall i, j :: 0 <= i < j < |xs| ==> xs[i].id != xs[j].id
  }

  ghost predicate UniqueUsers(xs: seq<User>) {
    forall i, j :: 0 <= i < j < |xs| ==> xs[i].id != xs[j].id
  }

  ghost predicate UniqueStreams(xs: seq<Stream>) {
    forall i, j :: 0 <= i < j < |xs| ==> xs[i].id != xs[j].id
  }

  ghost predicate UniqueRecipients(xs: seq<Recipient>) {
    forall i, j :: 0 <= i < j < |xs| ==> xs[i].id != xs[j].id
  }

  ghost predicate UniqueIds(src: Source) {
    UniqueRealms(src.realms) && UniqueUsers(src.users) && UniqueStreams(src.streams)
    && UniqueRecipients(src.recipients)
  }

  lemma UniqueTail(us: seq<User>)
    requires us != [] && UniqueUsers(us)
    ensures UniqueUsers(us[1..])
  {
    forall i, j | 0 <= i < j < |us[1..]| ensures us[1..][i].id != us[1..][j].id {
      assert us[1..][i] == us[i + 1] && us[1..][j] == us[j + 1];
    }
  }

  lemma TailDiffers(us: seq<User>, u: User)
    requires us != [] && UniqueUsers(us) && u in us[1..]
    ensures u.id != us[0].id
  {
    var j :| 0 <= j < |us[1..]| && us[1..][j] == u;
    assert us[j + 1] == u;
  }

  lemma SameUser(us: seq<User>, u: User, v: User)
    requires UniqueUsers(us) && u in us && v in us && u.id == v.id
    ensures u == v
  {
    var i :| 0 <= i < |us| && us[i] == u;
    var j :| 0 <= j < |us| && us[j] == v;
    assert i == j;
  }

  // ----- foreign keys

  ghost predicate Resolves(id: int, realms: seq<Realm>) {
    exists realm :: realm in realms && realm.id == id
  }

  ghost predicate UsersHaveRealms(src: Source) {
    forall u :: u in src.users ==> Resolves(u.realm, src.realms)
  }

  ghost predicate StreamsHaveRealms(src: Source) {
    forall s :: s in src.streams ==> Resolves(s.realm, src.realms)
  }

  ghost predicate EventsHaveRealms(src: Source) {
    forall e :: e in src.audit ==> Resolves(e.realm, src.realms)
  }

  ghost predicate SendersExist(src: Source) {
    forall m :: m in src.messages ==> exists u :: u in src.users && u.id == m.sender
  }

  ghost predicate RecipientsExist(src: Source) {
    forall m :: m in src.messages ==> exists r :: r in src.recipients && r.id == m.recipient
  }

  /** Nobody sends before joining. (do_activate_user moves date_joined, so this can fail.) */
  ghost predicate JoinedBeforeSending(src: Source) {
    forall m, u :: m in src.messages && u in src.users && u.id == m.sender ==> u.dateJoined <= m.pubDate
  }
}
