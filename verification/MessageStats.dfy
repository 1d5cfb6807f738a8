/** The message stats in every reachable state: exactly once, and in agreement with each other. */
module MessageStats {
  import opened TimeGrid
  import opened Grouping
  import opened CountStats
  import opened CountTables
  import opened SourceData
  import opened Queries
  import opened FillMachine
  import opened FillSafety
  import opened FillSpec
  import opened FillExactness
  import opened FillRuns
  import opened Rollups
  import opened RowKeys
  import opened CrashRecovery
  import opened MessageCounts

  // ----- the slots and messages that are counted

  function AnySlot(): Slot -> bool { (s: Slot) => true }
  function OfUser(id: int): Slot -> bool { (s: Slot) => s.key.UserKey? && s.key.user == id }
  function Exactly(slot: Slot): Slot -> bool { (s: Slot) => s == slot }
  function OfRealm(realm: int, g: Subgroup): Slot -> bool { (s: Slot) => InRealm(s.key, realm) && s.subgroup == g }

  function SentIn(start: int, end: int): Message -> bool { (m: Message) => InWindow(m.pubDate, start, end) }
  function SentBy(user: int, start: int, end: int): Message -> bool {
    (m: Message) => m.sender == user && InWindow(m.pubDate, start, end)
  }
  function SentWith(user: int, client: int, start: int, end: int): Message -> bool {
    (m: Message) => m.sender == user && m.client == client && InWindow(m.pubDate, start, end)
  }

  ghost predicate HasType(m: Message, kind: string, src: Source) {
    exists r :: r in src.recipients && r.id == m.recipient && TypeOf(r, src.streams) == kind
  }

  ghost function SentTyped(user: int, kind: string, src: Source, start: int, end: int): Message -> bool {
    (m: Message) => m.sender == user && InWindow(m.pubDate, start, end) && HasType(m, kind, src)
  }

  /** The sender of m is one of the users that who describes. */
  ghost predicate SentFrom(m: Message, users: seq<User>, who: User -> bool) {
    exists u :: u in users && u.id == m.sender && who(u)
  }

  function AllOf(realm: int): User -> bool { (u: User) => u.realm == realm }

  /** The query of the is_bot and client stats tests date_joined < time_end. */
  function JoinedOf(realm: int, end: int): User -> bool { (u: User) => u.realm == realm && u.dateJoined < end }

  function JoinedBots(realm: int, isBot: bool, end: int): User -> bool {
    (u: User) => u.realm == realm && u.isBot == isBot && u.dateJoined < end
  }

  ghost function SentInRealm(users: seq<User>, realm: int, isBot: bool, start: int, end: int): Message -> bool {
    (m: Message) => InWindow(m.pubDate, start, end) && SentFrom(m, users, JoinedBots(realm, isBot, end))
  }

  ghost function SentInRealmWith(users: seq<User>, realm: int, client: int, start: int, end: int): Message -> bool {
    (m: Message) => InWindow(m.pubDate, start, end) && m.client == client && SentFrom(m, users, JoinedOf(realm, end))
  }

  ghost function SentInRealmTyped(src: Source, realm: int, kind: string, start: int, end: int): Message -> bool {
    (m: Message) => InWindow(m.pubDate, start, end) && HasType(m, kind, src) && SentFrom(m, src.users, AllOf(realm))
  }

  /** The user's messages of the window, or none if the user had not joined by its end. */
  function SentJoined(u: User, start: int, end: int): Message -> bool {
    (m: Message) => m.sender == u.id && u.dateJoined < end && InWindow(m.pubDate, start, end)
  }

  /** The user's messages of the window, less those of hours by whose end the user had not joined. */
  function SentOnceJoined(u: User, start: int, end: int): Message -> bool {
    (m: Message) => m.sender == u.id && u.dateJoined < HourEnd(m.pubDate) && InWindow(m.pubDate, start, end)
  }

  lemma {:induction false} SlotIsRowSum(rows: seq<Row>, slot: Slot)
    ensures SlotSum(rows, slot) == RowSum(rows, Exactly(slot))
  {
    if rows != [] { SlotIsRowSum(rows[1..], slot); }
  }

  lemma {:induction false} RealmIsRowSum(rows: seq<Row>, realm: int, g: Subgroup)
    ensures RealmSum(rows, realm, g) == RowSum(rows, OfRealm(realm, g))
  {
    if rows != [] { RealmIsRowSum(rows[1..], realm, g); }
  }

  // ----- base rows as counts

  function Grouped(stat: CountStat): MessageGrouping { if stat.MessagesSentByIsBot? then ByIsBot else ByClient }

  lemma UserBaseCount(stat: CountStat, src: Source, t: int, p: Slot -> bool)
    requires stat.MessagesSentByIsBot? || stat.MessagesSentByClient?
    requires UniqueIds(src)
    ensures RowSum(BaseRows(stat, src, t), p)
      == Count(src.messages, Counted(src.users, Grouped(stat), t - stat.Step(), t, p))
  {
    hide JoinUserMessages, Stamp, GroupSum;
    var es := JoinUserMessages(src.users, src.messages, Grouped(stat), t - stat.Step(), t);
    JoinCountsMessages(src.users, src.messages, Grouped(stat), t - stat.Step(), t, p);
    GroupSumWhere(es, p);
    StampSums(GroupSum(es), stat, t, p);
  }

  lemma TypeBaseCount(src: Source, t: int, p: Slot -> bool)
    requires UniqueIds(src)
    ensures RowSum(BaseRows(MessagesSentByType, src, t), p)
      == Count(src.messages, CountedTyped(src.users, src.recipients, src.streams, t - DAY, t, p))
  {
    hide JoinTypedMessages, Stamp, GroupSum;
    TwoLevelTypes(src, t - DAY, t, p);
    StampSums(PullEntries(MessagesSentByType, src, [], t - DAY, t), MessagesSentByType, t, p);
  }

  // ----- exactly once

  lemma IsBotRowsCovered(src: Source, t: int)
    requires UsersHaveRealms(src)
    ensures Covered(BaseRows(MessagesSentByIsBot, src, t), src.realms)
  {
    hide BaseRows;
    BaseKeys(MessagesSentByIsBot, src, t, HasRealm(src.realms));
    KeysCover(BaseRows(MessagesSentByIsBot, src, t), src.realms);
  }

  lemma InstallationSumIsCount(src: Source, t: int)
    requires UniqueIds(src) && UsersHaveRealms(src)
    ensures ValueSum(TableRows(MessagesSentByIsBot, src, t, InstallationTable))
      == Count(src.messages, Counted(src.users, ByIsBot, t - HOUR, t, AnySlot()))
  {
    hide BaseRows, RealmRollup, InstallationRollup, Stamp;
    var stat, base := MessagesSentByIsBot, BaseRows(MessagesSentByIsBot, src, t);
    BaseRowsStamped(stat, src, t);
    TableRowsStamped(stat, src, t, RealmTable);
    SelectStamped(base, stat, t, stat, t);
    SelectStamped(RealmRows(stat, src, t), stat, t, stat, t);
    IsBotRowsCovered(src, t);
    RealmRollupConserves(src.realms, base, stat, t, Null);
    InstallationRollupSpec(RealmRows(stat, src, t), stat, t, Null);
    AnyRowSum(base);
    UserBaseCount(stat, src, t, AnySlot());
  }

  ghost predicate JoinedBy(src: Source, m: Message, t: int) {
    exists u :: u in src.users && u.id == m.sender && u.dateJoined < t
  }

  /** Without that hypothesis: an hour counts all of its messages exactly when every sender had
      joined by the end of the hour, because the query tests date_joined < time_end. */
  lemma HourIsCompleteExactlyWhen(src: Source, t: int)
    requires UniqueIds(src) && UsersHaveRealms(src)
    ensures ValueSum(TableRows(MessagesSentByIsBot, src, t, InstallationTable))
      == Count(src.messages, SentIn(t - HOUR, t))
      <==> forall m :: m in src.messages && InWindow(m.pubDate, t - HOUR, t) ==> JoinedBy(src, m, t)
  {
    hide TableRows, UniqueIds;
    var sent, counted := SentIn(t - HOUR, t), Counted(src.users, ByIsBot, t - HOUR, t, AnySlot());
    var missed := (m: Message) => InWindow(m.pubDate, t - HOUR, t) && !JoinedBy(src, m, t);
    InstallationSumIsCount(src, t);
    forall m | m in src.messages ensures sent(m) == (counted(m) || missed(m)) && !(counted(m) && missed(m)) {
      if u :| u in src.users && u.id == m.sender && u.dateJoined < t {
        if sent(m) { assert CountedOf(u, m, ByIsBot, t - HOUR, t, AnySlot()); }
      }
    }
    CountSplit(src.messages, sent, counted, missed);
    CountZero(src.messages, missed);
  }

  lemma {:induction false} CountZero(ms: seq<Message>, p: Message -> bool)
    ensures Count(ms, p) == 0 <==> forall m :: m in ms ==> !p(m)
  {
    if ms != [] {
      CountZero(ms[1..], p);
      assert forall m :: m in ms <==> m == ms[0] || m in ms[1..];
    }
  }

  /** The end of the hour in which p lies. */
  function HourEnd(p: int): int { Floor(p, Hour) + HOUR }

  lemma HourEnds(p: int, t: int)
    requires OnGrid(t, Hour)
    ensures p < t <==> HourEnd(p) <= t
    ensures InWindow(p, t - HOUR, t) ==> HourEnd(p) == t
  {
    hide OnGrid, Floor;
    FloorAndCeilingAreTight(p, t, Hour);
    GridStep(t, Hour);
    FloorAndCeilingAreTight(p, t - HOUR, Hour);
    if Floor(p, Hour) < t { GridGap(Floor(p, Hour), t, Hour); }
  }

  /** Sent in the window, by somebody who had joined by the end of the hour. */
  ghost function SentOnTime(src: Source, start: int, end: int): Message -> bool {
    (m: Message) => InWindow(m.pubDate, start, end) && JoinedBy(src, m, HourEnd(m.pubDate))
  }

  lemma HourlyInstallationSum(src: Source, t: int)
    requires UniqueIds(src) && UsersHaveRealms(src) && OnGrid(t, Hour)
    ensures ValueSum(TableRows(MessagesSentByIsBot, src, t, InstallationTable))
      == Count(src.messages, SentOnTime(src, t - HOUR, t))
  {
    hide TableRows, UniqueIds, HourEnd, OnGrid;
    var counted := Counted(src.users, ByIsBot, t - HOUR, t, AnySlot());
    InstallationSumIsCount(src, t);
    forall m | m in src.messages ensures counted(m) == SentOnTime(src, t - HOUR, t)(m) {
      HourEnds(m.pubDate, t);
      if u :| u in src.users && u.id == m.sender && u.dateJoined < t {
        if InWindow(m.pubDate, t - HOUR, t) { assert CountedOf(u, m, ByIsBot, t - HOUR, t, AnySlot()); }
      }
    }
    CountSame(src.messages, counted, SentOnTime(src, t - HOUR, t));
  }

  lemma {:induction false} AnyRowSum(rows: seq<Row>)
    ensures ValueSum(rows) == RowSum(rows, AnySlot())
  {
    if rows != [] { AnyRowSum(rows[1..]); }
  }

  lemma {:induction false} ValueSumConcat(a: seq<Row>, b: seq<Row>)
    ensures ValueSum(a + b) == ValueSum(a) + ValueSum(b)
  {
    if a == [] {
      assert a + b == b;
    } else {
      assert (a + b)[1..] == a[1..] + b;
      ValueSumConcat(a[1..], b);
    }
  }

  /** Adjacent windows tile. */
  lemma WindowsTile(ms: seq<Message>, a: int, b: int, c: int)
    requires a <= b <= c
    ensures Count(ms, SentIn(a, c)) == Count(ms, SentIn(a, b)) + Count(ms, SentIn(b, c))
    ensures forall user ::
      Count(ms, SentBy(user, a, c)) == Count(ms, SentBy(user, a, b)) + Count(ms, SentBy(user, b, c))
  {
    CountSplit(ms, SentIn(a, c), SentIn(a, b), SentIn(b, c));
    forall user ensures Count(ms, SentBy(user, a, c)) == Count(ms, SentBy(user, a, b)) + Count(ms, SentBy(user, b, c)) {
      CountSplit(ms, SentBy(user, a, c), SentBy(user, a, b), SentBy(user, b, c));
    }
  }

  lemma OnTimeTiles(src: Source, a: int, b: int, c: int)
    requires a <= b <= c
    ensures Count(src.messages, SentOnTime(src, a, c))
      == Count(src.messages, SentOnTime(src, a, b)) + Count(src.messages, SentOnTime(src, b, c))
  {
    hide JoinedBy, HourEnd;
    CountSplit(src.messages, SentOnTime(src, a, c), SentOnTime(src, a, b), SentOnTime(src, b, c));
  }

  lemma NothingOnTime(src: Source, t: int)
    ensures Count(src.messages, SentOnTime(src, t, t)) == 0
  {
    CountNone(src.messages, SentOnTime(src, t, t));
  }

  lemma {:induction false} FilledInstallationSum(src: Source, t: int)
    requires UniqueIds(src) && UsersHaveRealms(src) && OnGrid(t, Hour) && Epoch(src) <= t
    ensures ValueSum(Filled(MessagesSentByIsBot, src, t, InstallationTable))
      == Count(src.messages, SentOnTime(src, Epoch(src), t))
    decreases t - Epoch(src)
  {
    hide TableRows, SentOnTime, UniqueIds, UsersHaveRealms, OnGrid, Count;
    if t == Epoch(src) {
      NothingOnTime(src, t);
    } else {
      DayIsOnHourGrid(Epoch(src), Hour);
      GridGap(Epoch(src), t, Hour);
      GridStep(t, Hour);
      FilledInstallationSum(src, t - HOUR);
      HourlyInstallationSum(src, t);
      ValueSumConcat(Filled(MessagesSentByIsBot, src, t - HOUR, InstallationTable),
        TableRows(MessagesSentByIsBot, src, t, InstallationTable));
      OnTimeTiles(src, Epoch(src), t - HOUR, t);
    }
  }

  function UpTo(rows: seq<Row>, t: int): seq<Row> {
    if rows == [] then []
    else if rows[0].endTime <= t then [rows[0]] + UpTo(rows[1..], t)
    else UpTo(rows[1..], t)
  }

  lemma {:induction false} UpToAll(rows: seq<Row>, t: int)
    requires forall r :: r in rows ==> r.endTime <= t
    ensures UpTo(rows, t) == rows
  {
    if rows != [] {
      assert rows[0] in rows && forall r :: r in rows[1..] ==> r in rows;
      UpToAll(rows[1..], t);
    }
  }

  lemma {:induction false} UpToNone(rows: seq<Row>, t: int)
    requires forall r :: r in rows ==> r.endTime > t
    ensures UpTo(rows, t) == []
  {
    if rows != [] {
      assert rows[0] in rows && forall r :: r in rows[1..] ==> r in rows;
      UpToNone(rows[1..], t);
    }
  }

  lemma {:induction false} UpToConcat(a: seq<Row>, b: seq<Row>, t: int)
    ensures UpTo(a + b, t) == UpTo(a, t) + UpTo(b, t)
  {
    if a == [] {
      assert a + b == b;
    } else {
      assert (a + b)[1..] == a[1..] + b;
      UpToConcat(a[1..], b, t);
    }
  }

  lemma {:induction false} FilledEndTimes(stat: CountStat, src: Source, t: int, k: TableName)
    ensures forall r :: r in Filled(stat, src, t, k) ==> r.endTime <= t
    decreases t - Epoch(src)
  {
    hide TableRows;
    if t > Epoch(src) {
      FilledEndTimes(stat, src, t - stat.Step(), k);
      TableRowsStamped(stat, src, t, k);
    }
  }

  /** The completed part of a table, also when the next end_time is half written. */
  lemma CompletedView(s: State, stat: CountStat, k: TableName)
    requires Exact(s, stat) && stat in s.db.fills && k in stat.UndoTables()
    ensures var t := Completed(s.db.fills[stat], stat); UpTo(Of(s.db.Table(k), stat), t) == Filled(stat, s.src, t, k)
  {
    hide TableRows, Filled, Of, LogOk, ViewsOk, Safe;
    ManagedView(s, stat, k);
    var f := s.db.fills[stat];
    var t := Completed(f, stat);
    FilledEndTimes(stat, s.src, t, k);
    UpToAll(Filled(stat, s.src, t, k), t);
    if f.phase.Started? {
      TableRowsStamped(stat, s.src, f.endTime, k);
      UpToNone(TableRows(stat, s.src, f.endTime, k), t);
      UpToConcat(Filled(stat, s.src, t, k), TableRows(stat, s.src, f.endTime, k), t);
    }
  }

  lemma CompletedIsOnGrid(s: State, stat: CountStat)
    requires Safe(s) && stat in s.db.fills
    ensures OnGrid(Completed(s.db.fills[stat], stat), stat.Frequency())
      && Epoch(s.src) <= Completed(s.db.fills[stat], stat)
  {
    hide OnGrid;
    var f := s.db.fills[stat];
    DayIsOnHourGrid(Epoch(s.src), stat.Frequency());
    GridStep(f.endTime, stat.Frequency());
    if f.phase.Started? { GridGap(Epoch(s.src), f.endTime, stat.Frequency()); }
  }

  /** In every reachable state the InstallationCount values of messages_sent:is_bot:hour, over all
      completed hours and subgroups, sum to the number of messages from the epoch to the last
      completed hour whose sender had joined by the end of the hour, each counted once. So they sum
      to the number of all messages if and only if every sender had, as when nobody sends before
      joining. */
  lemma ExactlyOnce(src: Source, es: seq<Event>)
    requires Stable(src, es, MessagesSentByIsBot) && MessagesSentByIsBot in Reach(src, es).db.fills
    requires UniqueIds(Reach(src, es).src) && UsersHaveRealms(Reach(src, es).src)
    ensures var s := Reach(src, es);
      var last := Completed(s.db.fills[MessagesSentByIsBot], MessagesSentByIsBot);
      var total := ValueSum(UpTo(Of(s.db.installation, MessagesSentByIsBot), last));
      && total == Count(s.src.messages, SentOnTime(s.src, Epoch(s.src), last))
      && (total == Count(s.src.messages, SentIn(Epoch(s.src), last))
          <==> forall m :: m in s.src.messages && InWindow(m.pubDate, Epoch(s.src), last) ==>
            JoinedBy(s.src, m, HourEnd(m.pubDate)))
    ensures Reach(src, es).src.realms != [] ==> IsFirstDay(Epoch(Reach(src, es).src), Reach(src, es).src.realms)
    ensures forall m, realm :: m in Reach(src, es).src.messages && realm in Reach(src, es).src.realms ==>
      realm.dateCreated <= m.pubDate ==> Epoch(Reach(src, es).src) <= m.pubDate
  {
    hide Reach, Stable, ViewsOk, LogOk, OnGrid, FillOk, JoinedBy, HourEnd;
    var s := Reach(src, es);
    var last := Completed(s.db.fills[MessagesSentByIsBot], MessagesSentByIsBot);
    ReachIsExact(src, es, MessagesSentByIsBot);
    CompletedIsOnGrid(s, MessagesSentByIsBot);
    CompletedView(s, MessagesSentByIsBot, InstallationTable);
    FilledInstallationSum(s.src, last);
    OnTimeExactlyWhen(s.src, Epoch(s.src), last);
    if s.src.realms != [] { EpochIsFirstDay(s.src); }
  }

  lemma OnTimeExactlyWhen(src: Source, start: int, end: int)
    ensures Count(src.messages, SentOnTime(src, start, end)) == Count(src.messages, SentIn(start, end))
      <==> forall m :: m in src.messages && InWindow(m.pubDate, start, end) ==> JoinedBy(src, m, HourEnd(m.pubDate))
  {
    hide JoinedBy, HourEnd;
    var missed := (m: Message) => InWindow(m.pubDate, start, end) && !JoinedBy(src, m, HourEnd(m.pubDate));
    CountSplit(src.messages, SentIn(start, end), SentOnTime(src, start, end), missed);
    CountZero(src.messages, missed);
  }

  /** The case the documentation has in mind. */
  lemma EveryMessageOnce(src: Source, es: seq<Event>)
    requires Stable(src, es, MessagesSentByIsBot) && MessagesSentByIsBot in Reach(src, es).db.fills
    requires var now := Reach(src, es).src;
      UniqueIds(now) && UsersHaveRealms(now) && SendersExist(now) && JoinedBeforeSending(now)
    ensures var s := Reach(src, es);
      var last := Completed(s.db.fills[MessagesSentByIsBot], MessagesSentByIsBot);
      ValueSum(UpTo(Of(s.db.installation, MessagesSentByIsBot), last))
        == Count(s.src.messages, SentIn(Epoch(s.src), last))
  {
    hide Reach, Stable, UniqueIds, UsersHaveRealms, Floor;
    var now := Reach(src, es).src;
    ExactlyOnce(src, es);
    forall m | m in now.messages ensures JoinedBy(now, m, HourEnd(m.pubDate)) {
      var u :| u in now.users && u.id == m.sender;
    }
  }

  // ----- the three message stats agree

  lemma UserCounted(src: Source, u: User, g: MessageGrouping, start: int, end: int)
    requires UniqueIds(src) && u in src.users
    ensures Count(src.messages, Counted(src.users, g, start, end, OfUser(u.id)))
      == Count(src.messages, SentJoined(u, start, end))
  {
    var counted := Counted(src.users, g, start, end, OfUser(u.id));
    forall m | m in src.messages ensures counted(m) == SentJoined(u, start, end)(m) {
      if SentJoined(u, start, end)(m) { assert CountedOf(u, m, g, start, end, OfUser(u.id)); }
      if v :| v in src.users && CountedOf(v, m, g, start, end, OfUser(u.id)) { SameUser(src.users, u, v); }
    }
    CountSame(src.messages, counted, SentJoined(u, start, end));
  }

  lemma UserCountedTyped(src: Source, u: User, start: int, end: int)
    requires UniqueIds(src) && RecipientsExist(src) && u in src.users
    ensures Count(src.messages, CountedTyped(src.users, src.recipients, src.streams, start, end, OfUser(u.id)))
      == Count(src.messages, SentBy(u.id, start, end))
  {
    var counted := CountedTyped(src.users, src.recipients, src.streams, start, end, OfUser(u.id));
    forall m | m in src.messages ensures counted(m) == SentBy(u.id, start, end)(m) {
      if SentBy(u.id, start, end)(m) {
        var r :| r in src.recipients && r.id == m.recipient;
        assert TypedBy(u, m, r, src.streams, start, end, OfUser(u.id));
        assert TypedOf(u, m, src.recipients, src.streams, start, end, OfUser(u.id));
      }
    }
    CountSame(src.messages, counted, SentBy(u.id, start, end));
  }

  /** The user's hourly counts over the n hours up to t. */
  function HourlySum(table: seq<Row>, user: int, t: int, n: nat): int
    decreases n
  {
    if n == 0 then 0
    else HourlySum(table, user, t - HOUR, n - 1) + RowSum(At(table, MessagesSentByIsBot, t), OfUser(user))
  }

  lemma HourCounts(s: State, u: User, t: int)
    requires Exact(s, MessagesSentByIsBot) && MessagesSentByIsBot in s.db.fills
    requires UniqueIds(s.src) && u in s.src.users
    requires OnGrid(t, Hour) && Epoch(s.src) < t <= Completed(s.db.fills[MessagesSentByIsBot], MessagesSentByIsBot)
    ensures RowSum(At(s.db.user, MessagesSentByIsBot, t), OfUser(u.id))
      == Count(s.src.messages, SentOnceJoined(u, t - HOUR, t))
  {
    hide Exact, OnGrid, At, RowSum, BaseRows, HourEnd;
    CompletedRows(s, MessagesSentByIsBot, t, UserTable);
    UserBaseCount(MessagesSentByIsBot, s.src, t, OfUser(u.id));
    UserCounted(s.src, u, ByIsBot, t - HOUR, t);
    forall m | m in s.src.messages ensures SentJoined(u, t - HOUR, t)(m) == SentOnceJoined(u, t - HOUR, t)(m) {
      HourEnds(m.pubDate, t);
    }
    CountSame(s.src.messages, SentJoined(u, t - HOUR, t), SentOnceJoined(u, t - HOUR, t));
  }

  lemma {:induction false} HourlySumCounts(s: State, u: User, start: int, t: int, n: nat)
    requires Exact(s, MessagesSentByIsBot) && MessagesSentByIsBot in s.db.fills
    requires UniqueIds(s.src) && u in s.src.users
    requires OnGrid(t, Hour) && Epoch(s.src) <= start && t == start + n * HOUR
    requires t <= Completed(s.db.fills[MessagesSentByIsBot], MessagesSentByIsBot)
    ensures HourlySum(s.db.user, u.id, t, n) == Count(s.src.messages, SentOnceJoined(u, start, t))
    decreases n
  {
    hide Exact, OnGrid, At, RowSum, UniqueIds, HourEnd;
    if n == 0 {
      CountNone(s.src.messages, SentOnceJoined(u, start, t));
    } else {
      GridStep(t, Hour);
      HourlySumCounts(s, u, start, t - HOUR, n - 1);
      HourCounts(s, u, t);
      CountSplit(s.src.messages, SentOnceJoined(u, start, t), SentOnceJoined(u, start, t - HOUR),
        SentOnceJoined(u, t - HOUR, t));
    }
  }

  ghost predicate DayCompleted(s: State, stat: CountStat, day: int) {
    Exact(s, stat) && stat in s.db.fills && OnGrid(day, Day) && Epoch(s.src) < day <= Completed(s.db.fills[stat], stat)
  }

  /** What the three stats hold for a user and a completed day, on any source. */
  lemma HourlyDayCount(s: State, u: User, day: int)
    requires DayCompleted(s, MessagesSentByIsBot, day) && UniqueIds(s.src) && u in s.src.users
    ensures HourlySum(s.db.user, u.id, day, 24) == Count(s.src.messages, SentOnceJoined(u, day - DAY, day))
  {
    hide Exact, OnGrid, HourlySum, HourEnd;
    DayIsOnHourGrid(day, Hour);
    DayIsOnHourGrid(Epoch(s.src), Day);
    GridGap(Epoch(s.src), day, Day);
    HourlySumCounts(s, u, day - DAY, day, 24);
  }

  lemma ClientDayCount(s: State, u: User, day: int)
    requires DayCompleted(s, MessagesSentByClient, day) && UniqueIds(s.src) && u in s.src.users
    ensures RowSum(At(s.db.user, MessagesSentByClient, day), OfUser(u.id))
      == Count(s.src.messages, SentJoined(u, day - DAY, day))
  {
    hide Exact, OnGrid, At, RowSum, BaseRows;
    CompletedRows(s, MessagesSentByClient, day, UserTable);
    UserBaseCount(MessagesSentByClient, s.src, day, OfUser(u.id));
    UserCounted(s.src, u, ByClient, day - DAY, day);
  }

  lemma TypeDayCount(s: State, u: User, day: int)
    requires DayCompleted(s, MessagesSentByType, day) && UniqueIds(s.src) && RecipientsExist(s.src) && u in s.src.users
    ensures RowSum(At(s.db.user, MessagesSentByType, day), OfUser(u.id))
      == Count(s.src.messages, SentBy(u.id, day - DAY, day))
  {
    hide Exact, OnGrid, At, RowSum, BaseRows;
    CompletedRows(s, MessagesSentByType, day, UserTable);
    TypeBaseCount(s.src, day, OfUser(u.id));
    UserCountedTyped(s.src, u, day - DAY, day);
  }

  /** The user had joined by the end of the hour of each of the day's messages. */
  ghost predicate JoinedByTheHour(src: Source, u: User, day: int) {
    forall m :: m in src.messages && SentBy(u.id, day - DAY, day)(m) ==> u.dateJoined < HourEnd(m.pubDate)
  }

  ghost predicate SentNothing(src: Source, u: User, day: int) {
    forall m :: m in src.messages ==> !SentBy(u.id, day - DAY, day)(m)
  }

  lemma OnceJoinedExactlyWhen(src: Source, u: User, day: int)
    requires OnGrid(day, Day)
    ensures Count(src.messages, SentOnceJoined(u, day - DAY, day)) == Count(src.messages, SentBy(u.id, day - DAY, day))
      <==> JoinedByTheHour(src, u, day)
    ensures u.dateJoined >= day ==> Count(src.messages, SentOnceJoined(u, day - DAY, day)) == 0
  {
    hide HourEnd;
    var missed := (m: Message) => SentBy(u.id, day - DAY, day)(m) && u.dateJoined >= HourEnd(m.pubDate);
    CountSplit(src.messages, SentBy(u.id, day - DAY, day), SentOnceJoined(u, day - DAY, day), missed);
    CountZero(src.messages, missed);
    CountZero(src.messages, SentOnceJoined(u, day - DAY, day));
    DayIsOnHourGrid(day, Hour);
    forall m | m in src.messages && InWindow(m.pubDate, day - DAY, day)
      ensures HourEnd(m.pubDate) <= day
    {
      HourEnds(m.pubDate, day);
    }
  }

  lemma JoinedExactlyWhen(src: Source, u: User, day: int)
    ensures Count(src.messages, SentJoined(u, day - DAY, day)) == Count(src.messages, SentBy(u.id, day - DAY, day))
      <==> u.dateJoined < day || SentNothing(src, u, day)
    ensures u.dateJoined >= day ==> Count(src.messages, SentJoined(u, day - DAY, day)) == 0
  {
    CountZero(src.messages, SentBy(u.id, day - DAY, day));
    if u.dateJoined < day {
      CountSame(src.messages, SentJoined(u, day - DAY, day), SentBy(u.id, day - DAY, day));
    } else {
      CountNone(src.messages, SentJoined(u, day - DAY, day));
    }
  }

  /** For every user and completed day, exactly when the 24 hourly is_bot counts, the per-client
      counts and the per-type counts sum to the same number. The by-user query tests date_joined
      against the end of its window and the by-type query does not, and do_activate_user moves
      date_joined, so a backlog can be filled after a message's sender has "joined" again. */
  lemma CrossStatAgreement(s: State, u: User, day: int)
    requires DayCompleted(s, MessagesSentByIsBot, day) && DayCompleted(s, MessagesSentByClient, day)
    requires DayCompleted(s, MessagesSentByType, day)
    requires UniqueIds(s.src) && RecipientsExist(s.src) && u in s.src.users
    ensures var hourly := HourlySum(s.db.user, u.id, day, 24);
      var byClient := RowSum(At(s.db.user, MessagesSentByClient, day), OfUser(u.id));
      var byType := RowSum(At(s.db.user, MessagesSentByType, day), OfUser(u.id));
      && byType == Count(s.src.messages, SentBy(u.id, day - DAY, day))
      && (hourly == byType <==> JoinedByTheHour(s.src, u, day))
      && (byClient == byType <==> u.dateJoined < day || SentNothing(s.src, u, day))
      && (hourly == byClient <==> day <= u.dateJoined || JoinedByTheHour(s.src, u, day))
  {
    hide Exact, At, HourlySum, RowSum, JoinedByTheHour, SentNothing, UniqueIds;
    HourlyDayCount(s, u, day);
    ClientDayCount(s, u, day);
    TypeDayCount(s, u, day);
    OnceJoinedExactlyWhen(s.src, u, day);
    JoinedExactlyWhen(s.src, u, day);
  }

  // ----- single values

  /** The value stored for a user and a message type is the number of the user's messages of that type. */
  lemma TypeCount(s: State, u: User, kind: string, day: int)
    requires DayCompleted(s, MessagesSentByType, day) && UniqueIds(s.src) && u in s.src.users
    ensures SlotSum(At(s.db.user, MessagesSentByType, day), Slot(UserKey(u.id, u.realm), Text(kind)))
      == Count(s.src.messages, SentTyped(u.id, kind, s.src, day - DAY, day))
  {
    hide Exact, OnGrid, At, RowSum, BaseRows;
    var slot, src := Slot(UserKey(u.id, u.realm), Text(kind)), s.src;
    CompletedRows(s, MessagesSentByType, day, UserTable);
    SlotIsRowSum(At(s.db.user, MessagesSentByType, day), slot);
    TypeBaseCount(src, day, Exactly(slot));
    var counted := CountedTyped(src.users, src.recipients, src.streams, day - DAY, day, Exactly(slot));
    forall m | m in src.messages ensures counted(m) == SentTyped(u.id, kind, src, day - DAY, day)(m) {
      TypedSlot(src, u, kind, m, day - DAY, day);
    }
    CountSame(src.messages, counted, SentTyped(u.id, kind, src, day - DAY, day));
  }

  lemma TypedSlot(src: Source, u: User, kind: string, m: Message, start: int, end: int)
    requires u in src.users
    ensures TypedIn(src.users, m, src.recipients, src.streams, start, end,
      Exactly(Slot(UserKey(u.id, u.realm), Text(kind))))
      <==> m.sender == u.id && InWindow(m.pubDate, start, end) && HasType(m, kind, src)
  {
    var p := Exactly(Slot(UserKey(u.id, u.realm), Text(kind)));
    if m.sender == u.id && InWindow(m.pubDate, start, end) && HasType(m, kind, src) {
      var r :| r in src.recipients && r.id == m.recipient && TypeOf(r, src.streams) == kind;
      assert TypedBy(u, m, r, src.streams, start, end, p);
      assert TypedOf(u, m, src.recipients, src.streams, start, end, p);
    }
    if TypedIn(src.users, m, src.recipients, src.streams, start, end, p) {
      var v :| v in src.users && TypedOf(v, m, src.recipients, src.streams, start, end, p);
      var r :| r in src.recipients && TypedBy(v, m, r, src.streams, start, end, p);
      assert Slot(UserKey(v.id, v.realm), Text(TypeOf(r, src.streams))) == Slot(UserKey(u.id, u.realm), Text(kind));
    }
  }

  /** The value stored for a user and a client is the number of messages sent through that client,
      once the user has joined. */
  lemma ClientCount(s: State, u: User, client: int, day: int)
    requires DayCompleted(s, MessagesSentByClient, day) && UniqueIds(s.src) && u in s.src.users
    ensures SlotSum(At(s.db.user, MessagesSentByClient, day), Slot(UserKey(u.id, u.realm), Text(Decimal.Str(client))))
      == if u.dateJoined < day then Count(s.src.messages, SentWith(u.id, client, day - DAY, day)) else 0
  {
    hide Exact, OnGrid, At, RowSum, BaseRows, UniqueIds;
    var slot, src := Slot(UserKey(u.id, u.realm), Text(Decimal.Str(client))), s.src;
    CompletedRows(s, MessagesSentByClient, day, UserTable);
    SlotIsRowSum(At(s.db.user, MessagesSentByClient, day), slot);
    UserBaseCount(MessagesSentByClient, src, day, Exactly(slot));
    var counted := Counted(src.users, ByClient, day - DAY, day, Exactly(slot));
    forall m | m in src.messages
      ensures counted(m) == (u.dateJoined < day && SentWith(u.id, client, day - DAY, day)(m))
    {
      ClientSlot(src, u, client, m, day - DAY, day);
    }
    if u.dateJoined < day {
      CountSame(src.messages, counted, SentWith(u.id, client, day - DAY, day));
    } else {
      CountNone(src.messages, counted);
    }
  }

  lemma ClientSlot(src: Source, u: User, client: int, m: Message, start: int, end: int)
    requires u in src.users && UniqueIds(src)
    ensures CountedIn(src.users, m, ByClient, start, end,
      Exactly(Slot(UserKey(u.id, u.realm), Text(Decimal.Str(client)))))
      <==> m.sender == u.id && m.client == client && u.dateJoined < end && InWindow(m.pubDate, start, end)
  {
    hide Decimal.Str;
    var slot := Slot(UserKey(u.id, u.realm), Text(Decimal.Str(client)));
    if m.sender == u.id && m.client == client && u.dateJoined < end && InWindow(m.pubDate, start, end) {
      assert CountedOf(u, m, ByClient, start, end, Exactly(slot));
    }
    if v :| v in src.users && CountedOf(v, m, ByClient, start, end, Exactly(slot)) {
      assert SentSlot(v, m, ByClient) == slot;
      SameUser(src.users, u, v);
      Decimal.StrInjective(m.client, client);
    }
  }

  /** The value stored for a user and is_bot. */
  lemma UserHourCount(s: State, u: User, isBot: bool, t: int)
    requires Exact(s, MessagesSentByIsBot) && MessagesSentByIsBot in s.db.fills && OnGrid(t, Hour)
    requires Epoch(s.src) < t <= Completed(s.db.fills[MessagesSentByIsBot], MessagesSentByIsBot)
    requires UniqueIds(s.src) && u in s.src.users
    ensures SlotSum(At(s.db.user, MessagesSentByIsBot, t), Slot(UserKey(u.id, u.realm), BoolText(isBot)))
      == if u.isBot == isBot && u.dateJoined < t then Count(s.src.messages, SentBy(u.id, t - HOUR, t)) else 0
  {
    hide Exact, OnGrid, At, RowSum, BaseRows, SlotSum, UniqueIds;
    var slot, src := Slot(UserKey(u.id, u.realm), BoolText(isBot)), s.src;
    CompletedRows(s, MessagesSentByIsBot, t, UserTable);
    SlotIsRowSum(At(s.db.user, MessagesSentByIsBot, t), slot);
    UserBaseCount(MessagesSentByIsBot, src, t, Exactly(slot));
    var counted := Counted(src.users, ByIsBot, t - HOUR, t, Exactly(slot));
    forall m | m in src.messages
      ensures counted(m) == (u.isBot == isBot && u.dateJoined < t && SentBy(u.id, t - HOUR, t)(m))
    {
      BotSlot(src, u, isBot, m, t - HOUR, t);
    }
    if u.isBot == isBot && u.dateJoined < t {
      CountSame(src.messages, counted, SentBy(u.id, t - HOUR, t));
    } else {
      CountNone(src.messages, counted);
    }
  }

  lemma BotSlot(src: Source, u: User, isBot: bool, m: Message, start: int, end: int)
    requires u in src.users && UniqueIds(src)
    ensures CountedIn(src.users, m, ByIsBot, start, end, Exactly(Slot(UserKey(u.id, u.realm), BoolText(isBot))))
      <==> u.isBot == isBot && m.sender == u.id && u.dateJoined < end && InWindow(m.pubDate, start, end)
  {
    var slot := Slot(UserKey(u.id, u.realm), BoolText(isBot));
    assert BoolText(true).text[0] != BoolText(false).text[0];
    if u.isBot == isBot && m.sender == u.id && u.dateJoined < end && InWindow(m.pubDate, start, end) {
      assert CountedOf(u, m, ByIsBot, start, end, Exactly(slot));
    }
    if v :| v in src.users && CountedOf(v, m, ByIsBot, start, end, Exactly(slot)) {
      assert SentSlot(v, m, ByIsBot) == slot;
      SameUser(src.users, u, v);
    }
  }

  // ----- values of RealmCount

  /** A completed RealmCount value is the sum over the realm's slots of the query's rows. */
  lemma RealmValue(s: State, stat: CountStat, realm: Realm, g: Subgroup, t: int)
    requires Exact(s, stat) && stat in s.db.fills && OnGrid(t, stat.Frequency()) && stat.Output() != RealmTable
    requires Epoch(s.src) < t <= Completed(s.db.fills[stat], stat)
    requires UniqueIds(s.src) && realm in s.src.realms
    ensures SlotSum(At(s.db.realm, stat, t), Slot(RealmKey(realm.id), g))
      == RowSum(BaseRows(stat, s.src, t), OfRealm(realm.id, g))
  {
    hide Exact, OnGrid, At, RowSum, RealmRollup, SlotSum, RealmSum, BaseRows;
    CompletedRows(s, stat, t, RealmTable);
    BaseRowsStamped(stat, s.src, t);
    SelectStamped(BaseRows(stat, s.src, t), stat, t, stat, t);
    RealmRollupSpec(s.src.realms, BaseRows(stat, s.src, t), stat, t, realm, g);
    RealmIsRowSum(BaseRows(stat, s.src, t), realm.id, g);
  }

  /** messages_sent:is_bot:hour: the messages that the realm's bots, or its humans, sent. */
  lemma RealmHourCount(s: State, realm: Realm, isBot: bool, t: int)
    requires Exact(s, MessagesSentByIsBot) && MessagesSentByIsBot in s.db.fills && OnGrid(t, Hour)
    requires Epoch(s.src) < t <= Completed(s.db.fills[MessagesSentByIsBot], MessagesSentByIsBot)
    requires UniqueIds(s.src) && realm in s.src.realms
    ensures SlotSum(At(s.db.realm, MessagesSentByIsBot, t), Slot(RealmKey(realm.id), BoolText(isBot)))
      == Count(s.src.messages, SentInRealm(s.src.users, realm.id, isBot, t - HOUR, t))
  {
    hide Exact, OnGrid, At, RowSum, SlotSum, BaseRows;
    var src, p := s.src, OfRealm(realm.id, BoolText(isBot));
    RealmValue(s, MessagesSentByIsBot, realm, BoolText(isBot), t);
    UserBaseCount(MessagesSentByIsBot, src, t, p);
    var counted, sent := Counted(src.users, ByIsBot, t - HOUR, t, p),
      SentInRealm(src.users, realm.id, isBot, t - HOUR, t);
    forall m | m in src.messages ensures counted(m) == sent(m) { RealmSlot(src, realm.id, isBot, m, t - HOUR, t); }
    CountSame(src.messages, counted, sent);
  }

  lemma RealmSlot(src: Source, realm: int, isBot: bool, m: Message, start: int, end: int)
    ensures CountedIn(src.users, m, ByIsBot, start, end, OfRealm(realm, BoolText(isBot)))
      <==> InWindow(m.pubDate, start, end) && SentFrom(m, src.users, JoinedBots(realm, isBot, end))
  {
    var p := OfRealm(realm, BoolText(isBot));
    assert BoolText(true).text != BoolText(false).text;
    if InWindow(m.pubDate, start, end) && SentFrom(m, src.users, JoinedBots(realm, isBot, end)) {
      var u :| u in src.users && u.id == m.sender && JoinedBots(realm, isBot, end)(u);
      assert CountedOf(u, m, ByIsBot, start, end, p);
    }
    if u :| u in src.users && CountedOf(u, m, ByIsBot, start, end, p) {
      assert JoinedBots(realm, isBot, end)(u);
    }
  }

  /** messages_sent:client:day: the messages that the realm's users sent through the client. */
  lemma RealmClientCount(s: State, realm: Realm, client: int, day: int)
    requires DayCompleted(s, MessagesSentByClient, day) && UniqueIds(s.src) && realm in s.src.realms
    ensures SlotSum(At(s.db.realm, MessagesSentByClient, day), Slot(RealmKey(realm.id), Text(Decimal.Str(client))))
      == Count(s.src.messages, SentInRealmWith(s.src.users, realm.id, client, day - DAY, day))
  {
    hide Exact, OnGrid, At, RowSum, SlotSum, BaseRows;
    var src, p := s.src, OfRealm(realm.id, Text(Decimal.Str(client)));
    RealmValue(s, MessagesSentByClient, realm, Text(Decimal.Str(client)), day);
    UserBaseCount(MessagesSentByClient, src, day, p);
    var counted, sent := Counted(src.users, ByClient, day - DAY, day, p),
      SentInRealmWith(src.users, realm.id, client, day - DAY, day);
    forall m | m in src.messages
      ensures counted(m) == sent(m)
    {
      RealmClientSlot(src, realm.id, client, m, day - DAY, day);
    }
    CountSame(src.messages, counted, sent);
  }

  lemma RealmClientSlot(src: Source, realm: int, client: int, m: Message, start: int, end: int)
    ensures CountedIn(src.users, m, ByClient, start, end, OfRealm(realm, Text(Decimal.Str(client))))
      <==> InWindow(m.pubDate, start, end) && m.client == client && SentFrom(m, src.users, JoinedOf(realm, end))
  {
    hide Decimal.Str;
    var p := OfRealm(realm, Text(Decimal.Str(client)));
    if InWindow(m.pubDate, start, end) && m.client == client && SentFrom(m, src.users, JoinedOf(realm, end)) {
      var u :| u in src.users && u.id == m.sender && JoinedOf(realm, end)(u);
      assert CountedOf(u, m, ByClient, start, end, p);
    }
    if u :| u in src.users && CountedOf(u, m, ByClient, start, end, p) {
      assert JoinedOf(realm, end)(u);
      Decimal.StrInjective(m.client, client);
    }
  }

  /** messages_sent:message_type:day: the messages of the type that the realm's users sent. */
  lemma RealmTypeCount(s: State, realm: Realm, kind: string, day: int)
    requires DayCompleted(s, MessagesSentByType, day) && UniqueIds(s.src) && realm in s.src.realms
    ensures SlotSum(At(s.db.realm, MessagesSentByType, day), Slot(RealmKey(realm.id), Text(kind)))
      == Count(s.src.messages, SentInRealmTyped(s.src, realm.id, kind, day - DAY, day))
  {
    hide Exact, OnGrid, At, RowSum, SlotSum, BaseRows;
    var src, p := s.src, OfRealm(realm.id, Text(kind));
    RealmValue(s, MessagesSentByType, realm, Text(kind), day);
    TypeBaseCount(src, day, p);
    var counted := CountedTyped(src.users, src.recipients, src.streams, day - DAY, day, p);
    var sent := SentInRealmTyped(src, realm.id, kind, day - DAY, day);
    forall m | m in src.messages
      ensures counted(m) == sent(m)
    {
      RealmTypedSlot(src, realm.id, kind, m, day - DAY, day);
    }
    CountSame(src.messages, counted, sent);
  }

  lemma RealmTypedSlot(src: Source, realm: int, kind: string, m: Message, start: int, end: int)
    ensures TypedIn(src.users, m, src.recipients, src.streams, start, end, OfRealm(realm, Text(kind)))
      <==> InWindow(m.pubDate, start, end) && HasType(m, kind, src) && SentFrom(m, src.users, AllOf(realm))
  {
    var p := OfRealm(realm, Text(kind));
    if InWindow(m.pubDate, start, end) && HasType(m, kind, src) && SentFrom(m, src.users, AllOf(realm)) {
      var u :| u in src.users && u.id == m.sender && AllOf(realm)(u);
      var r :| r in src.recipients && r.id == m.recipient && TypeOf(r, src.streams) == kind;
      assert TypedBy(u, m, r, src.streams, start, end, p);
      assert TypedOf(u, m, src.recipients, src.streams, start, end, p);
    }
    if u :| u in src.users && TypedOf(u, m, src.recipients, src.streams, start, end, p) {
      var r :| r in src.recipients && TypedBy(u, m, r, src.streams, start, end, p);
      assert AllOf(realm)(u) && TypeOf(r, src.streams) == kind;
    }
  }

  // ----- values of StreamCount

  ghost predicate ToStream(m: Message, st: Stream, recipients: seq<Recipient>) {
    exists r :: r in recipients && r.id == m.recipient && r.kind == STREAM && r.typeId == st.id
  }

  function Bots(isBot: bool): User -> bool { (u: User) => u.isBot == isBot }

  ghost function SentToThe(st: Stream, src: Source, isBot: bool, start: int, end: int): Message -> bool {
    (m: Message) => InWindow(m.pubDate, start, end) && ToStream(m, st, src.recipients)
      && SentFrom(m, src.users, Bots(isBot))
  }

  /** The value stored for a stream and is_bot is the number of messages that bots, or humans,
      sent to the stream, once it exists. */
  lemma StreamCount(s: State, st: Stream, isBot: bool, day: int)
    requires DayCompleted(s, MessagesInStreamByIsBot, day) && UniqueIds(s.src) && st in s.src.streams
    ensures SlotSum(At(s.db.stream, MessagesInStreamByIsBot, day), Slot(StreamKey(st.id, st.realm), BoolText(isBot)))
      == if st.dateCreated < day then Count(s.src.messages, SentToThe(st, s.src, isBot, day - DAY, day)) else 0
  {
    hide Exact, OnGrid, At, RowSum, BaseRows, SlotSum, UniqueIds;
    var slot, src := Slot(StreamKey(st.id, st.realm), BoolText(isBot)), s.src;
    CompletedRows(s, MessagesInStreamByIsBot, day, StreamTable);
    SlotIsRowSum(At(s.db.stream, MessagesInStreamByIsBot, day), slot);
    StreamBaseCount(src, day, Exactly(slot));
    var counted := CountedInStreams(src.streams, src.recipients, src.users, day - DAY, day, Exactly(slot));
    forall m | m in src.messages
      ensures counted(m) == (st.dateCreated < day && SentToThe(st, src, isBot, day - DAY, day)(m))
    {
      StreamSlot(src, st, isBot, m, day - DAY, day);
    }
    if st.dateCreated < day {
      CountSame(src.messages, counted, SentToThe(st, src, isBot, day - DAY, day));
    } else {
      CountNone(src.messages, counted);
    }
  }

  lemma StreamBaseCount(src: Source, t: int, p: Slot -> bool)
    requires UniqueIds(src)
    ensures RowSum(BaseRows(MessagesInStreamByIsBot, src, t), p)
      == Count(src.messages, CountedInStreams(src.streams, src.recipients, src.users, t - DAY, t, p))
  {
    hide JoinStreamMessages, Stamp, GroupSum;
    var es := JoinStreamMessages(src.streams, src.recipients, src.messages, src.users, t - DAY, t);
    StreamJoinCountsMessages(src.streams, src.recipients, src.messages, src.users, t - DAY, t, p);
    GroupSumWhere(es, p);
    StampSums(GroupSum(es), MessagesInStreamByIsBot, t, p);
  }

  lemma SameStream(ss: seq<Stream>, a: Stream, b: Stream)
    requires UniqueStreams(ss) && a in ss && b in ss && a.id == b.id
    ensures a == b
  {
    var i :| 0 <= i < |ss| && ss[i] == a;
    var j :| 0 <= j < |ss| && ss[j] == b;
    assert i == j;
  }

  lemma StreamSlot(src: Source, st: Stream, isBot: bool, m: Message, start: int, end: int)
    requires UniqueIds(src) && st in src.streams
    ensures SentToStreams(src.streams, src.recipients, m, src.users, start, end,
      Exactly(Slot(StreamKey(st.id, st.realm), BoolText(isBot))))
      <==> (st.dateCreated < end && SentToThe(st, src, isBot, start, end)(m))
  {
    var p := Exactly(Slot(StreamKey(st.id, st.realm), BoolText(isBot)));
    assert BoolText(true).text[0] != BoolText(false).text[0];
    if st.dateCreated < end && SentToThe(st, src, isBot, start, end)(m) {
      var r :| r in src.recipients && r.id == m.recipient && r.kind == STREAM && r.typeId == st.id;
      var u :| u in src.users && u.id == m.sender && Bots(isBot)(u);
      assert StreamHit(st, m, u, p);
      assert SentVia(st, r, m, src.users, start, end, p);
      assert SentToStream(st, src.recipients, m, src.users, start, end, p);
    }
    if v :| v in src.streams && SentToStream(v, src.recipients, m, src.users, start, end, p) {
      var r :| r in src.recipients && SentVia(v, r, m, src.users, start, end, p);
      var u :| u in src.users && StreamHit(v, m, u, p);
      assert Slot(StreamKey(v.id, v.realm), BoolText(u.isBot)) == Slot(StreamKey(st.id, st.realm), BoolText(isBot));
      SameStream(src.streams, st, v);
      assert Bots(isBot)(u);
    }
  }
}
