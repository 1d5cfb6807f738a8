/** Every charted number is the direct count for its window. */
module ChartExactness {
  import opened TimeGrid
  import opened CountStats
  import opened CountTables
  import opened SourceData
  import opened Queries
  import opened FillMachine
  import opened FillSafety
  import opened FillSpec
  import opened FillExactness
  import opened FillRuns
  import opened Rollups
  import opened CrashRecovery
  import opened MessageCounts
  import opened MessageStats
  import opened ActiveUsers
  import opened ActiveUserStats
  import opened RowUniqueness
  import opened RowKeys
  import opened Charts
  import opened ClientLabels
  import opened ChartData

  predicate Matches(r: Row, table: TableName, id: int, stat: CountStat, g: Subgroup, t: int) {
    OwnKey(r.key, table, id) && r.stat == stat && r.subgroup == g && r.endTime == t
  }

  lemma {:induction false} QuerysetMembers(rows: seq<Row>, table: TableName, id: int, stat: CountStat, r: Row)
    ensures r in Queryset(rows, table, id, stat) <==> r in rows && OwnKey(r.key, table, id) && r.stat == stat
  {
    if rows != [] {
      QuerysetMembers(rows[1..], table, id, stat, r);
      assert rows == [rows[0]] + rows[1..];
    }
  }

  lemma {:induction false} LastValueSpec(rows: seq<Row>, g: Subgroup, t: int, value: int)
    requires forall r :: r in rows && r.subgroup == g && r.endTime == t ==> r.value == value
    ensures LastValue(rows, g, t) == if exists r :: r in rows && r.subgroup == g && r.endTime == t then value else 0
  {
    if rows != [] {
      var init, last := rows[..|rows| - 1], rows[|rows| - 1];
      assert rows == init + [last];
      assert forall r :: r in rows <==> r in init || r == last;
      LastValueSpec(init, g, t, value);
    }
  }

  /** When the rows are unique, overwriting entries of the nested dictionary loses nothing. */
  lemma ChartedValue(rows: seq<Row>, table: TableName, id: int, stat: CountStat, g: Subgroup, t: int, slot: Slot)
    requires UniqueRows(At(rows, stat, t)) && OwnKey(slot.key, table, id) && slot.subgroup == g
    requires forall r :: r in rows && Matches(r, table, id, stat, g, t) ==> r.key == slot.key
    ensures LastValue(Queryset(rows, table, id, stat), g, t) == SlotSum(At(rows, stat, t), slot)
  {
    hide Queryset, At, LastValue, UniqueRows;
    var value := SlotSum(At(rows, stat, t), slot);
    AtMembers(rows, stat, t, Row(slot.key, stat, g, t, 0));
    forall r | r in Queryset(rows, table, id, stat) && r.subgroup == g && r.endTime == t ensures r.value == value {
      QuerysetMembers(rows, table, id, stat, r);
      AtMembers(rows, stat, t, r);
      assert Matches(r, table, id, stat, g, t);
      UniqueRowValue(At(rows, stat, t), stat, t, r);
    }
    LastValueSpec(Queryset(rows, table, id, stat), g, t, value);
    if !exists r :: r in Queryset(rows, table, id, stat) && r.subgroup == g && r.endTime == t {
      forall r | r in At(rows, stat, t) ensures Slot(r.key, r.subgroup) != slot {
        AtMembers(rows, stat, t, r);
        QuerysetMembers(rows, table, id, stat, r);
      }
      AbsentSlot(At(rows, stat, t), slot);
    }
  }

  lemma UniqueAt(s: State, stat: CountStat, k: TableName, t: int)
    requires Exact(s, stat) && KeysAreSound(s.src)
    ensures UniqueRows(At(s.db.Table(k), stat, t))
  {
    hide Exact, KeysAreSound, UniqueRows, Of, At;
    NoRowTwice(s, stat, k);
    AtUnique(Of(s.db.Table(k), stat), stat, t);
    AtOf(s.db.Table(k), stat, t);
  }

  lemma RealmChartValue(s: State, stat: CountStat, realm: int, g: Subgroup, t: int)
    requires Exact(s, stat) && KeysAreSound(s.src)
    ensures LastValue(Queryset(s.db.realm, RealmTable, realm, stat), g, t)
      == SlotSum(At(s.db.realm, stat, t), Slot(RealmKey(realm), g))
  {
    hide Exact, KeysAreSound, UniqueRows, At, Queryset, LastValue;
    UniqueAt(s, stat, RealmTable, t);
    ChartedValue(s.db.realm, RealmTable, realm, stat, g, t, Slot(RealmKey(realm), g));
  }

  /** The end_times of a chart with the default end are completed, also while a later one is STARTED and
      also for a day stat, whose last_successful_fill is then off the day grid; and no completed end_time
      is left out. */
  lemma ChartedTimesAreCompleted(s: State, stat: CountStat, t: int)
    requires Safe(s) && stat in s.db.fills && OnGrid(t, stat.Frequency())
    ensures t <= Floor(LastSuccessfulFill(s.db.fills, stat).value, stat.Frequency())
      <==> t <= Completed(s.db.fills[stat], stat)
  {
    hide Floor, OnGrid;
    LastFillIsLastCompleted(s.db.fills, stat);
  }

  lemma WindowIsCompleted(s: State, stat: CountStat, times: seq<int>, start: int, minLength: Option<nat>)
    requires Safe(s) && IsWindow(times, s.db.fills, stat, start, None, minLength)
    ensures var last := Completed(s.db.fills[stat], stat);
      forall t :: t in times <==> IsShown(t, start, last, stat.Frequency(), minLength)
  {
    hide OnGrid;
  }

  /** A chart with the default end shows t among its end_times. */
  ghost predicate Charted(s: State, stat: CountStat, times: seq<int>, t: int) {
    stat in s.db.fills && t in times
    && exists start, minLength :: IsWindow(times, s.db.fills, stat, start, None, minLength)
  }

  lemma ChartedIsCompleted(s: State, stat: CountStat, times: seq<int>, t: int)
    requires Exact(s, stat) && Charted(s, stat, times, t)
    ensures stat in s.db.fills && OnGrid(t, stat.Frequency()) && t <= Completed(s.db.fills[stat], stat)
  {
    hide ViewsOk, LogOk, OnGrid, IsWindow, FillOk;
    var start, minLength :| IsWindow(times, s.db.fills, stat, start, None, minLength);
    WindowIsCompleted(s, stat, times, start, minLength);
  }

  /** Padding before the epoch shows 0. */
  lemma NothingCharted(s: State, stat: CountStat, t: int, k: TableName, slot: Slot)
    requires Exact(s, stat) && stat in s.db.fills && OnGrid(t, stat.Frequency())
    requires t <= Epoch(s.src) && k in stat.UndoTables()
    ensures SlotSum(At(s.db.Table(k), stat, t), slot) == 0
  {
    hide Exact, OnGrid, At;
    NothingBeforeEpoch(s, stat, t, k);
    AbsentSlot([], slot);
  }

  // ----- realm series

  /** messages_sent_over_time: the number at each end_time after the epoch is the number of messages
      that the realm's humans, or bots, who had joined by it sent in the hour up to it. */
  lemma RealmMessagesChart(s: State, realm: Realm, isBot: bool, times: seq<int>, t: int)
    requires Exact(s, MessagesSentByIsBot) && Charted(s, MessagesSentByIsBot, times, t)
    requires KeysAreSound(s.src) && realm in s.src.realms
    ensures LastValue(Queryset(s.db.realm, RealmTable, realm.id, MessagesSentByIsBot), BoolText(isBot), t)
      == if Epoch(s.src) < t then Count(s.src.messages, SentInRealm(s.src.users, realm.id, isBot, t - HOUR, t)) else 0
  {
    hide Exact, Charted, At, Queryset, LastValue, OnGrid, SlotSum;
    ChartedIsCompleted(s, MessagesSentByIsBot, times, t);
    RealmChartValue(s, MessagesSentByIsBot, realm.id, BoolText(isBot), t);
    if Epoch(s.src) < t {
      RealmHourCount(s, realm, isBot, t);
    } else {
      NothingCharted(s, MessagesSentByIsBot, t, RealmTable, Slot(RealmKey(realm.id), BoolText(isBot)));
    }
  }

  /** messages_sent_by_message_type: the messages of each of the four types. */
  lemma RealmTypeChart(s: State, realm: Realm, kind: string, times: seq<int>, t: int)
    requires Exact(s, MessagesSentByType) && Charted(s, MessagesSentByType, times, t)
    requires KeysAreSound(s.src) && realm in s.src.realms
    ensures LastValue(Queryset(s.db.realm, RealmTable, realm.id, MessagesSentByType), Text(kind), t)
      == if Epoch(s.src) < t then Count(s.src.messages, SentInRealmTyped(s.src, realm.id, kind, t - DAY, t)) else 0
  {
    hide Exact, Charted, At, Queryset, LastValue, OnGrid, SlotSum;
    ChartedIsCompleted(s, MessagesSentByType, times, t);
    RealmChartValue(s, MessagesSentByType, realm.id, Text(kind), t);
    if Epoch(s.src) < t {
      RealmTypeCount(s, realm, kind, t);
    } else {
      NothingCharted(s, MessagesSentByType, t, RealmTable, Slot(RealmKey(realm.id), Text(kind)));
    }
  }

  /** number_of_humans. */
  lemma HumansChart(s: State, realm: Realm, times: seq<int>, t: int)
    requires Exact(s, RealmActiveHumans) && Charted(s, RealmActiveHumans, times, t)
    requires KeysAreSound(s.src)
    ensures LastValue(Queryset(s.db.realm, RealmTable, realm.id, RealmActiveHumans), Null, t)
      == if Epoch(s.src) < t then |ActiveHumanIds(s.src, realm.id, t) * RecentIds(s.src, t)| else 0
  {
    hide Exact, Charted, UniqueRows, At, Queryset, LastValue, OnGrid, SlotSum, Ids;
    ChartedIsCompleted(s, RealmActiveHumans, times, t);
    RealmChartValue(s, RealmActiveHumans, realm.id, Null, t);
    if Epoch(s.src) < t {
      ActiveHumansCount(s, realm.id, t);
    } else {
      NothingCharted(s, RealmActiveHumans, t, RealmTable, Slot(RealmKey(realm.id), Null));
    }
  }

  // ----- user series

  ghost function UserKeys(us: seq<User>): Key -> bool {
    (k: Key) => exists u :: u in us && k == UserKey(u.id, u.realm)
  }

  predicate CountsUserMessages(stat: CountStat) {
    stat.MessagesSentByIsBot? || stat.MessagesSentByType? || stat.MessagesSentByClient?
  }

  /** The user's charted value is the one stored under the user's own realm. */
  lemma UserChartValue(s: State, stat: CountStat, u: User, g: Subgroup, t: int)
    requires CountsUserMessages(stat) && Exact(s, stat) && stat in s.db.fills && OnGrid(t, stat.Frequency())
    requires t <= Completed(s.db.fills[stat], stat) && KeysAreSound(s.src) && u in s.src.users
    ensures LastValue(Queryset(s.db.user, UserTable, u.id, stat), g, t)
      == SlotSum(At(s.db.user, stat, t), Slot(UserKey(u.id, u.realm), g))
  {
    hide Exact, UniqueRows, At, Queryset, LastValue, OnGrid, SlotSum, BaseRows;
    UniqueAt(s, stat, UserTable, t);
    forall r | r in s.db.user && Matches(r, UserTable, u.id, stat, g, t) ensures r.key == UserKey(u.id, u.realm) {
      AtMembers(s.db.user, stat, t, r);
      if Epoch(s.src) < t {
        CompletedRows(s, stat, t, UserTable);
        BaseKeys(stat, s.src, t, UserKeys(s.src.users));
        var v :| v in s.src.users && r.key == UserKey(v.id, v.realm);
        SameUser(s.src.users, u, v);
      } else {
        NothingBeforeEpoch(s, stat, t, UserTable);
      }
    }
    ChartedValue(s.db.user, UserTable, u.id, stat, g, t, Slot(UserKey(u.id, u.realm), g));
  }

  /** messages_sent_over_time. */
  lemma UserMessagesChart(s: State, u: User, isBot: bool, times: seq<int>, t: int)
    requires Exact(s, MessagesSentByIsBot) && Charted(s, MessagesSentByIsBot, times, t)
    requires KeysAreSound(s.src) && u in s.src.users
    ensures LastValue(Queryset(s.db.user, UserTable, u.id, MessagesSentByIsBot), BoolText(isBot), t)
      == if Epoch(s.src) < t && u.isBot == isBot && u.dateJoined < t
         then Count(s.src.messages, SentBy(u.id, t - HOUR, t)) else 0
  {
    hide Exact, Charted, At, Queryset, LastValue, OnGrid, SlotSum;
    ChartedIsCompleted(s, MessagesSentByIsBot, times, t);
    UserChartValue(s, MessagesSentByIsBot, u, BoolText(isBot), t);
    if Epoch(s.src) < t {
      UserHourCount(s, u, isBot, t);
    } else {
      NothingCharted(s, MessagesSentByIsBot, t, UserTable, Slot(UserKey(u.id, u.realm), BoolText(isBot)));
    }
  }

  /** messages_sent_by_message_type. */
  lemma UserTypeChart(s: State, u: User, kind: string, times: seq<int>, t: int)
    requires Exact(s, MessagesSentByType) && Charted(s, MessagesSentByType, times, t)
    requires KeysAreSound(s.src) && u in s.src.users
    ensures LastValue(Queryset(s.db.user, UserTable, u.id, MessagesSentByType), Text(kind), t)
      == if Epoch(s.src) < t then Count(s.src.messages, SentTyped(u.id, kind, s.src, t - DAY, t)) else 0
  {
    hide Exact, Charted, At, Queryset, LastValue, OnGrid, SlotSum;
    ChartedIsCompleted(s, MessagesSentByType, times, t);
    UserChartValue(s, MessagesSentByType, u, Text(kind), t);
    if Epoch(s.src) < t {
      TypeCount(s, u, kind, t);
    } else {
      NothingCharted(s, MessagesSentByType, t, UserTable, Slot(UserKey(u.id, u.realm), Text(kind)));
    }
  }

  // ----- messages_sent_by_client, whose arrays are merged under new labels

  datatype Client = Client(id: int, name: string)

  ghost predicate UniqueClients(clients: seq<Client>) {
    forall i, j :: 0 <= i < j < |clients| ==> clients[i].id != clients[j].id && clients[i].name != clients[j].name
  }

  /** subgroup_to_label of the client chart. */
  function LabelsOf(clients: seq<Client>): (labels: seq<Label>)
    ensures |labels| == |clients|
    ensures forall i :: 0 <= i < |clients| ==> labels[i] == Label(Text(Decimal.Str(clients[i].id)), clients[i].name)
  {
    if clients == [] then []
    else [Label(Text(Decimal.Str(clients[0].id)), clients[0].name)] + LabelsOf(clients[1..])
  }

  lemma LabelsAreDistinct(clients: seq<Client>)
    requires UniqueClients(clients)
    ensures DistinctLabels(LabelsOf(clients))
  {
    hide Decimal.Str;
  }

  /** The client is shown under the label q. */
  ghost predicate ShownAs(clients: seq<Client>, client: int, q: string) {
    exists c :: c in clients && c.id == client && ClientLabel(c.name) == q
  }

  ghost function Through(p: Message -> bool,
      client: int): Message -> bool { (m: Message) => p(m) && m.client == client }

  ghost function ThroughLabel(p: Message -> bool, clients: seq<Client>, q: string): Message -> bool {
    (m: Message) => p(m) && ShownAs(clients, m.client, q)
  }

  /** If each client's value counts its messages, a label's value counts the messages sent through
      any of the clients shown under it, each once. */
  lemma {:induction false} MergedCount(clients: seq<Client>, q: string, rows: seq<Row>, t: int, ms: seq<Message>,
      p: Message -> bool)
    requires UniqueClients(clients)
    requires forall c :: c in clients ==> LastValue(rows, Text(Decimal.Str(c.id)), t) == Count(ms, Through(p, c.id))
    ensures MergedValue(LabelsOf(clients), q, rows, t) == Count(ms, ThroughLabel(p, clients, q))
  {
    hide ClientLabel, LastValue, Decimal.Str;
    if clients == [] {
      CountNone(ms, ThroughLabel(p, clients, q));
    } else {
      var first, rest := clients[0], clients[1..];
      assert first in clients && forall c :: c in clients <==> c == first || c in rest;
      assert forall i :: 0 <= i < |rest| ==> rest[i] == clients[i + 1];
      assert LabelsOf(clients)[1..] == LabelsOf(rest);
      MergedCount(rest, q, rows, t, ms, p);
      forall c | c in rest ensures c.id != first.id {
        var i :| 0 <= i < |rest| && rest[i] == c;
        assert clients[i + 1] == c;
      }
      if ClientLabel(first.name) == q {
        CountSplit(ms, ThroughLabel(p, clients, q), Through(p, first.id), ThroughLabel(p, rest, q));
      } else {
        CountSame(ms, ThroughLabel(p, clients, q), ThroughLabel(p, rest, q));
      }
    }
  }

  ghost function SentByJoined(users: seq<User>, realm: int, start: int, end: int): Message -> bool {
    (m: Message) => InWindow(m.pubDate, start, end) && SentFrom(m, users, JoinedOf(realm, end))
  }

  function Never(): Message -> bool { (m: Message) => false }

  /** messages_sent_by_client, realm series: the number under the label q is the number of messages
      that the realm's users who had joined sent that day through any client shown as q. */
  lemma RealmClientChart(s: State, realm: Realm, clients: seq<Client>, q: string, times: seq<int>, t: int)
    requires Exact(s, MessagesSentByClient) && Charted(s, MessagesSentByClient, times, t)
    requires KeysAreSound(s.src) && realm in s.src.realms && UniqueClients(clients)
    ensures MergedValue(LabelsOf(clients), q, Queryset(s.db.realm, RealmTable, realm.id, MessagesSentByClient), t)
      == if Epoch(s.src) < t
         then Count(s.src.messages, ThroughLabel(SentByJoined(s.src.users, realm.id, t - DAY, t), clients, q)) else 0
  {
    hide Exact, Charted, At, Queryset, LastValue, OnGrid, SlotSum, MergedValue, Decimal.Str, UniqueClients;
    var stat, rows := MessagesSentByClient, Queryset(s.db.realm, RealmTable, realm.id, MessagesSentByClient);
    var p := if Epoch(s.src) < t then SentByJoined(s.src.users, realm.id, t - DAY, t) else Never();
    ChartedIsCompleted(s, stat, times, t);
    forall c | c in clients
      ensures LastValue(rows, Text(Decimal.Str(c.id)), t) == Count(s.src.messages, Through(p, c.id))
    {
      RealmChartValue(s, stat, realm.id, Text(Decimal.Str(c.id)), t);
      if Epoch(s.src) < t {
        RealmClientCount(s, realm, c.id, t);
        CountSame(s.src.messages, SentInRealmWith(s.src.users, realm.id, c.id, t - DAY, t), Through(p, c.id));
      } else {
        NothingCharted(s, stat, t, RealmTable, Slot(RealmKey(realm.id), Text(Decimal.Str(c.id))));
        CountNone(s.src.messages, Through(p, c.id));
      }
    }
    MergedCount(clients, q, rows, t, s.src.messages, p);
    if t <= Epoch(s.src) { CountNone(s.src.messages, ThroughLabel(p, clients, q)); }
  }

  /** messages_sent_by_client, user series. */
  lemma UserClientChart(s: State, u: User, clients: seq<Client>, q: string, times: seq<int>, t: int)
    requires Exact(s, MessagesSentByClient) && Charted(s, MessagesSentByClient, times, t)
    requires KeysAreSound(s.src) && u in s.src.users && UniqueClients(clients)
    ensures MergedValue(LabelsOf(clients), q, Queryset(s.db.user, UserTable, u.id, MessagesSentByClient), t)
      == if Epoch(s.src) < t then Count(s.src.messages, ThroughLabel(SentJoined(u, t - DAY, t), clients, q)) else 0
  {
    hide Exact, Charted, At, Queryset, LastValue, OnGrid, SlotSum, MergedValue, Decimal.Str, UniqueClients;
    var stat, rows := MessagesSentByClient, Queryset(s.db.user, UserTable, u.id, MessagesSentByClient);
    var p := if Epoch(s.src) < t then SentJoined(u, t - DAY, t) else Never();
    ChartedIsCompleted(s, stat, times, t);
    forall c | c in clients
      ensures LastValue(rows, Text(Decimal.Str(c.id)), t) == Count(s.src.messages, Through(p, c.id))
    {
      UserChartValue(s, stat, u, Text(Decimal.Str(c.id)), t);
      if Epoch(s.src) < t {
        ClientCount(s, u, c.id, t);
        if u.dateJoined < t {
          CountSame(s.src.messages, SentWith(u.id, c.id, t - DAY, t), Through(p, c.id));
        } else {
          CountNone(s.src.messages, Through(p, c.id));
        }
      } else {
        NothingCharted(s, stat, t, UserTable, Slot(UserKey(u.id, u.realm), Text(Decimal.Str(c.id))));
        CountNone(s.src.messages, Through(p, c.id));
      }
    }
    MergedCount(clients, q, rows, t, s.src.messages, p);
    if t <= Epoch(s.src) { CountNone(s.src.messages, ThroughLabel(p, clients, q)); }
  }
}
