/** get_chart_data as a whole: what it answers, and that every number in the answer is the direct
    count for its window. */
module ChartView {
  import opened TimeGrid
  import opened CountStats
  import opened CountTables
  import opened SourceData
  import opened FillMachine
  import opened FillRuns
  import opened MessageCounts
  import opened MessageStats
  import opened ActiveUsers
  import opened RowUniqueness
  import opened Lists
  import opened Charts
  import opened ClientLabels
  import opened LabelRanking
  import opened ChartData
  import opened ChartExactness
  import Decimal

  datatype Chart = NumberOfHumans | MessagesSentOverTime | MessagesSentByMessageType | MessagesSentByClients {
    function Stat(): CountStat {
      match this
      case NumberOfHumans => RealmActiveHumans
      case MessagesSentOverTime => MessagesSentByIsBot
      case MessagesSentByMessageType => MessagesSentByType
      case MessagesSentByClients => MessagesSentByClient
    }

    /** subgroup_to_label. */
    function Labels(clients: seq<Client>): seq<Label> {
      match this
      case NumberOfHumans => [Label(Null, "human")]
      case MessagesSentOverTime => [Label(Text("false"), "human"), Label(Text("true"), "bot")]
      case MessagesSentByMessageType =>
        [Label(Text("public_stream"), "Public streams"), Label(Text("private_stream"), "Private streams"),
         Label(Text("private_message"), "Private messages"), Label(Text("huddle_message"), "Group private messages")]
      case MessagesSentByClients => LabelsOf(clients)
    }
  }

  function ChartNamed(name: string): Option<Chart> {
    if name == "number_of_humans" then Some(NumberOfHumans)
    else if name == "messages_sent_over_time" then Some(MessagesSentOverTime)
    else if name == "messages_sent_by_message_type" then Some(MessagesSentByMessageType)
    else if name == "messages_sent_by_client" then Some(MessagesSentByClients)
    else None
  }

  datatype Response =
    | Data(endTimes: seq<int>, realm: Arrays, user: Option<Arrays>, displayOrder: Option<seq<string>>)
    | UnknownChart
    | NoChart(error: ChartError)

  ghost predicate IsSeries(arrays: Arrays, rows: seq<Row>, c: Chart, clients: seq<Client>, endTimes: seq<int>) {
    if c.MessagesSentByClients? then IsMergedSeries(arrays, rows, c.Labels(clients), endTimes, false)
    else IsValueArrays(arrays, rows, c.Labels(clients), endTimes, true)
  }

  /** The charts with a ranking rank all of their labels. */
  ghost predicate IsDisplayOrder(order: Option<seq<string>>, c: Chart, realm: Arrays, user: Option<Arrays>) {
    match c
    case MessagesSentByMessageType => order.Some? && IsRanking(order.value, realm)
    case MessagesSentByClients =>
      order.Some? && user.Some? && Distinct(order.value) && Members(order.value) == realm.Keys + user.value.Keys
      && (forall n: nat :: IsFair(order.value, realm, user.value, n))
      && exists a, b :: IsRanking(a, realm) && IsRanking(b, user.value) && UserFirst(order.value, a, b)
    case _ => order.None?
  }

  /** All labels, by falling sums and, where these are equal, by falling names. */
  ghost predicate IsRanking(order: seq<string>, m: Arrays) {
    Members(order) == m.Keys && forall i, j :: 0 <= i < j < |order| ==> Outranks(m, order[i], order[j])
  }

  ghost predicate Answers(r: Response, db: Db, c: Chart, clients: seq<Client>, realm: int, user: int) {
    && r.Data?
    && IsSeries(r.realm, Queryset(db.realm, RealmTable, realm, c.Stat()), c, clients, r.endTimes)
    && (r.user.Some? <==> !c.NumberOfHumans?)
    && (r.user.Some? ==> IsSeries(r.user.value, Queryset(db.user, UserTable, user, c.Stat()), c, clients, r.endTimes))
    && IsDisplayOrder(r.displayOrder, c, r.realm, r.user)
    && ShowsLabels(r.realm, c, clients, db.realm, RealmTable, realm)
    && (r.user.Some? ==> ShowsLabels(r.user.value, c, clients, db.user, UserTable, user))
  }

  lemma ChartLabelsAreDistinct(c: Chart, clients: seq<Client>)
    requires UniqueClients(clients)
    ensures DistinctLabels(c.Labels(clients))
  {
    hide UniqueClients, LabelsOf;
    if c.MessagesSentByClients? {
      LabelsAreDistinct(clients);
    } else {
      assert "Public streams"[1] != "Private streams"[1];
      assert "human"[0] != "bot"[0];
      assert "Private streams"[8] != "Private messages"[8];
      assert "Group private messages"[0] != "Private messages"[0];
    }
  }

  /** The four names. */
  predicate IsNamed(name: string, c: Chart) {
    match c
    case NumberOfHumans => name == "number_of_humans"
    case MessagesSentOverTime => name == "messages_sent_over_time"
    case MessagesSentByMessageType => name == "messages_sent_by_message_type"
    case MessagesSentByClients => name == "messages_sent_by_client"
  }

  lemma ChartsAreNamed(name: string)
    ensures ChartNamed(name).Some? ==> IsNamed(name, ChartNamed(name).value)
    ensures forall c :: IsNamed(name, c) ==> ChartNamed(name) == Some(c)
  {
    assert |"number_of_humans"| != |"messages_sent_over_time"|;
    assert "messages_sent_by_client"[14] != "messages_sent_over_time"[14];
  }

  /** The labels of a series: all of a chart's, or for clients those with a stored row under them. */
  ghost predicate ShowsLabels(arrays: Arrays, c: Chart, clients: seq<Client>, table: seq<Row>, k: TableName, id: int) {
    match c
    case NumberOfHumans => arrays.Keys == {"human"}
    case MessagesSentOverTime => arrays.Keys == {"human", "bot"}
    case MessagesSentByMessageType =>
      arrays.Keys == {"Public streams", "Private streams", "Private messages", "Group private messages"}
    case MessagesSentByClients =>
      forall q :: q in arrays <==> IsClientLabel(q, clients, table, k, id)
  }

  ghost predicate IsClientLabel(q: string, clients: seq<Client>, table: seq<Row>, k: TableName, id: int) {
    exists x, r :: x in clients && ClientLabel(x.name) == q && IsClientRow(r, table, k, id, x)
  }

  ghost predicate IsClientRow(r: Row, table: seq<Row>, k: TableName, id: int, x: Client) {
    r in table && OwnKey(r.key, k, id) && r.stat == MessagesSentByClient && r.subgroup == Text(Decimal.Str(x.id))
  }

  lemma SeriesShowsLabels(arrays: Arrays, c: Chart, clients: seq<Client>, table: seq<Row>, k: TableName, id: int,
      endTimes: seq<int>)
    requires IsSeries(arrays, Queryset(table, k, id, c.Stat()), c, clients, endTimes)
    ensures ShowsLabels(arrays, c, clients, table, k, id)
  {
    hide Queryset, Decimal.Str, ClientLabel, LastValue, MergedValue;
    var labels, rows := c.Labels(clients), Queryset(table, k, id, c.Stat());
    if c.MessagesSentByClients? {
      forall q ensures q in arrays <==> IsClientLabel(q, clients, table, k, id) {
        if q in arrays {
          var i :| 0 <= i < |labels| && ClientLabel(labels[i].name) == q && Wanted(labels[i], rows, false);
          var r :| r in rows && r.subgroup == labels[i].subgroup;
          QuerysetMembers(table, k, id, MessagesSentByClient, r);
          assert clients[i] in clients && IsClientRow(r, table, k, id, clients[i]);
        }
        if x, r :| x in clients && ClientLabel(x.name) == q && IsClientRow(r, table, k, id, x) {
          QuerysetMembers(table, k, id, MessagesSentByClient, r);
          var i :| 0 <= i < |clients| && clients[i] == x;
          assert Wanted(labels[i], rows, false);
        }
      }
    } else {
      assert forall i :: 0 <= i < |labels| ==> Wanted(labels[i], rows, true);
      forall q ensures q in arrays <==> exists i :: 0 <= i < |labels| && labels[i].name == q {
        if q in arrays { assert IsWanted(q, rows, labels, true); }
        if i :| 0 <= i < |labels| && labels[i].name == q { assert IsWanted(q, rows, labels, true); }
      }
      LabelNames(c, clients);
    }
  }

  lemma LabelNames(c: Chart, clients: seq<Client>)
    requires !c.MessagesSentByClients?
    ensures var labels := c.Labels(clients);
      (set i | 0 <= i < |labels| :: labels[i].name)
      == match c
         case NumberOfHumans => {"human"}
         case MessagesSentOverTime => {"human", "bot"}
         case _ => {"Public streams", "Private streams", "Private messages", "Group private messages"}
  {
    var labels := c.Labels(clients);
    assert labels[0].name in set i | 0 <= i < |labels| :: labels[i].name;
    if |labels| > 1 { assert labels[1].name in set i | 0 <= i < |labels| :: labels[i].name; }
    if |labels| > 2 {
      assert labels[2].name in set i | 0 <= i < |labels| :: labels[i].name;
      assert labels[3].name in set i | 0 <= i < |labels| :: labels[i].name;
    }
  }

  method GetChartData(db: Db, name: string, clients: seq<Client>, realm: int, created: int, user: int,
      start: Option<int>, end: Option<int>, minLength: Option<nat>)
    returns (r: Response)
    requires UniqueClients(clients)
    ensures r.UnknownChart? <==> forall c :: !IsNamed(name, c)
    ensures r == NoChart(StartAfterEnd)
      <==> (exists c :: IsNamed(name, c)) && start.Some? && end.Some? && start.value > end.value
    ensures r == NoChart(NoData) <==>
      var from := if start.Some? then start.value else created;
      (exists c :: IsNamed(name, c) && NoDataFrom(from, db.fills, c.Stat(), end))
      && !(start.Some? && end.Some? && start.value > end.value)
    ensures r.Data? ==> exists c ::
      IsNamed(name, c) && Answers(r, db, c, clients, realm, user)
      && IsWindow(r.endTimes, db.fills, c.Stat(), if start.Some? then start.value else created, end, minLength)
  {
    hide IsGridRange, IsWindow, IsValueArrays, IsMergedSeries, Queryset, RankedByTotals, Ascending, Outranks;
    hide Distinct, Floor, Padded, LabelsOf, ShowsLabels, IsFair, UserFirst, UniqueClients, OnGrid, IsNamed;
    ChartsAreNamed(name);
    var named := ChartNamed(name);
    if named.None? { return UnknownChart; }
    var c := named.value;
    var stat, labels, includeEmpty := c.Stat(), c.Labels(clients), !c.MessagesSentByClients?;
    ChartLabelsAreDistinct(c, clients);
    var window := ChartTimes(db.fills, stat, created, start, end, minLength);
    if window.Err? { return NoChart(window.error); }
    var endTimes := window.endTimes;
    var realmArrays := TimeSeriesBySubgroup(db.realm, RealmTable, realm, stat, endTimes, labels, includeEmpty);
    SeriesShowsLabels(realmArrays, c, clients, db.realm, RealmTable, realm, endTimes);
    var userArrays: Option<Arrays>, order: Option<seq<string>> := None, None;
    if !c.NumberOfHumans? {
      var arrays := TimeSeriesBySubgroup(db.user, UserTable, user, stat, endTimes, labels, includeEmpty);
      SeriesShowsLabels(arrays, c, clients, db.user, UserTable, user, endTimes);
      userArrays := Some(arrays);
      if c.MessagesSentByMessageType? {
        var ranked := SortByTotals(realmArrays);
        order := Some(ranked);
      } else if c.MessagesSentByClients? {
        ghost var a, b;
        var display;
        display, a, b := SortClientLabels(realmArrays, arrays);
        RankedIsByTotal(a, realmArrays);
        RankedIsByTotal(b, arrays);
        assert IsRanking(a, realmArrays) && IsRanking(b, arrays);
        order := Some(display);
      }
    }
    r := Data(endTimes, realmArrays, userArrays, order);
    assert Answers(r, db, c, clients, realm, user);
  }

  // ----- the numbers

  /** What the number under the label q at t is meant to be: counted on the source. */
  ghost function RealmNumber(src: Source, c: Chart, clients: seq<Client>, realm: int, q: string, t: int): int {
    match c
    case NumberOfHumans => if q == "human" then |ActiveHumanIds(src, realm, t) * RecentIds(src, t)| else 0
    case MessagesSentOverTime =>
      if q == "human" || q
        == "bot" then Count(src.messages, SentInRealm(src.users, realm, q == "bot", t - HOUR, t)) else 0
    case MessagesSentByMessageType =>
      if q in KindLabels() then Count(src.messages, SentInRealmTyped(src, realm, KindLabels()[q], t - DAY, t)) else 0
    case MessagesSentByClients =>
      Count(src.messages, ThroughLabel(SentByJoined(src.users, realm, t - DAY, t), clients, q))
  }

  ghost function UserNumber(src: Source, c: Chart, clients: seq<Client>, u: User, q: string, t: int): int {
    match c
    case NumberOfHumans => 0
    case MessagesSentOverTime =>
      if q == (if u.isBot then "bot" else "human") then Count(src.messages, SentJoined(u, t - HOUR, t)) else 0
    case MessagesSentByMessageType =>
      if q in KindLabels() then Count(src.messages, SentTyped(u.id, KindLabels()[q], src, t - DAY, t)) else 0
    case MessagesSentByClients => Count(src.messages, ThroughLabel(SentJoined(u, t - DAY, t), clients, q))
  }

  function KindLabels(): map<string, string> {
    map["Public streams" := "public_stream", "Private streams" := "private_stream",
        "Private messages" := "private_message", "Group private messages" := "huddle_message"]
  }

  /** The value of an array at a time: the label's last value, or 0 for anything that is no label. */
  lemma SeriesColumn(arrays: Arrays, rows: seq<Row>, labels: seq<Label>, endTimes: seq<int>, q: string, i: nat)
    requires IsValueArrays(arrays, rows, labels, endTimes, true) && i < |endTimes|
    ensures forall j :: 0 <= j < |labels| && labels[j].name == q ==>
      Column(arrays, i)(q) == LastValue(rows, labels[j].subgroup, endTimes[i])
    ensures (forall j :: 0 <= j < |labels| ==> labels[j].name != q) ==> Column(arrays, i)(q) == 0
  {
    hide LastValue;
    forall j | 0 <= j < |labels| && labels[j].name == q
      ensures Column(arrays, i)(q) == LastValue(rows, labels[j].subgroup, endTimes[i])
    {
      assert Wanted(labels[j], rows, true);
      assert q in arrays && arrays[q] == Series(rows, labels[j].subgroup, endTimes);
    }
  }

  /** The answer of GetChartData with the default end. */
  ghost predicate Reads(s: State, c: Chart, clients: seq<Client>, endTimes: seq<int>) {
    && c.Stat() in s.db.fills && UniqueClients(clients)
    && exists start, minLength :: IsWindow(endTimes, s.db.fills, c.Stat(), start, None, minLength)
  }

  lemma RealmValueIsNumber(s: State, c: Chart, clients: seq<Client>, realm: Realm, endTimes: seq<int>,
      q: string, j: nat, t: int)
    requires Exact(s, c.Stat()) && KeysAreSound(s.src) && realm in s.src.realms
    requires Charted(s, c.Stat(), endTimes, t)
    requires !c.MessagesSentByClients? && j < |c.Labels(clients)| && c.Labels(clients)[j].name == q
    ensures LastValue(Queryset(s.db.realm, RealmTable, realm.id, c.Stat()), c.Labels(clients)[j].subgroup, t)
      == if Epoch(s.src) < t then RealmNumber(s.src, c, clients, realm.id, q, t) else 0
  {
    hide Exact, KeysAreSound, Charted, LastValue, Queryset, Count;
    match c
    case NumberOfHumans => HumansChart(s, realm, endTimes, t);
    case MessagesSentOverTime => RealmMessagesChart(s, realm, q == "bot", endTimes, t);
    case MessagesSentByMessageType => RealmTypeChart(s, realm, c.Labels(clients)[j].subgroup.text, endTimes, t);
  }

  lemma NoSuchLabel(c: Chart, clients: seq<Client>, q: string)
    requires !c.MessagesSentByClients? && forall j :: 0 <= j < |c.Labels(clients)| ==> c.Labels(clients)[j].name != q
    ensures forall src, realm, t :: RealmNumber(src, c, clients, realm, q, t) == 0
    ensures forall src, u, t :: UserNumber(src, c, clients, u, q, t) == 0
  {
    hide Count;
    var labels := c.Labels(clients);
    if c.NumberOfHumans? {
      assert labels[0].name != q;
    } else if c.MessagesSentOverTime? {
      assert labels[0].name != q && labels[1].name != q;
    } else {
      assert labels[0].name != q && labels[1].name != q && labels[2].name != q && labels[3].name != q;
    }
  }

  /** Every number of every chart: with the default end, the realm's number under any label at any
      charted time is the count of the source rows of that window, and before the epoch 0. */
  lemma RealmNumbersAreCounts(s: State, c: Chart, clients: seq<Client>, realm: Realm, arrays: Arrays,
      endTimes: seq<int>, q: string, i: nat)
    requires Exact(s, c.Stat()) && KeysAreSound(s.src) && realm in s.src.realms && Reads(s, c, clients, endTimes)
    requires IsSeries(arrays, Queryset(s.db.realm, RealmTable, realm.id, c.Stat()), c, clients, endTimes)
    requires i < |endTimes|
    ensures Column(arrays, i)(q)
      == if Epoch(s.src) < endTimes[i] then RealmNumber(s.src, c, clients, realm.id, q, endTimes[i]) else 0
  {
    hide Exact, KeysAreSound, LastValue, Queryset, Count, Column, RealmNumber, MergedValue, UniqueClients, LabelsOf;
    var t, labels := endTimes[i], c.Labels(clients);
    assert t in endTimes && Charted(s, c.Stat(), endTimes, t);
    if c.MessagesSentByClients? {
      RealmClientChart(s, realm, clients, q, endTimes, t);
      ClientNumbers(s.src, clients, realm.id, q, t);
    } else {
      SeriesColumn(arrays, Queryset(s.db.realm, RealmTable, realm.id, c.Stat()), labels, endTimes, q, i);
      if j :| 0 <= j < |labels| && labels[j].name == q {
        RealmValueIsNumber(s, c, clients, realm, endTimes, q, j, t);
      } else {
        NoSuchLabel(c, clients, q);
      }
    }
  }

  lemma ClientNumbers(src: Source, clients: seq<Client>, realm: int, q: string, t: int)
    ensures RealmNumber(src, MessagesSentByClients, clients, realm, q, t)
      == Count(src.messages, ThroughLabel(SentByJoined(src.users, realm, t - DAY, t), clients, q))
  {
  }

  lemma UserValueIsNumber(s: State, c: Chart, clients: seq<Client>, u: User, endTimes: seq<int>, q: string,
      j: nat, t: int)
    requires Exact(s, c.Stat()) && KeysAreSound(s.src) && u in s.src.users && Charted(s, c.Stat(), endTimes, t)
    requires !c.MessagesSentByClients? && !c.NumberOfHumans?
    requires j < |c.Labels(clients)| && c.Labels(clients)[j].name == q
    ensures LastValue(Queryset(s.db.user, UserTable, u.id, c.Stat()), c.Labels(clients)[j].subgroup, t)
      == if Epoch(s.src) < t then UserNumber(s.src, c, clients, u, q, t) else 0
  {
    hide Exact, KeysAreSound, Charted, LastValue, Queryset, Count;
    match c
    case MessagesSentOverTime =>
      UserMessagesChart(s, u, q == "bot", endTimes, t);
      if u.dateJoined < t {
        CountSame(s.src.messages, SentJoined(u, t - HOUR, t), SentBy(u.id, t - HOUR, t));
      } else {
        CountNone(s.src.messages, SentJoined(u, t - HOUR, t));
      }
    case MessagesSentByMessageType => UserTypeChart(s, u, c.Labels(clients)[j].subgroup.text, endTimes, t);
  }

  lemma UserNumbersAreCounts(s: State, c: Chart, clients: seq<Client>, u: User, arrays: Arrays, endTimes: seq<int>,
      q: string, i: nat)
    requires Exact(s, c.Stat()) && KeysAreSound(s.src) && u in s.src.users
    requires Reads(s, c, clients, endTimes) && !c.NumberOfHumans?
    requires IsSeries(arrays, Queryset(s.db.user, UserTable, u.id, c.Stat()), c, clients, endTimes) && i < |endTimes|
    ensures Column(arrays, i)(q)
      == if Epoch(s.src) < endTimes[i] then UserNumber(s.src, c, clients, u, q, endTimes[i]) else 0
  {
    hide Exact, KeysAreSound, LastValue, Queryset, Count, Column, UserNumber, MergedValue, UniqueClients, LabelsOf;
    var t, labels := endTimes[i], c.Labels(clients);
    assert t in endTimes && Charted(s, c.Stat(), endTimes, t);
    if c.MessagesSentByClients? {
      UserClientChart(s, u, clients, q, endTimes, t);
      UserClientNumbers(s.src, clients, u, q, t);
    } else {
      SeriesColumn(arrays, Queryset(s.db.user, UserTable, u.id, c.Stat()), labels, endTimes, q, i);
      if j :| 0 <= j < |labels| && labels[j].name == q {
        UserValueIsNumber(s, c, clients, u, endTimes, q, j, t);
      } else {
        NoSuchLabel(c, clients, q);
      }
    }
  }

  lemma UserClientNumbers(src: Source, clients: seq<Client>, u: User, q: string, t: int)
    ensures UserNumber(src, MessagesSentByClients, clients, u, q, t)
      == Count(src.messages, ThroughLabel(SentJoined(u, t - DAY, t), clients, q))
  {
  }
}
