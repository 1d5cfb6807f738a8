/** No row is ever inserted twice. For NULL subgroups the database does not enforce this: its
    unique constraints take NULLs to be distinct. */
module RowUniqueness {
  import opened TimeGrid
  import opened Lists
  import opened Grouping
  import opened CountStats
  import opened CountTables
  import opened SourceData
  import opened Queries
  import opened FillMachine
  import opened FillSafety
  import opened FillSpec
  import opened FillExactness
  import opened FillRuns
  import opened Rollups
  import opened RowKeys
  import opened CrashRecovery
  import opened LoggingStats
  import opened MessageStats
  import opened ActiveUsers
  import opened ActiveUserStats

  lemma DistinctStamp(es: seq<Entry<Slot>>, stat: CountStat, t: int)
    requires DistinctGroups(es)
    ensures UniqueRows(Stamp(es, stat, t))
  {
    StampSpec(es, stat, t);
  }

  lemma {:induction false} WholeMinutesGroups(es: seq<Entry<Slot>>, g: Slot)
    ensures HasGroup(WholeMinutes(es), g) ==> HasGroup(es, g)
  {
    hide HasGroup;
    if es == [] {
      assert WholeMinutes(es) == es;
    } else {
      WholeMinutesGroups(es[1..], g);
      assert es == [es[0]] + es[1..];
      HasGroupParts(es[0], es[1..], g);
      HasGroupParts(Entry(es[0].group, es[0].amount / MINUTE), WholeMinutes(es[1..]), g);
    }
  }

  lemma {:induction false} WholeMinutesDistinct(es: seq<Entry<Slot>>)
    requires DistinctGroups(es)
    ensures DistinctGroups(WholeMinutes(es))
  {
    hide DistinctGroups, HasGroup;
    if es != [] {
      DistinctTail(es);
      WholeMinutesDistinct(es[1..]);
      WholeMinutesGroups(es[1..], es[0].group);
      if es[0].amount >= MINUTE {
        DistinctCons(Entry(es[0].group, es[0].amount / MINUTE), WholeMinutes(es[1..]));
      }
    }
  }

  lemma {:induction false} SumsAtMostOne(es: seq<Entry<Slot>>)
    requires forall e :: e in es ==> e.amount == 1
    requires forall g :: SumFor(es, g) <= 1
    ensures DistinctGroups(es)
  {
    forall i, j | 0 <= i < j < |es| ensures es[i].group != es[j].group {
      var g := es[i].group;
      assert es == es[..j] + es[j..];
      SumsConcat(es[..j], es[j..], g);
      assert forall e :: e in es[..j] ==> e in es;
      assert forall e :: e in es[j..] ==> e in es;
      PositiveGroups(es[..j], g);
      PositiveGroups(es[j..], g);
      assert es[..j][i] in es[..j] && es[j..][0] in es[j..];
    }
  }

  lemma {:induction false} OneUserAtMost(us: seq<User>, p: User -> bool)
    requires UniqueUsers(us) && forall u, v :: u in us && v in us && p(u) && p(v) ==> u.id == v.id
    ensures CountUsers(us, p) <= 1
  {
    if us != [] {
      assert us[0] in us && forall u :: u in us[1..] ==> u in us;
      UniqueTail(us);
      OneUserAtMost(us[1..], p);
      if p(us[0]) {
        forall u | u in us[1..] ensures !p(u) { TailDiffers(us, u); }
        CountUsersNone(us[1..], p);
      }
    }
  }

  lemma AuditDistinct(src: Source, t: int)
    requires UniqueIds(src) && DistinctTimes(src.audit) && AuditRealmsMatch(src)
    ensures DistinctGroups(JoinLastEvents(src.audit, src.audit, src.users, t))
  {
    hide ActiveAt, JoinLastEvents;
    var es := JoinLastEvents(src.audit, src.audit, src.users, t);
    JoinLastEventsOnes(src.audit, src.audit, src.users, t);
    forall g ensures SumFor(es, g) <= 1 {
      SumForIsWhere(es, g);
      AuditCountsActives(src, t, Exactly(g));
      var p := ActiveWith(src, t, Exactly(g));
      forall u, v | u in src.users && v in src.users && p(u) && p(v) ensures u.id == v.id {
        assert AuditSlot(u, u.realm) == g && AuditSlot(v, v.realm) == g;
      }
      OneUserAtMost(src.users, p);
    }
    SumsAtMostOne(es);
  }

  /** Every pull inserts at most one row for each key and subgroup. */
  lemma PullUnique(stat: CountStat, src: Source, table: seq<Row>, start: int, end: int)
    requires !stat.Logging?
    requires stat.ActiveUsersAudit? ==> UniqueIds(src) && DistinctTimes(src.audit) && AuditRealmsMatch(src)
    ensures UniqueRows(Pull(stat, src, table, start, end))
  {
    hide JoinUserMessages, JoinTypedMessages, JoinStreamMessages, JoinLastEvents, JoinIntervals;
    hide ClippedIntervals, JoinHumans, GroupSum, Stamp;
    var s := Slot(InstallationKey, Null);
    match stat {
      case MessagesSentByIsBot => GroupSumSpec(JoinUserMessages(src.users, src.messages, ByIsBot, start, end), s);
      case MessagesSentByType =>
        var inner := JoinTypedMessages(src.users, src.messages, src.recipients, src.streams, start, end);
        GroupSumSpec(Outer(GroupSum(inner)), s);
      case MessagesSentByClient => GroupSumSpec(JoinUserMessages(src.users, src.messages, ByClient, start, end), s);
      case MessagesInStreamByIsBot =>
        GroupSumSpec(JoinStreamMessages(src.streams, src.recipients, src.messages, src.users, start, end), s);
      case ActiveUsersAudit => AuditDistinct(src, end);
      case FifteenDayActives =>
        GroupSumSpec(JoinIntervals(src.users, src.intervals, start, end), s);
        OnesGroups(GroupSum(JoinIntervals(src.users, src.intervals, start, end)));
      case MinutesActive =>
        GroupSumSpec(ClippedIntervals(src.intervals, src.users, start, end), s);
        WholeMinutesDistinct(GroupSum(ClippedIntervals(src.intervals, src.users, start, end)));
      case RealmActiveHumans =>
        GroupSumSpec(JoinHumans(At(table, ActiveUsersAudit, end), At(table, FifteenDayActives, end)), s);
    }
    DistinctStamp(PullEntries(stat, src, table, start, end), stat, end);
  }

  lemma {:induction false} AtUnique(rows: seq<Row>, stat: CountStat, t: int)
    requires UniqueRows(rows)
    ensures UniqueRows(At(rows, stat, t))
  {
    if rows != [] {
      forall i, j | 0 <= i < j < |rows[1..]| ensures rows[1..][i].(value := 0) != rows[1..][j].(value := 0) {
        assert rows[1..][i] == rows[i + 1] && rows[1..][j] == rows[j + 1];
      }
      AtUnique(rows[1..], stat, t);
      var rest := At(rows[1..], stat, t);
      forall j | 0 <= j < |rest| ensures rest[j].(value := 0) != rows[0].(value := 0) {
        AtMembers(rows[1..], stat, t, rest[j]);
        assert rest[j] in rest;
        var m :| 0 <= m < |rows[1..]| && rows[1..][m] == rest[j];
        assert rows[m + 1] == rest[j];
      }
    }
  }

  ghost predicate KeysAreSound(src: Source) {
    UniqueIds(src) && DistinctTimes(src.audit) && AuditRealmsMatch(src)
  }

  lemma KeysSound(src: Source)
    requires KeysAreSound(src)
    ensures UniqueIds(src) && DistinctTimes(src.audit) && AuditRealmsMatch(src)
  {
  }

  lemma TableRowsUnique(stat: CountStat, src: Source, t: int, k: TableName)
    requires KeysAreSound(src)
    ensures UniqueRows(TableRows(stat, src, t, k))
  {
    hide KeysAreSound, Stamp, Pull, At, JoinRealms, BySubgroup, GroupSum, UniqueRows, DependencyRows, Logged;
    EmptyUnique();
    if stat.Logging? {
      LoggedSpec(src.increments, stat, Slot(InstallationKey, Null), t);
      AtUnique(Logged(src.increments, stat), stat, t);
    } else {
      KeysSound(src);
      PullUnique(stat, src, DependencyRows(stat, src, t), t - stat.Interval(), t);
    }
    GroupedRows(JoinRealms(src.realms, At(BaseRows(stat, src, t), stat, t)), stat, t, Slot(InstallationKey, Null));
    GroupedRows(BySubgroup(At(RealmRows(stat, src, t), stat, t)), stat, t, Slot(InstallationKey, Null));
  }

  lemma {:induction false} FilledUnique(stat: CountStat, src: Source, t: int, k: TableName)
    requires KeysAreSound(src)
    ensures UniqueRows(Filled(stat, src, t, k))
    decreases t - Epoch(src)
  {
    hide TableRows, KeysAreSound;
    if t > Epoch(src) {
      FilledUnique(stat, src, t - stat.Step(), k);
      TableRowsUnique(stat, src, t, k);
      FilledEndTimes(stat, src, t - stat.Step(), k);
      TableRowsStamped(stat, src, t, k);
      UniqueConcat(Filled(stat, src, t - stat.Step(), k), TableRows(stat, src, t, k), t);
    }
  }

  lemma UniqueConcat(a: seq<Row>, b: seq<Row>, t: int)
    requires UniqueRows(a) && UniqueRows(b)
    requires (forall r :: r in a ==> r.endTime < t) && forall r :: r in b ==> r.endTime == t
    ensures UniqueRows(a + b)
  {
    forall i, j | 0 <= i < j < |a + b| ensures (a + b)[i].(value := 0) != (a + b)[j].(value := 0) {
      if i < |a| <= j {
        assert a[i] in a && b[j - |a|] in b;
      }
    }
  }

  /** In every reachable state, also in the middle of a run or of an undo, no table holds two rows
      with the same key, stat, subgroup and end_time. */
  lemma NoRowTwice(s: State, stat: CountStat, k: TableName)
    requires Exact(s, stat) && KeysAreSound(s.src)
    ensures UniqueRows(Of(s.db.Table(k), stat))
  {
    hide Of, Filled, TableRows, Logged, KeysAreSound, UniqueRows, FillOk;
    if k in stat.UndoTables() {
      ManagedView(s, stat, k);
      ManagedUnique(s, stat, k);
    } else {
      LoggedSpec(s.src.increments, stat, Slot(InstallationKey, Null), 0);
      EmptyUnique();
    }
  }

  lemma EmptyUnique()
    ensures UniqueRows([])
  {
  }

  lemma ManagedUnique(s: State, stat: CountStat, k: TableName)
    requires ViewOk(s, stat, k) && KeysAreSound(s.src)
    requires (stat in s.db.fills ==> FillOk(s.db.fills, Epoch(s.src), stat))
    ensures UniqueRows(Of(s.db.Table(k), stat))
  {
    hide Of, TableRows, KeysAreSound;
    if stat in s.db.fills {
      var t := s.db.fills[stat].endTime;
      FilledUnique(stat, s.src, t, k);
      FilledUnique(stat, s.src, t - stat.Step(), k);
    }
  }

  // ----- the uniqueness constraints of the tables, which leave the realm out

  /** The columns of unique_together: UserCount and StreamCount name the user or the stream alone. */
  function ConstraintKey(r: Row): Row {
    match r.key
    case UserKey(user, _) => r.(key := UserKey(user, 0), value := 0)
    case StreamKey(stream, _) => r.(key := StreamKey(stream, 0), value := 0)
    case _ => r.(value := 0)
  }

  ghost predicate NoConflict(rows: seq<Row>) {
    forall i, j :: 0 <= i < j < |rows| ==> ConstraintKey(rows[i]) != ConstraintKey(rows[j])
  }

  /** The user or stream of the key exists and has the key's realm. */
  ghost function Known(src: Source): Key -> bool {
    (k: Key) => match k
      case UserKey(user, realm) => exists u :: u in src.users && u.id == user && u.realm == realm
      case StreamKey(stream, realm) => exists s :: s in src.streams && s.id == stream && s.realm == realm
      case _ => true
  }

  ghost predicate AllKnown(rows: seq<Row>, src: Source) { forall r :: r in rows ==> Known(src)(r.key) }

  /** do_increment_logging_stat takes the realm from the object it counts for. */
  ghost predicate ObjectsKnown(src: Source) { forall i :: i in src.increments ==> Known(src)(i.slot.key) }

  lemma KnownRowsDoNotConflict(rows: seq<Row>, src: Source)
    requires UniqueIds(src) && UniqueRows(rows) && AllKnown(rows, src)
    ensures NoConflict(rows)
  {
    forall i, j | 0 <= i < j < |rows| ensures ConstraintKey(rows[i]) != ConstraintKey(rows[j]) {
      assert rows[i] in rows && rows[j] in rows;
      assert rows[i].(value := 0) != rows[j].(value := 0);
      SameKey(src, rows[i].key, rows[j].key);
    }
  }

  lemma SameKey(src: Source, a: Key, b: Key)
    requires UniqueIds(src) && Known(src)(a) && Known(src)(b)
    ensures a.UserKey? && b.UserKey? && a.user == b.user ==> a == b
    ensures a.StreamKey? && b.StreamKey? && a.stream == b.stream ==> a == b
  {
    hide UniqueIds;
    if a.UserKey? && b.UserKey? && a.user == b.user {
      var u :| u in src.users && u.id == a.user && u.realm == a.realm;
      var v :| v in src.users && v.id == b.user && v.realm == b.realm;
      assert UniqueUsers(src.users) by { IdsAreUnique(src); }
      SameUser(src.users, u, v);
    } else if a.StreamKey? && b.StreamKey? && a.stream == b.stream {
      var s :| s in src.streams && s.id == a.stream && s.realm == a.realm;
      var r :| r in src.streams && r.id == b.stream && r.realm == b.realm;
      assert UniqueStreams(src.streams) by { IdsAreUnique(src); }
      SameStream(src.streams, s, r);
    }
  }

  lemma IdsAreUnique(src: Source)
    requires UniqueIds(src)
    ensures UniqueUsers(src.users) && UniqueStreams(src.streams)
  {
  }

  lemma {:induction false} LoggedKeys(incs: seq<Increment>, stat: CountStat, p: Key -> bool)
    requires forall i :: i in incs && i.stat == stat ==> p(i.slot.key)
    ensures forall r :: r in Logged(incs, stat) ==> p(r.key)
  {
    if incs != [] {
      var init, i := incs[..|incs| - 1], incs[|incs| - 1];
      assert i in incs && forall j :: j in init ==> j in incs;
      LoggedKeys(init, stat, p);
      if i.stat == stat { IncrementRowKeys(Logged(init, stat), stat, i.slot, i.EndTime(), i.amount, p); }
    }
  }

  lemma {:induction false} IncrementRowKeys(table: seq<Row>, stat: CountStat, slot: Slot, t: int, amount: int,
      p: Key -> bool)
    requires p(slot.key) && forall r :: r in table ==> p(r.key)
    ensures forall r :: r in IncrementRow(table, stat, slot, t, amount) ==> p(r.key)
  {
    if table != [] {
      assert table[0] in table && forall r :: r in table[1..] ==> r in table;
      IncrementRowKeys(table[1..], stat, slot, t, amount, p);
    }
  }

  /** The rows of a logging stat's output table are about the objects it counts for. */
  lemma LoggedRowsFit(src: Source, es: seq<Event>, stat: CountStat)
    requires stat.Logging? && EpochFixed(src, es)
    ensures forall r :: r in Of(Reach(src, es).db.Table(stat.Output()), stat) ==>
      match stat.level
      case PerUser => r.key.UserKey?
      case PerStream => r.key.StreamKey?
      case PerRealm => r.key.RealmKey?
  {
    hide Reach, Of;
    var fits := (k: Key) =>
      match stat.level
      case PerUser => k.UserKey?
      case PerStream => k.StreamKey?
      case PerRealm => k.RealmKey?;
    ReachLogOk(src, es, stat);
    ArrivedIsLog(src, es);
    ArrivedFit(es);
    assert stat.Output() !in stat.UndoTables();
    LoggedKeys(Arrived(es), stat, fits);
  }

  lemma BaseKnown(stat: CountStat, src: Source, t: int)
    requires AuditRealmsMatch(src) && (stat.Logging? ==> ObjectsKnown(src))
    ensures AllKnown(BaseRows(stat, src, t), src)
  {
    hide Pull, DependencyRows, Logged, At;
    if stat.Logging? {
      LoggedKeys(src.increments, stat, Known(src));
      forall r | r in At(Logged(src.increments, stat), stat, t) ensures Known(src)(r.key) {
        AtMembers(Logged(src.increments, stat), stat, t, r);
      }
    } else {
      BaseKeys(stat, src, t, Known(src));
    }
  }

  lemma JoinRealmsKnown(realms: seq<Realm>, rows: seq<Row>, src: Source)
    ensures Keys(JoinRealms(realms, rows), Known(src))
  {
    var p := HasKey(Known(src));
    forall realm | realm in realms ensures forall e :: e in JoinRealm(realm, rows) ==> p(e) {
      FlatMapAll(rows, RealmEntry(realm), p);
    }
    FlatMapAll(realms, RealmEntries(rows), p);
  }

  lemma TableRowsKnown(stat: CountStat, src: Source, t: int, k: TableName)
    requires AuditRealmsMatch(src) && (stat.Logging? ==> ObjectsKnown(src))
    ensures AllKnown(TableRows(stat, src, t, k), src)
  {
    hide BaseRows, GroupSum, Stamp, JoinRealms, BySubgroup, At, AuditRealmsMatch, ObjectsKnown;
    BaseKnown(stat, src, t);
    var realmRows := JoinRealms(src.realms, At(BaseRows(stat, src, t), stat, t));
    JoinRealmsKnown(src.realms, At(BaseRows(stat, src, t), stat, t), src);
    GroupKeys(realmRows, Known(src));
    StampKeys(GroupSum(realmRows), stat, t, Known(src));
    InstallationKeys(At(RealmRows(stat, src, t), stat, t), stat, t);
  }

  lemma {:induction false} FilledKnown(stat: CountStat, src: Source, t: int, k: TableName)
    requires AuditRealmsMatch(src) && (stat.Logging? ==> ObjectsKnown(src))
    ensures AllKnown(Filled(stat, src, t, k), src)
    decreases t - Epoch(src)
  {
    hide TableRows, AuditRealmsMatch, ObjectsKnown, Known;
    if t > Epoch(src) {
      FilledKnown(stat, src, t - stat.Step(), k);
      TableRowsKnown(stat, src, t, k);
    }
  }

  /** In every reachable state the rows of a stat meet the uniqueness constraint of their table, on
      the user or the stream alone and with NULL taken as a value: no insert is ever refused. */
  lemma ConstraintsHold(s: State, stat: CountStat, k: TableName)
    requires Exact(s, stat) && KeysAreSound(s.src) && (stat.Logging? ==> ObjectsKnown(s.src))
    ensures NoConflict(Of(s.db.Table(k), stat))
  {
    hide Of, Filled, TableRows, Logged, KeysAreSound, UniqueRows, NoConflict, FillOk, Known;
    KeysSound(s.src);
    NoRowTwice(s, stat, k);
    if k in stat.UndoTables() {
      ManagedView(s, stat, k);
      if stat in s.db.fills {
        var t := s.db.fills[stat].endTime;
        FilledKnown(stat, s.src, t, k);
        FilledKnown(stat, s.src, t - stat.Step(), k);
        TableRowsKnown(stat, s.src, t, k);
      }
    } else {
      LoggedKeys(s.src.increments, stat, Known(s.src));
    }
    KnownRowsDoNotConflict(Of(s.db.Table(k), stat), s.src);
  }
}
