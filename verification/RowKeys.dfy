/** The keys of inserted rows come from rows of the source. */
module RowKeys {
  import opened Lists
  import opened Grouping
  import opened CountStats
  import opened CountTables
  import opened SourceData
  import opened Queries
  import opened FillSpec
  import opened Rollups

  ghost predicate Keys(es: seq<Entry<Slot>>, p: Key -> bool) { forall e :: e in es ==> p(e.group.key) }

  ghost predicate InnerKeys(es: seq<Entry<InnerGroup>>, p: Key -> bool) {
    forall e :: e in es ==> p(OuterSlot(e.group).key)
  }

  ghost function HasKey(p: Key -> bool): Entry<Slot> -> bool { (e: Entry<Slot>) => p(e.group.key) }

  lemma JoinUserMessagesKeys(us: seq<User>, ms: seq<Message>, g: MessageGrouping, start: int, end: int, p: Key -> bool)
    requires forall u :: u in us ==> p(UserKey(u.id, u.realm))
    ensures Keys(JoinUserMessages(us, ms, g, start, end), p)
  {
    forall u | u in us ensures forall e :: e in UserMessages(u, ms, g, start, end) ==> HasKey(p)(e) {
      FlatMapAll(ms, MessageEntry(u, g, start, end), HasKey(p));
    }
    FlatMapAll(us, MessagesOf(ms, g, start, end), HasKey(p));
  }

  ghost function HasInnerKey(p: Key -> bool): Entry<InnerGroup> -> bool {
    (e: Entry<InnerGroup>) => p(OuterSlot(e.group).key)
  }

  lemma {:induction false} InnerEntriesKeys(u: User, kind: int, invites: seq<Option<bool>>, p: Key -> bool)
    requires p(UserKey(u.id, u.realm))
    ensures forall e :: e in InnerEntries(u, kind, invites) ==> HasInnerKey(p)(e)
  {
    if invites != [] {
      InnerEntriesKeys(u, kind, invites[1..], p);
      var head := Entry(InnerGroup(u.realm, u.id, kind, invites[0]), 1);
      assert InnerEntries(u, kind, invites) == [head] + InnerEntries(u, kind, invites[1..]);
      assert OuterSlot(head.group).key == UserKey(u.id, u.realm);
    }
  }

  lemma TypedKeys(u: User, m: Message, rs: seq<Recipient>, streams: seq<Stream>, p: Key -> bool)
    requires p(UserKey(u.id, u.realm))
    ensures forall e :: e in JoinRecipients(u, m, rs, streams) ==> HasInnerKey(p)(e)
  {
    forall r | r in rs
      ensures forall e :: e in InnerEntries(u, r.kind, LeftJoinStreams(r, streams)) ==> HasInnerKey(p)(e)
    {
      InnerEntriesKeys(u, r.kind, LeftJoinStreams(r, streams), p);
    }
    FlatMapAll(rs, RecipientEntries(u, m, streams), HasInnerKey(p));
  }

  lemma JoinTypedKeys(us: seq<User>, ms: seq<Message>, rs: seq<Recipient>, streams: seq<Stream>, start: int, end: int,
      p: Key -> bool)
    requires forall u :: u in us ==> p(UserKey(u.id, u.realm))
    ensures InnerKeys(JoinTypedMessages(us, ms, rs, streams, start, end), p)
  {
    hide JoinRecipients;
    forall u | u in us
      ensures forall e :: e in UserTypedMessages(u, ms, rs, streams, start, end) ==> HasInnerKey(p)(e)
    {
      forall m | m in ms ensures forall e :: e in JoinRecipients(u, m, rs, streams) ==> HasInnerKey(p)(e) {
        TypedKeys(u, m, rs, streams, p);
      }
      FlatMapAll(ms, TypedEntries(u, rs, streams, start, end), HasInnerKey(p));
    }
    FlatMapAll(us, TypedMessagesOf(ms, rs, streams, start, end), HasInnerKey(p));
  }

  lemma StreamKeys(s: Stream, r: Recipient, ms: seq<Message>, us: seq<User>, start: int, end: int, p: Key -> bool)
    requires p(StreamKey(s.id, s.realm))
    ensures forall e :: e in StreamMessages(s, r, ms, us, start, end) ==> HasKey(p)(e)
  {
    forall m | m in ms ensures forall e :: e in JoinSenders(s, m, us) ==> HasKey(p)(e) {
      FlatMapAll(us, SenderEntry(s, m), HasKey(p));
    }
    FlatMapAll(ms, SenderEntries(r, s, us, start, end), HasKey(p));
  }

  lemma JoinStreamsKeys(ss: seq<Stream>, rs: seq<Recipient>, ms: seq<Message>, us: seq<User>, start: int, end: int,
      p: Key -> bool)
    requires forall s :: s in ss ==> p(StreamKey(s.id, s.realm))
    ensures Keys(JoinStreamMessages(ss, rs, ms, us, start, end), p)
  {
    hide StreamMessages;
    forall s | s in ss ensures forall e :: e in StreamRecipients(s, rs, ms, us, start, end) ==> HasKey(p)(e) {
      forall r | r in rs ensures forall e :: e in StreamMessages(s, r, ms, us, start, end) ==> HasKey(p)(e) {
        StreamKeys(s, r, ms, us, start, end, p);
      }
      FlatMapAll(rs, MessagesVia(s, ms, us, start, end), HasKey(p));
    }
    FlatMapAll(ss, MessagesTo(rs, ms, us, start, end), HasKey(p));
  }

  lemma JoinLastEventsKeys(es: seq<AuditEvent>, audit: seq<AuditEvent>, us: seq<User>, end: int, p: Key -> bool)
    requires forall u, e :: u in us && e in es && Concerns(e, u.id) ==> p(UserKey(u.id, e.realm))
    ensures Keys(JoinLastEvents(es, audit, us, end), p)
  {
    hide LastEventTime;
    forall e | e in es && e.eventType.Activates() ensures forall x :: x in JoinProfiles(e, us) ==> HasKey(p)(x) {
      assert forall u :: u in us && e.modifiedUser == Some(u.id) ==> Concerns(e, u.id);
      FlatMapAll(us, ProfileEntry(e), HasKey(p));
    }
    FlatMapAll(es, LastEventEntries(audit, us, end), HasKey(p));
  }

  lemma JoinIntervalsKeys(us: seq<User>, xs: seq<Interval>, start: int, end: int, p: Key -> bool)
    requires forall u :: u in us ==> p(UserKey(u.id, u.realm))
    ensures Keys(JoinIntervals(us, xs, start, end), p)
  {
    forall u | u in us ensures forall e :: e in UserIntervals(u, xs, start, end) ==> HasKey(p)(e) {
      FlatMapAll(xs, IntervalEntry(u, start, end), HasKey(p));
    }
    FlatMapAll(us, IntervalsOf(xs, start, end), HasKey(p));
  }

  lemma ClippedKeys(xs: seq<Interval>, us: seq<User>, start: int, end: int, p: Key -> bool)
    requires forall u :: u in us ==> p(UserKey(u.id, u.realm))
    ensures Keys(ClippedIntervals(xs, us, start, end), p)
  {
    forall x | x in xs ensures forall e :: e in JoinOwner(x, us, start, end) ==> HasKey(p)(e) {
      FlatMapAll(us, OwnerEntry(x, start, end), HasKey(p));
    }
    FlatMapAll(xs, ClippedEntries(us, start, end), HasKey(p));
  }

  lemma JoinHumansKeys(audits: seq<Row>, actives: seq<Row>, p: Key -> bool)
    requires forall realm :: p(RealmKey(realm))
    ensures Keys(JoinHumans(audits, actives), p)
  {
    forall a | a in audits ensures forall e :: e in JoinActives(a, actives) ==> HasKey(p)(e) {
      FlatMapAll(actives, ActiveEntry(a), HasKey(p));
    }
    FlatMapAll(audits, HumanEntries(actives), HasKey(p));
  }

  // ----- through grouping, relabelling and stamping

  lemma GroupKeys(es: seq<Entry<Slot>>, p: Key -> bool)
    requires Keys(es, p)
    ensures Keys(GroupSum(es), p)
  {
    hide GroupSum;
    forall e | e in GroupSum(es) ensures p(e.group.key) { GroupSumSpec(es, e.group); }
  }

  lemma InnerGroupKeys(es: seq<Entry<InnerGroup>>, p: Key -> bool)
    requires InnerKeys(es, p)
    ensures InnerKeys(GroupSum(es), p)
  {
    hide GroupSum;
    forall e | e in GroupSum(es) ensures p(OuterSlot(e.group).key) { GroupSumSpec(es, e.group); }
  }

  lemma {:induction false} OuterKeys(es: seq<Entry<InnerGroup>>, p: Key -> bool)
    requires InnerKeys(es, p)
    ensures Keys(Outer(es), p)
  {
    if es != [] {
      assert es[0] in es && forall e :: e in es[1..] ==> e in es;
      OuterKeys(es[1..], p);
    }
  }

  lemma {:induction false} OnesKeys(es: seq<Entry<Slot>>, p: Key -> bool)
    requires Keys(es, p)
    ensures Keys(Ones(es), p)
  {
    if es != [] {
      assert es[0] in es && forall e :: e in es[1..] ==> e in es;
      OnesKeys(es[1..], p);
    }
  }

  lemma {:induction false} WholeMinutesKeys(es: seq<Entry<Slot>>, p: Key -> bool)
    requires Keys(es, p)
    ensures Keys(WholeMinutes(es), p)
  {
    if es != [] {
      assert es[0] in es && forall e :: e in es[1..] ==> e in es;
      WholeMinutesKeys(es[1..], p);
    }
  }

  lemma {:induction false} StampKeys(es: seq<Entry<Slot>>, stat: CountStat, t: int, p: Key -> bool)
    requires Keys(es, p)
    ensures forall r :: r in Stamp(es, stat, t) ==> p(r.key)
  {
    if es != [] {
      assert es[0] in es && forall e :: e in es[1..] ==> e in es;
      StampKeys(es[1..], stat, t, p);
    }
  }

  /** p holds of every key that stat's query can take from the source. */
  ghost predicate Offers(stat: CountStat, src: Source, p: Key -> bool)
    requires !stat.Logging?
  {
    match stat
    case MessagesInStreamByIsBot => forall s :: s in src.streams ==> p(StreamKey(s.id, s.realm))
    case ActiveUsersAudit =>
      forall u, e :: u in src.users && e in src.audit && Concerns(e, u.id) ==> p(UserKey(u.id, e.realm))
    case RealmActiveHumans => forall realm :: p(RealmKey(realm))
    case _ => forall u :: u in src.users ==> p(UserKey(u.id, u.realm))
  }

  lemma PullKeys(stat: CountStat, src: Source, table: seq<Row>, start: int, end: int, p: Key -> bool)
    requires !stat.Logging? && Offers(stat, src, p)
    ensures forall r :: r in Pull(stat, src, table, start, end) ==> p(r.key)
  {
    hide JoinUserMessages, JoinTypedMessages, JoinStreamMessages, JoinLastEvents;
    hide JoinIntervals, ClippedIntervals, JoinHumans;
    hide GroupSum, Stamp, Outer, Ones, WholeMinutes, Keys, InnerKeys;
    match stat {
      case MessagesSentByIsBot =>
        JoinUserMessagesKeys(src.users, src.messages, ByIsBot, start, end, p);
        GroupKeys(JoinUserMessages(src.users, src.messages, ByIsBot, start, end), p);
      case MessagesSentByType =>
        var inner := JoinTypedMessages(src.users, src.messages, src.recipients, src.streams, start, end);
        JoinTypedKeys(src.users, src.messages, src.recipients, src.streams, start, end, p);
        InnerGroupKeys(inner, p);
        OuterKeys(GroupSum(inner), p);
        GroupKeys(Outer(GroupSum(inner)), p);
      case MessagesSentByClient =>
        JoinUserMessagesKeys(src.users, src.messages, ByClient, start, end, p);
        GroupKeys(JoinUserMessages(src.users, src.messages, ByClient, start, end), p);
      case MessagesInStreamByIsBot =>
        JoinStreamsKeys(src.streams, src.recipients, src.messages, src.users, start, end, p);
        GroupKeys(JoinStreamMessages(src.streams, src.recipients, src.messages, src.users, start, end), p);
      case ActiveUsersAudit =>
        JoinLastEventsKeys(src.audit, src.audit, src.users, end, p);
      case FifteenDayActives =>
        JoinIntervalsKeys(src.users, src.intervals, start, end, p);
        GroupKeys(JoinIntervals(src.users, src.intervals, start, end), p);
        OnesKeys(GroupSum(JoinIntervals(src.users, src.intervals, start, end)), p);
      case MinutesActive =>
        ClippedKeys(src.intervals, src.users, start, end, p);
        GroupKeys(ClippedIntervals(src.intervals, src.users, start, end), p);
        WholeMinutesKeys(GroupSum(ClippedIntervals(src.intervals, src.users, start, end)), p);
      case RealmActiveHumans =>
        JoinHumansKeys(At(table, ActiveUsersAudit, end), At(table, FifteenDayActives, end), p);
        GroupKeys(JoinHumans(At(table, ActiveUsersAudit, end), At(table, FifteenDayActives, end)), p);
    }
    StampKeys(PullEntries(stat, src, table, start, end), stat, end, p);
  }

  lemma BaseKeys(stat: CountStat, src: Source, t: int, p: Key -> bool)
    requires !stat.Logging? && Offers(stat, src, p)
    ensures forall r :: r in BaseRows(stat, src, t) ==> p(r.key)
  {
    hide Pull, DependencyRows, Offers;
    PullKeys(stat, src, DependencyRows(stat, src, t), t - stat.Interval(), t, p);
  }

  // ----- the realms of the rows

  ghost function HasRealm(realms: seq<Realm>): Key -> bool {
    (k: Key) => !k.InstallationKey? && Resolves(k.realm, realms)
  }

  lemma KeysCover(rows: seq<Row>, realms: seq<Realm>)
    requires forall r :: r in rows ==> HasRealm(realms)(r.key)
    ensures Covered(rows, realms)
  {
    forall r | r in rows ensures !r.key.InstallationKey? && exists realm :: realm in realms && realm.id == r.key.realm {
      assert HasRealm(realms)(r.key);
    }
  }

  /** When the foreign keys resolve, the join with the realm table loses no row of a query. */
  lemma BaseIsCovered(stat: CountStat, src: Source, t: int)
    requires !stat.Logging? && stat.Output() != RealmTable
    requires UsersHaveRealms(src) && StreamsHaveRealms(src) && EventsHaveRealms(src)
    ensures Covered(BaseRows(stat, src, t), src.realms)
  {
    hide BaseRows;
    BaseKeys(stat, src, t, HasRealm(src.realms));
    KeysCover(BaseRows(stat, src, t), src.realms);
  }
}
