/** Ordinary traffic satisfies the stability hypothesis: what happens later than the filled
    end_times leaves the rows of every filled window as they were. */
module Traffic {
  import opened Lists
  import opened TimeGrid
  import opened Grouping
  import opened CountStats
  import opened CountTables
  import opened SourceData
  import opened Queries
  import opened FillMachine
  import opened FillSafety
  import opened FillSpec
  import opened FillExactness
  import opened LoggingStats
  import opened RowKeys
  import opened MessageCounts

  // ----- later traffic

  /** src' extends src by what happens from t on: nothing is deleted, whatever is added or extended
      lies after t, and so does whatever refers to a new row. */
  ghost predicate Extended(src: Source, src': Source, t: int) {
    && src.realms <= src'.realms && src.users <= src'.users && src.streams <= src'.streams
    && src.recipients <= src'.recipients && src.messages <= src'.messages && src.audit <= src'.audit
    && UniqueStreams(src'.streams)
    && (forall i :: |src.messages| <= i < |src'.messages| ==> t <= src'.messages[i].pubDate)
    && (forall i :: |src.audit| <= i < |src'.audit| ==> t <= src'.audit[i].eventTime)
    && IntervalsGrew(src.intervals, src'.intervals, t)
    && (forall i :: |src.users| <= i < |src'.users| ==> LaterUser(src', src'.users[i].id, t))
    && (forall i :: |src.recipients| <= i < |src'.recipients| ==> LaterRecipient(src', src'.recipients[i].id, t))
    && (forall i :: |src.streams| <= i < |src'.streams| ==> LaterStream(src', src'.streams[i], t))
    && FreshRealms(src, src'.realms[|src.realms|..])
  }

  /** Whatever refers to the user is later. */
  ghost predicate LaterUser(src: Source, user: int, t: int) {
    && (forall m :: m in src.messages && m.sender == user ==> t <= m.pubDate)
    && (forall e :: e in src.audit && e.modifiedUser == Some(user) ==> t <= e.eventTime)
    && (forall x :: x in src.intervals && x.user == user ==> t <= x.start)
  }

  ghost predicate LaterRecipient(src: Source, recipient: int, t: int) {
    forall m :: m in src.messages && m.recipient == recipient ==> t <= m.pubDate
  }

  ghost predicate LaterStream(src: Source, s: Stream, t: int) {
    t <= s.dateCreated
    && forall r :: r in src.recipients && NamesStream(r) && r.typeId == s.id ==> LaterRecipient(src, r.id, t)
  }

  /** Nothing of src belongs to a new realm. */
  ghost predicate FreshRealms(src: Source, more: seq<Realm>) {
    && (forall realm, u :: realm in more && u in src.users ==> u.realm != realm.id)
    && (forall realm, s :: realm in more && s in src.streams ==> s.realm != realm.id)
    && (forall realm, e :: realm in more && e in src.audit ==> e.realm != realm.id)
  }

  /** The recipient names a stream; the LEFT JOIN matches the others by accident alone. */
  predicate NamesStream(r: Recipient) { r.kind != PERSONAL && r.kind != HUDDLE }

  /** x may have become y: what changed lies after t. */
  predicate Continues(x: Interval, y: Interval, t: int) {
    && y.user == x.user
    && (y.start == x.start || (t <= x.start && t <= y.start))
    && (y.end == x.end || (t <= x.end && t <= y.end))
  }

  ghost predicate IntervalsGrew(xs: seq<Interval>, ys: seq<Interval>, t: int) {
    && |xs| <= |ys|
    && (forall i :: 0 <= i < |xs| ==> Continues(xs[i], ys[i], t))
    && forall i :: |xs| <= i < |ys| ==> t <= ys[i].start
  }

  lemma ExtendedEarlier(src: Source, src': Source, t: int, u: int)
    requires Extended(src, src', t) && u <= t
    ensures Extended(src, src', u)
  {
  }

  // ----- do_update_user_activity_interval

  ghost predicate IsLatest(xs: seq<Interval>, user: int, i: nat) {
    i < |xs| && xs[i].user == user && forall j :: 0 <= j < |xs| && xs[j].user == user ==> xs[j].end <= xs[i].end
  }

  predicate Overlaps(last: Interval, logTime: int) {
    var effectiveEnd := logTime + MIN_INTERVAL_LENGTH;
    (last.start <= logTime <= last.end) || (last.start <= effectiveEnd <= last.end)
  }

  /** The user's latest interval is extended when the new one overlaps it; otherwise one is created. */
  ghost predicate ActivityLogged(xs: seq<Interval>, ys: seq<Interval>, user: int, logTime: int) {
    var effectiveEnd := logTime + MIN_INTERVAL_LENGTH;
    || (exists i: nat :: IsLatest(xs, user, i) && Overlaps(xs[i], logTime)
          && ys == xs[i := Interval(user, Min(xs[i].start, logTime), Max(xs[i].end, effectiveEnd))])
    || ys == xs + [Interval(user, logTime, effectiveEnd)]
  }

  /** Activity from the filled end_time on extends only what reaches it. */
  lemma ActivityGrows(xs: seq<Interval>, ys: seq<Interval>, user: int, logTime: int, t: int)
    requires ActivityLogged(xs, ys, user, logTime) && t <= logTime
    ensures IntervalsGrew(xs, ys, t)
  {
  }

  // ----- count_message_by_user_query

  lemma UserMessagesAreLater(src: Source, src': Source, g: MessageGrouping, start: int, end: int)
    requires Extended(src, src', end)
    ensures JoinUserMessages(src'.users, src'.messages, g, start, end)
      == JoinUserMessages(src.users, src.messages, g, start, end)
  {
    var before, now := MessagesOf(src.messages, g, start, end), MessagesOf(src'.messages, g, start, end);
    forall i | 0 <= i < |src.users| ensures now(src'.users[i]) == before(src.users[i]) {
      var entry := MessageEntry(src.users[i], g, start, end);
      FlatMapExtends(src.messages, src'.messages, entry, entry);
    }
    forall i | |src.users| <= i < |src'.users| ensures now(src'.users[i]) == [] {
      var entry := MessageEntry(src'.users[i], g, start, end);
      assert LaterUser(src', src'.users[i].id, end);
      FlatMapExtends([], src'.messages, entry, entry);
    }
    FlatMapExtends(src.users, src'.users, before, now);
  }

  // ----- count_message_type_by_user_query

  lemma {:induction false} OuterConcat(a: seq<Entry<InnerGroup>>, b: seq<Entry<InnerGroup>>)
    ensures Outer(a + b) == Outer(a) + Outer(b)
  {
    if a == [] {
      assert a + b == b;
    } else {
      assert (a + b)[1..] == a[1..] + b;
      OuterConcat(a[1..], b);
    }
  }

  ghost function OuterOf<A>(f: A -> seq<Entry<InnerGroup>>): A -> seq<Entry<Slot>> { (x: A) => Outer(f(x)) }

  lemma {:induction false} OuterFlatMap<A>(xs: seq<A>, f: A -> seq<Entry<InnerGroup>>)
    ensures Outer(FlatMap(xs, f)) == FlatMap(xs, OuterOf(f))
  {
    if xs != [] {
      OuterFlatMap(xs[1..], f);
      OuterConcat(f(xs[0]), FlatMap(xs[1..], f));
    }
  }

  lemma UniquePrefix(ss: seq<Stream>, more: seq<Stream>)
    requires UniqueStreams(ss + more)
    ensures UniqueStreams(ss)
  {
    assert forall i :: 0 <= i < |ss| ==> (ss + more)[i] == ss[i];
  }

  /** A new stream whose id a personal or huddle recipient happens to name changes the inner group
      of the recipient's messages and not their type. */
  lemma OuterOfOne(u: User, r: Recipient, ss: seq<Stream>, more: seq<Stream>)
    requires UniqueStreams(ss + more) && (NamesStream(r) ==> forall s :: s in more ==> s.id != r.typeId)
    ensures Outer(InnerEntries(u, r.kind, LeftJoinStreams(r, ss + more)))
      == Outer(InnerEntries(u, r.kind, LeftJoinStreams(r, ss)))
  {
    UniquePrefix(ss, more);
    LeftJoinTypes(r, ss);
    LeftJoinTypes(r, ss + more);
    if NamesStream(r) {
      FlatMapExtends(ss, ss + more, InviteOnly(r.typeId), InviteOnly(r.typeId));
    } else {
      OuterOfSingle(u, r.kind, LeftJoinStreams(r, ss)[0]);
      OuterOfSingle(u, r.kind, LeftJoinStreams(r, ss + more)[0]);
      assert LeftJoinStreams(r, ss) == [LeftJoinStreams(r, ss)[0]];
      assert LeftJoinStreams(r, ss + more) == [LeftJoinStreams(r, ss + more)[0]];
    }
  }

  lemma OuterOfSingle(u: User, kind: int, invite: Option<bool>)
    ensures Outer(InnerEntries(u, kind, [invite]))
      == [Entry(Slot(UserKey(u.id, u.realm), Text(MessageType(kind, invite))), 1)]
  {
    var e := Entry(InnerGroup(u.realm, u.id, kind, invite), 1);
    assert [invite][1..] == [] && [e][1..] == [];
    assert InnerEntries(u, kind, [invite]) == [e];
  }

  lemma RecipientsOfMessage(src: Source, src': Source, u: User, m: Message, end: int)
    requires Extended(src, src', end) && m in src'.messages && m.pubDate < end
    ensures Outer(JoinRecipients(u, m, src'.recipients, src'.streams))
      == Outer(JoinRecipients(u, m, src.recipients, src.streams))
  {
    hide Outer;
    var ss, more := src.streams, src'.streams[|src.streams|..];
    var before, now := RecipientEntries(u, m, ss), RecipientEntries(u, m, src'.streams);
    assert src'.streams == ss + more;
    OuterFlatMap(src.recipients, before);
    OuterFlatMap(src'.recipients, now);
    assert Outer([]) == [] by { OuterOfNothing(); }
    forall i | 0 <= i < |src.recipients|
      ensures OuterOf(now)(src'.recipients[i]) == OuterOf(before)(src.recipients[i])
    {
      var r := src'.recipients[i];
      if r.id == m.recipient {
        forall j | 0 <= j < |more| && NamesStream(r) ensures more[j].id != r.typeId {
          assert LaterStream(src', src'.streams[|ss| + j], end);
        }
        OuterOfOne(u, r, ss, more);
      }
    }
    forall i | |src.recipients| <= i < |src'.recipients| ensures OuterOf(now)(src'.recipients[i]) == [] {
      assert LaterRecipient(src', src'.recipients[i].id, end);
    }
    FlatMapExtends(src.recipients, src'.recipients, OuterOf(before), OuterOf(now));
  }

  lemma OuterOfNothing()
    ensures Outer([]) == []
  {
  }

  lemma TypedMessagesOfUser(src: Source, src': Source, u: User, start: int, end: int)
    requires Extended(src, src', end)
    ensures Outer(UserTypedMessages(u, src'.messages, src'.recipients, src'.streams, start, end))
      == Outer(UserTypedMessages(u, src.messages, src.recipients, src.streams, start, end))
  {
    hide Outer, JoinRecipients;
    var before := TypedEntries(u, src.recipients, src.streams, start, end);
    var now := TypedEntries(u, src'.recipients, src'.streams, start, end);
    OuterFlatMap(src.messages, before);
    OuterFlatMap(src'.messages, now);
    OuterOfNothing();
    forall i | 0 <= i < |src.messages| ensures OuterOf(now)(src'.messages[i]) == OuterOf(before)(src.messages[i]) {
      if src'.messages[i].pubDate < end { RecipientsOfMessage(src, src', u, src'.messages[i], end); }
    }
    forall i | |src.messages| <= i < |src'.messages| ensures OuterOf(now)(src'.messages[i]) == [] {}
    FlatMapExtends(src.messages, src'.messages, OuterOf(before), OuterOf(now));
  }

  lemma TypedMessagesAreLater(src: Source, src': Source, start: int, end: int)
    requires Extended(src, src', end)
    ensures Outer(JoinTypedMessages(src'.users, src'.messages, src'.recipients, src'.streams, start, end))
      == Outer(JoinTypedMessages(src.users, src.messages, src.recipients, src.streams, start, end))
  {
    hide Outer, JoinRecipients;
    var before := TypedMessagesOf(src.messages, src.recipients, src.streams, start, end);
    var now := TypedMessagesOf(src'.messages, src'.recipients, src'.streams, start, end);
    OuterFlatMap(src.users, before);
    OuterFlatMap(src'.users, now);
    OuterOfNothing();
    forall i | 0 <= i < |src.users| ensures OuterOf(now)(src'.users[i]) == OuterOf(before)(src.users[i]) {
      TypedMessagesOfUser(src, src', src.users[i], start, end);
    }
    forall i | |src.users| <= i < |src'.users| ensures OuterOf(now)(src'.users[i]) == [] {
      var entries := TypedEntries(src'.users[i], src'.recipients, src'.streams, start, end);
      assert LaterUser(src', src'.users[i].id, end);
      FlatMapExtends([], src'.messages, entries, entries);
    }
    FlatMapExtends(src.users, src'.users, OuterOf(before), OuterOf(now));
  }

  // ----- count_message_by_stream_query

  lemma SendersAreKnown(src: Source, src': Source, s: Stream, m: Message, end: int)
    requires Extended(src, src', end) && m in src'.messages && m.pubDate < end
    ensures JoinSenders(s, m, src'.users) == JoinSenders(s, m, src.users)
  {
    var entry := SenderEntry(s, m);
    forall i | |src.users| <= i < |src'.users| ensures entry(src'.users[i]) == [] {
      assert LaterUser(src', src'.users[i].id, end);
    }
    FlatMapExtends(src.users, src'.users, entry, entry);
  }

  lemma MessagesViaRecipient(src: Source, src': Source, s: Stream, r: Recipient, start: int, end: int)
    requires Extended(src, src', end)
    ensures StreamMessages(s, r, src'.messages, src'.users, start, end)
      == StreamMessages(s, r, src.messages, src.users, start, end)
  {
    hide JoinSenders;
    var before, now := SenderEntries(r, s, src.users, start, end), SenderEntries(r, s, src'.users, start, end);
    forall i | 0 <= i < |src.messages| ensures now(src'.messages[i]) == before(src.messages[i]) {
      if src'.messages[i].pubDate < end { SendersAreKnown(src, src', s, src'.messages[i], end); }
    }
    FlatMapExtends(src.messages, src'.messages, before, now);
  }

  lemma MessagesToStream(src: Source, src': Source, s: Stream, start: int, end: int)
    requires Extended(src, src', end)
    ensures StreamRecipients(s, src'.recipients, src'.messages, src'.users, start, end)
      == StreamRecipients(s, src.recipients, src.messages, src.users, start, end)
  {
    hide JoinSenders;
    var before := MessagesVia(s, src.messages, src.users, start, end);
    var now := MessagesVia(s, src'.messages, src'.users, start, end);
    forall i | 0 <= i < |src.recipients| ensures now(src'.recipients[i]) == before(src.recipients[i]) {
      MessagesViaRecipient(src, src', s, src.recipients[i], start, end);
    }
    forall i | |src.recipients| <= i < |src'.recipients| ensures now(src'.recipients[i]) == [] {
      var entries := SenderEntries(src'.recipients[i], s, src'.users, start, end);
      assert LaterRecipient(src', src'.recipients[i].id, end);
      FlatMapExtends([], src'.messages, entries, entries);
    }
    FlatMapExtends(src.recipients, src'.recipients, before, now);
  }

  lemma StreamMessagesAreLater(src: Source, src': Source, start: int, end: int)
    requires Extended(src, src', end)
    ensures JoinStreamMessages(src'.streams, src'.recipients, src'.messages, src'.users, start, end)
      == JoinStreamMessages(src.streams, src.recipients, src.messages, src.users, start, end)
  {
    hide StreamMessages;
    var before := MessagesTo(src.recipients, src.messages, src.users, start, end);
    var now := MessagesTo(src'.recipients, src'.messages, src'.users, start, end);
    forall i | 0 <= i < |src.streams| ensures now(src'.streams[i]) == before(src.streams[i]) {
      MessagesToStream(src, src', src.streams[i], start, end);
    }
    forall i | |src.streams| <= i < |src'.streams| ensures now(src'.streams[i]) == [] {
      var via := MessagesVia(src'.streams[i], src'.messages, src'.users, start, end);
      assert LaterStream(src', src'.streams[i], end);
      FlatMapExtends([], src'.recipients, via, via);
    }
    FlatMapExtends(src.streams, src'.streams, before, now);
  }

  // ----- check_realmauditlog_by_user_query

  lemma {:induction false} LastEventLater(a: seq<AuditEvent>, b: seq<AuditEvent>, user: int, end: int)
    requires forall e :: e in b ==> end <= e.eventTime
    ensures LastEventTime(a + b, user, end) == LastEventTime(a, user, end)
    decreases |a| + |b|
  {
    if a != [] {
      assert (a + b)[1..] == a[1..] + b;
      LastEventLater(a[1..], b, user, end);
    } else if b != [] {
      assert b[0] in b && forall e :: e in b[1..] ==> e in b;
      assert a + b == b && [] + b[1..] == b[1..];
      LastEventLater([], b[1..], user, end);
    }
  }

  lemma {:induction false} LastEventEarlier(audit: seq<AuditEvent>, user: int, end: int)
    ensures LastEventTime(audit, user, end).Some? ==> LastEventTime(audit, user, end).value < end
  {
    if audit != [] { LastEventEarlier(audit[1..], user, end); }
  }

  lemma ProfilesAreKnown(src: Source, src': Source, e: AuditEvent, end: int)
    requires Extended(src, src', end) && e in src'.audit && e.eventTime < end
    ensures JoinProfiles(e, src'.users) == JoinProfiles(e, src.users)
  {
    forall i | |src.users| <= i < |src'.users| ensures ProfileEntry(e)(src'.users[i]) == [] {
      assert LaterUser(src', src'.users[i].id, end);
    }
    FlatMapExtends(src.users, src'.users, ProfileEntry(e), ProfileEntry(e));
  }

  lemma EventsAreLater(src: Source, src': Source, end: int)
    requires Extended(src, src', end)
    ensures JoinLastEvents(src'.audit, src'.audit, src'.users, end)
      == JoinLastEvents(src.audit, src.audit, src.users, end)
  {
    hide JoinProfiles;
    var more := src'.audit[|src.audit|..];
    var before, now := LastEventEntries(src.audit, src.users, end), LastEventEntries(src'.audit, src'.users, end);
    assert src'.audit == src.audit + more;
    forall i | 0 <= i < |src'.audit|
      ensures i < |src.audit| ==> now(src'.audit[i]) == before(src.audit[i])
      ensures |src.audit| <= i ==> now(src'.audit[i]) == []
    {
      var e := src'.audit[i];
      if e.modifiedUser.Some? {
        LastEventLater(src.audit, more, e.modifiedUser.value, end);
        LastEventEarlier(src'.audit, e.modifiedUser.value, end);
      }
      if e.eventTime < end { ProfilesAreKnown(src, src', e, end); }
    }
    FlatMapExtends(src.audit, src'.audit, before, now);
  }

  // ----- check_useractivityinterval_by_user_query and do_pull_minutes_active

  lemma IntervalsAreLater(src: Source, src': Source, start: int, end: int)
    requires Extended(src, src', end) && start < end
    ensures JoinIntervals(src'.users, src'.intervals, start, end) == JoinIntervals(src.users, src.intervals, start, end)
  {
    var before, now := IntervalsOf(src.intervals, start, end), IntervalsOf(src'.intervals, start, end);
    forall i | 0 <= i < |src.users| ensures now(src'.users[i]) == before(src.users[i]) {
      var entry := IntervalEntry(src.users[i], start, end);
      forall j | 0 <= j < |src.intervals| ensures entry(src'.intervals[j]) == entry(src.intervals[j]) {
        assert Continues(src.intervals[j], src'.intervals[j], end);
      }
      FlatMapExtends(src.intervals, src'.intervals, entry, entry);
    }
    forall i | |src.users| <= i < |src'.users| ensures now(src'.users[i]) == [] {
      var entry := IntervalEntry(src'.users[i], start, end);
      assert LaterUser(src', src'.users[i].id, end);
      FlatMapExtends([], src'.intervals, entry, entry);
    }
    FlatMapExtends(src.users, src'.users, before, now);
  }

  lemma OwnersAreKnown(src: Source, src': Source, x: Interval, y: Interval, start: int, end: int)
    requires Extended(src, src', end) && y in src'.intervals && Continues(x, y, end) && x.start < end
    ensures JoinOwner(y, src'.users, start, end) == JoinOwner(x, src.users, start, end)
  {
    forall i | |src.users| <= i < |src'.users| ensures OwnerEntry(y, start, end)(src'.users[i]) == [] {
      assert LaterUser(src', src'.users[i].id, end);
    }
    FlatMapExtends(src.users, src'.users, OwnerEntry(x, start, end), OwnerEntry(y, start, end));
  }

  lemma ClippedIntervalsAreLater(src: Source, src': Source, start: int, end: int)
    requires Extended(src, src', end) && start < end
    ensures ClippedIntervals(src'.intervals, src'.users, start, end)
      == ClippedIntervals(src.intervals, src.users, start, end)
  {
    hide JoinOwner;
    var before, now := ClippedEntries(src.users, start, end), ClippedEntries(src'.users, start, end);
    forall i | 0 <= i < |src.intervals| ensures now(src'.intervals[i]) == before(src.intervals[i]) {
      assert Continues(src.intervals[i], src'.intervals[i], end);
      if src.intervals[i].start < end {
        OwnersAreKnown(src, src', src.intervals[i], src'.intervals[i], start, end);
      }
    }
    FlatMapExtends(src.intervals, src'.intervals, before, now);
  }

  // ----- the inner grouping leaves no trace after the outer one

  /** Adding to an inner group adds to its outer group. */
  lemma {:induction false} OuterUpsert(acc: seq<Entry<Slot>>, es: seq<Entry<InnerGroup>>, k: InnerGroup, v: int)
    ensures UpsertAll(acc, Outer(Upsert(es, k, v))) == Upsert(UpsertAll(acc, Outer(es)), OuterSlot(k), v)
    decreases |es|
  {
    hide OuterSlot;
    if es == [] {
      var e := Entry(OuterSlot(k), v);
      assert [Entry(k, v)][1..] == [] && [e][1..] == [];
      assert Outer(Upsert(es, k, v)) == [e];
    } else {
      var slot, amount := OuterSlot(es[0].group), es[0].amount;
      if es[0].group == k {
        assert Upsert(es, k, v)[1..] == es[1..];
        UpsertTwice(acc, slot, amount, v);
        UpsertSpec(acc, slot, amount, slot);
        UpsertAllCommutes(Upsert(acc, slot, amount), Outer(es[1..]), slot, v);
      } else {
        assert Upsert(es, k, v)[1..] == Upsert(es[1..], k, v);
        OuterUpsert(Upsert(acc, slot, amount), es[1..], k, v);
      }
    }
  }

  lemma {:induction false} InnerGroupingIsInvisible(es: seq<Entry<InnerGroup>>)
    ensures GroupSum(Outer(GroupSum(es))) == GroupSum(Outer(es))
  {
    hide OuterSlot;
    if es != [] {
      var init, last := es[..|es| - 1], es[|es| - 1];
      var e := Entry(OuterSlot(last.group), last.amount);
      assert es == init + [last];
      InnerGroupingIsInvisible(init);
      OuterConcat(init, [last]);
      assert [last][1..] == [];
      assert Outer([last]) == [e];
      GroupSumIsUpsertAll(Outer(GroupSum(init)));
      GroupSumIsUpsertAll(Outer(GroupSum(es)));
      OuterUpsert([], GroupSum(init), last.group, last.amount);
      assert (Outer(init) + [e])[..|Outer(init)|] == Outer(init);
    }
  }

  // ----- new realms

  lemma JoinRealmsMore(realms: seq<Realm>, more: seq<Realm>, rows: seq<Row>)
    requires forall realm, r :: realm in more && r in rows ==> r.key.InstallationKey? || r.key.realm != realm.id
    ensures JoinRealms(realms + more, rows) == JoinRealms(realms, rows)
  {
    forall i | 0 <= i < |more| ensures RealmEntries(rows)(more[i]) == [] {
      FlatMapExtends([], rows, RealmEntry(more[i]), RealmEntry(more[i]));
    }
    FlatMapExtends(realms, realms + more, RealmEntries(rows), RealmEntries(rows));
  }

  // ----- whole pulls and tables

  lemma PullLater(stat: CountStat, src: Source, src': Source, table: seq<Row>, start: int, end: int)
    requires !stat.Logging? && Extended(src, src', end) && start < end
    ensures PullEntries(stat, src', table, start, end) == PullEntries(stat, src, table, start, end)
  {
    hide JoinUserMessages, JoinTypedMessages, JoinStreamMessages, JoinLastEvents;
    hide JoinIntervals, ClippedIntervals, JoinHumans;
    hide GroupSum, Outer, Extended;
    match stat
    case MessagesSentByIsBot => UserMessagesAreLater(src, src', ByIsBot, start, end);
    case MessagesSentByType =>
      TypedMessagesAreLater(src, src', start, end);
      InnerGroupingIsInvisible(JoinTypedMessages(src.users, src.messages, src.recipients, src.streams, start, end));
      InnerGroupingIsInvisible(JoinTypedMessages(src'.users, src'.messages, src'.recipients, src'.streams, start, end));
    case MessagesSentByClient => UserMessagesAreLater(src, src', ByClient, start, end);
    case MessagesInStreamByIsBot => StreamMessagesAreLater(src, src', start, end);
    case ActiveUsersAudit => EventsAreLater(src, src', end);
    case FifteenDayActives => IntervalsAreLater(src, src', start, end);
    case MinutesActive => ClippedIntervalsAreLater(src, src', start, end);
    case RealmActiveHumans =>
  }

  lemma BaseLater(stat: CountStat, src: Source, src': Source, t: int)
    requires !stat.Logging? && Extended(src, src', t)
    ensures BaseRows(stat, src', t) == BaseRows(stat, src, t)
  {
    hide PullEntries, Stamp, Extended;
    PullLater(ActiveUsersAudit, src, src', [], t - ActiveUsersAudit.Interval(), t);
    PullLater(FifteenDayActives, src, src', [], t - FifteenDayActives.Interval(), t);
    PullLater(stat, src, src', DependencyRows(stat, src, t), t - stat.Interval(), t);
  }

  ghost function NotIn(realms: seq<Realm>): Key -> bool {
    (k: Key) => k.InstallationKey? || forall realm :: realm in realms ==> k.realm != realm.id
  }

  lemma RealmRowsLater(stat: CountStat, src: Source, src': Source, t: int)
    requires !stat.Logging? && Extended(src, src', t)
    ensures RealmRows(stat, src', t) == RealmRows(stat, src, t)
  {
    hide BaseRows, GroupSum, Stamp, JoinRealms, At;
    BaseLater(stat, src, src', t);
    if stat.Output() != RealmTable {
      var more, base := src'.realms[|src.realms|..], BaseRows(stat, src, t);
      assert src'.realms == src.realms + more;
      BaseKeys(stat, src, t, NotIn(more));
      AtMembersOf(base, stat, t, NotIn(more));
      JoinRealmsMore(src.realms, more, At(base, stat, t));
    }
  }

  lemma AtMembersOf(rows: seq<Row>, stat: CountStat, t: int, p: Key -> bool)
    requires forall r :: r in rows ==> p(r.key)
    ensures forall r :: r in At(rows, stat, t) ==> p(r.key)
  {
    forall r | r in At(rows, stat, t) ensures p(r.key) { AtMembers(rows, stat, t, r); }
  }

  lemma TableRowsLater(stat: CountStat, src: Source, src': Source, t: int, k: TableName)
    requires !stat.Logging? && Extended(src, src', t)
    ensures TableRows(stat, src', t, k) == TableRows(stat, src, t, k)
  {
    hide BaseRows, RealmRows, InstallationRollup, Extended;
    BaseLater(stat, src, src', t);
    RealmRowsLater(stat, src, src', t);
  }

  /** What happens from the last filled end_time of stat on disturbs none of its filled windows:
      messages, audit events, activity that begins or is extended, and new realms, users, streams
      and recipients. */
  lemma LaterTrafficUndisturbed(s: State, src: Source, stat: CountStat)
    requires !stat.Logging? && (stat in s.db.fills ==> Extended(s.src, src, s.db.fills[stat].endTime))
    ensures Undisturbed(s, Grow(src), stat)
  {
    hide TableRows, Extended, OnGrid;
    if stat in s.db.fills {
      var end, src' := s.db.fills[stat].endTime, src.(increments := s.src.increments);
      assert Extended(s.src, src', end) by { ExtendedIgnoresIncrements(s.src, src, end); }
      forall t, k {:trigger TableRows(stat, s.src, t, k)} | t <= end
        ensures TableRows(stat, src', t, k) == TableRows(stat, s.src, t, k)
      {
        ExtendedEarlier(s.src, src', end, t);
        TableRowsLater(stat, s.src, src', t, k);
      }
    }
  }

  lemma ExtendedIgnoresIncrements(src: Source, src': Source, t: int)
    requires Extended(src, src', t)
    ensures Extended(src, src'.(increments := src.increments), t)
  {
  }

  /** All that changes in the source comes after what stat and its dependencies have filled, and the
      earliest realm stays the earliest. */
  ghost predicate LaterTraffic(src: Source, es: seq<Event>, stat: CountStat) {
    es != [] ==>
      var s, e := Reach(src, es[..|es| - 1]), es[|es| - 1];
      LaterTraffic(src, es[..|es| - 1], stat) && EpochKept(s, e)
      && (e.Grow? && stat in s.db.fills ==> Extended(s.src, e.src, s.db.fills[stat].endTime))
      && forall d :: d in stat.Dependencies() && e.Grow? && d in s.db.fills ==>
        Extended(s.src, e.src, s.db.fills[d].endTime)
  }

  /** So ordinary histories meet the stability hypothesis: any calls, crashes and increments, and
      traffic later than the filled end_times. */
  lemma {:induction false} LaterTrafficIsStable(src: Source, es: seq<Event>, stat: CountStat)
    requires !stat.Logging? && LaterTraffic(src, es, stat)
    ensures Stable(src, es, stat)
  {
    hide Undisturbed, Extended, Apply;
    if es != [] {
      var s, e := Reach(src, es[..|es| - 1]), es[|es| - 1];
      LaterTrafficIsStable(src, es[..|es| - 1], stat);
      EventUndisturbed(s, e, stat);
      forall d | d in stat.Dependencies() ensures Undisturbed(s, e, d) { EventUndisturbed(s, e, d); }
    }
  }

  lemma EventUndisturbed(s: State, e: Event, stat: CountStat)
    requires !stat.Logging? && (e.Grow? && stat in s.db.fills ==> Extended(s.src, e.src, s.db.fills[stat].endTime))
    ensures Undisturbed(s, e, stat)
  {
    hide Undisturbed, Extended, Apply;
    if e.Grow? {
      LaterTrafficUndisturbed(s, e.src, stat);
    } else if e.Log? {
      LogLeavesPulls(s, e.increment, stat);
    } else {
      QuietEvents(s, e, stat);
    }
  }
}
