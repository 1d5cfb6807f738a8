/** The message queries equal direct counts over the message table. */
module MessageCounts {
  import opened Grouping
  import opened CountStats
  import opened CountTables
  import opened SourceData
  import opened Queries

  /** The number of messages that satisfy p. */
  ghost function Count(ms: seq<Message>, p: Message -> bool): nat {
    if ms == [] then 0 else (if p(ms[0]) then 1 else 0) + Count(ms[1..], p)
  }

  lemma {:induction false} CountSame(ms: seq<Message>, a: Message -> bool, b: Message -> bool)
    requires forall m :: m in ms ==> a(m) == b(m)
    ensures Count(ms, a) == Count(ms, b)
  {
    if ms != [] {
      assert ms[0] in ms && forall m :: m in ms[1..] ==> m in ms;
      CountSame(ms[1..], a, b);
    }
  }

  lemma {:induction false} CountSplit(ms: seq<Message>, c: Message -> bool, a: Message -> bool, b: Message -> bool)
    requires forall m :: m in ms ==> c(m) == (a(m) || b(m)) && !(a(m) && b(m))
    ensures Count(ms, c) == Count(ms, a) + Count(ms, b)
  {
    if ms != [] {
      assert ms[0] in ms && forall m :: m in ms[1..] ==> m in ms;
      CountSplit(ms[1..], c, a, b);
    }
  }

  lemma {:induction false} CountNone(ms: seq<Message>, p: Message -> bool)
    requires forall m :: m in ms ==> !p(m)
    ensures Count(ms, p) == 0
  {
    if ms != [] {
      assert ms[0] in ms && forall m :: m in ms[1..] ==> m in ms;
      CountNone(ms[1..], p);
    }
  }

  // ----- count_message_by_user_query

  predicate Sent(u: User, m: Message, start: int, end: int) {
    u.id == m.sender && u.dateJoined < end && InWindow(m.pubDate, start, end)
  }

  function SentSlot(u: User, m: Message, g: MessageGrouping): Slot {
    Slot(UserKey(u.id, u.realm), MessageLabel(g, u, m))
  }

  ghost predicate CountedOf(u: User, m: Message, g: MessageGrouping, start: int, end: int, p: Slot -> bool) {
    Sent(u, m, start, end) && p(SentSlot(u, m, g))
  }

  ghost predicate CountedIn(us: seq<User>, m: Message, g: MessageGrouping, start: int, end: int, p: Slot -> bool) {
    exists u :: u in us && CountedOf(u, m, g, start, end, p)
  }

  ghost function Counted(us: seq<User>, g: MessageGrouping, start: int, end: int, p: Slot -> bool): Message -> bool {
    (m: Message) => CountedIn(us, m, g, start, end, p)
  }

  lemma {:induction false} UserMessagesCount(u: User, ms: seq<Message>, g: MessageGrouping, start: int, end: int,
      p: Slot -> bool)
    ensures SumWhere(UserMessages(u, ms, g, start, end), p)
      == Count(ms, (m: Message) => CountedOf(u, m, g, start, end, p))
  {
    if ms != [] {
      UserMessagesCount(u, ms[1..], g, start, end, p);
      SumWhereConcat(MessageEntry(u, g, start, end)(ms[0]), UserMessages(u, ms[1..], g, start, end), p);
    }
  }

  /** Before grouping, the join of users and messages has one tuple for each message that some
      user of the list sent; no message is joined twice. */
  lemma {:induction false} JoinCountsMessages(us: seq<User>, ms: seq<Message>, g: MessageGrouping, start: int,
      end: int, p: Slot -> bool)
    requires UniqueUsers(us)
    ensures SumWhere(JoinUserMessages(us, ms, g, start, end), p) == Count(ms, Counted(us, g, start, end, p))
  {
    if us == [] {
      CountNone(ms, Counted(us, g, start, end, p));
    } else {
      var first := (m: Message) => CountedOf(us[0], m, g, start, end, p);
      SumWhereConcat(UserMessages(us[0], ms, g, start, end), JoinUserMessages(us[1..], ms, g, start, end), p);
      UserMessagesCount(us[0], ms, g, start, end, p);
      UniqueTail(us);
      JoinCountsMessages(us[1..], ms, g, start, end, p);
      forall m | m in ms
        ensures Counted(us, g, start, end, p)(m) == (first(m) || Counted(us[1..], g, start, end, p)(m))
        ensures !(first(m) && Counted(us[1..], g, start, end, p)(m))
      {
        assert forall u :: u in us <==> u == us[0] || u in us[1..];
        if u :| u in us[1..] && CountedOf(u, m, g, start, end, p) { TailDiffers(us, u); }
      }
      CountSplit(ms, Counted(us, g, start, end, p), first, Counted(us[1..], g, start, end, p));
    }
  }

  // ----- count_message_type_by_user_query

  /** The four types, defined on the recipient and, for streams alone, on the stream. */
  ghost function TypeOf(r: Recipient, streams: seq<Stream>): string {
    if r.kind == PERSONAL then "private_message"
    else if r.kind == HUDDLE then "huddle_message"
    else if exists s :: s in streams && s.id == r.typeId && s.inviteOnly == Some(true) then "private_stream"
    else "public_stream"
  }

  ghost predicate Typed(u: User, m: Message, r: Recipient, start: int, end: int) {
    u.id == m.sender && InWindow(m.pubDate, start, end) && r.id == m.recipient
  }

  ghost predicate TypedBy(u: User, m: Message, r: Recipient, streams: seq<Stream>, start: int, end: int,
      p: Slot -> bool) {
    Typed(u, m, r, start, end) && p(Slot(UserKey(u.id, u.realm), Text(TypeOf(r, streams))))
  }

  ghost predicate TypedOf(u: User, m: Message, rs: seq<Recipient>, streams: seq<Stream>, start: int, end: int,
      p: Slot -> bool) {
    exists r :: r in rs && TypedBy(u, m, r, streams, start, end, p)
  }

  ghost predicate TypedIn(us: seq<User>, m: Message, rs: seq<Recipient>, streams: seq<Stream>, start: int, end: int,
      p: Slot -> bool) {
    exists u :: u in us && TypedOf(u, m, rs, streams, start, end, p)
  }

  ghost function CountedTyped(us: seq<User>, rs: seq<Recipient>, streams: seq<Stream>, start: int, end: int,
      p: Slot -> bool): Message -> bool {
    (m: Message) => TypedIn(us, m, rs, streams, start, end, p)
  }

  function ViaOuter(p: Slot -> bool): InnerGroup -> bool { (g: InnerGroup) => p(OuterSlot(g)) }

  lemma {:induction false} OuterSums(es: seq<Entry<InnerGroup>>, p: Slot -> bool)
    ensures SumWhere(Outer(es), p) == SumWhere(es, ViaOuter(p))
  {
    if es != [] { OuterSums(es[1..], p); }
  }

  lemma {:induction false} MatchingStreamsSpec(typeId: int, streams: seq<Stream>)
    requires UniqueStreams(streams)
    ensures |MatchingStreams(typeId, streams)| <= 1
    ensures forall s :: s in streams && s.id == typeId ==> MatchingStreams(typeId, streams) == [s.inviteOnly]
    ensures MatchingStreams(typeId, streams) != [] ==> exists s :: s in streams && s.id == typeId
  {
    if streams != [] {
      forall i, j | 0 <= i < j < |streams[1..]| ensures streams[1..][i].id != streams[1..][j].id {
        assert streams[1..][i] == streams[i + 1] && streams[1..][j] == streams[j + 1];
      }
      MatchingStreamsSpec(typeId, streams[1..]);
      assert forall s :: s in streams <==> s == streams[0] || s in streams[1..];
      if streams[0].id == typeId {
        forall s | s in streams[1..] ensures s.id != typeId {
          var j :| 0 <= j < |streams[1..]| && streams[1..][j] == s;
          assert streams[j + 1] == s;
        }
      }
    }
  }

  /** The LEFT JOIN never duplicates a recipient, and the stream it may match by accident for a
      personal or huddle recipient does not change the type; a NULL invite_only is public. */
  lemma LeftJoinTypes(r: Recipient, streams: seq<Stream>)
    requires UniqueStreams(streams)
    ensures |LeftJoinStreams(r, streams)| == 1
    ensures MessageType(r.kind, LeftJoinStreams(r, streams)[0]) == TypeOf(r, streams)
  {
    MatchingStreamsSpec(r.typeId, streams);
  }

  /** The same with the numbers that Recipient gives its kinds. */
  lemma TypesByKind(r: Recipient, streams: seq<Stream>)
    requires UniqueStreams(streams)
    ensures r.kind == 1 ==> MessageType(r.kind, LeftJoinStreams(r, streams)[0]) == "private_message"
    ensures r.kind == 3 ==> MessageType(r.kind, LeftJoinStreams(r, streams)[0]) == "huddle_message"
    ensures r.kind == 2 && (exists s :: s in streams && s.id == r.typeId && s.inviteOnly == Some(true)) ==>
      MessageType(r.kind, LeftJoinStreams(r, streams)[0]) == "private_stream"
    ensures r.kind == 2 && (forall s :: s in streams && s.id == r.typeId ==> s.inviteOnly != Some(true)) ==>
      MessageType(r.kind, LeftJoinStreams(r, streams)[0]) == "public_stream"
    ensures STREAM == 2
  {
    LeftJoinTypes(r, streams);
  }

  ghost predicate InnerCount(u: User, m: Message, r: Recipient, streams: seq<Stream>, p: Slot -> bool) {
    r.id == m.recipient && p(Slot(UserKey(u.id, u.realm), Text(TypeOf(r, streams))))
  }

  lemma {:induction false} JoinRecipientsCount(u: User, m: Message, rs: seq<Recipient>, streams: seq<Stream>,
      p: Slot -> bool)
    requires UniqueRecipients(rs) && UniqueStreams(streams)
    ensures SumWhere(JoinRecipients(u, m, rs, streams), ViaOuter(p))
      == if exists r :: r in rs && InnerCount(u, m, r, streams, p) then 1 else 0
  {
    if rs != [] {
      forall i, j | 0 <= i < j < |rs[1..]| ensures rs[1..][i].id != rs[1..][j].id {
        assert rs[1..][i] == rs[i + 1] && rs[1..][j] == rs[j + 1];
      }
      JoinRecipientsCount(u, m, rs[1..], streams, p);
      assert forall r :: r in rs <==> r == rs[0] || r in rs[1..];
      forall r | r in rs[1..] ensures r.id != rs[0].id {
        var j :| 0 <= j < |rs[1..]| && rs[1..][j] == r;
        assert rs[j + 1] == r;
      }
      var head := if rs[0].id == m.recipient then InnerEntries(u, rs[0].kind, LeftJoinStreams(rs[0], streams)) else [];
      SumWhereConcat(head, JoinRecipients(u, m, rs[1..], streams), ViaOuter(p));
      OneRecipientSum(u, rs[0], streams, p);
      if rs[0].id == m.recipient {
        assert !exists r :: r in rs[1..] && InnerCount(u, m, r, streams, p);
      }
      assert (exists r :: r in rs && InnerCount(u, m, r, streams, p))
        <==> InnerCount(u, m, rs[0], streams, p) || exists r :: r in rs[1..] && InnerCount(u, m, r, streams, p);
    }
  }

  lemma OneRecipientSum(u: User, r: Recipient, streams: seq<Stream>, p: Slot -> bool)
    requires UniqueStreams(streams)
    ensures SumWhere(InnerEntries(u, r.kind, LeftJoinStreams(r, streams)), ViaOuter(p))
      == if p(Slot(UserKey(u.id, u.realm), Text(TypeOf(r, streams)))) then 1 else 0
  {
    LeftJoinTypes(r, streams);
    var invites := LeftJoinStreams(r, streams);
    var e := Entry(InnerGroup(u.realm, u.id, r.kind, invites[0]), 1);
    assert InnerEntries(u, r.kind, invites[1..]) == [];
    assert InnerEntries(u, r.kind, invites) == [e];
    assert [e][1..] == [];
    assert OuterSlot(e.group) == Slot(UserKey(u.id, u.realm), Text(TypeOf(r, streams)));
    assert ViaOuter(p)(e.group) == p(OuterSlot(e.group));
  }

  lemma {:induction false} UserTypedCount(u: User, ms: seq<Message>, rs: seq<Recipient>, streams: seq<Stream>,
      start: int, end: int, p: Slot -> bool)
    requires UniqueRecipients(rs) && UniqueStreams(streams)
    ensures SumWhere(UserTypedMessages(u, ms, rs, streams, start, end), ViaOuter(p))
      == Count(ms, (m: Message) => TypedOf(u, m, rs, streams, start, end, p))
  {
    if ms != [] {
      UserTypedCount(u, ms[1..], rs, streams, start, end, p);
      JoinRecipientsCount(u, ms[0], rs, streams, p);
      var sent := u.id == ms[0].sender && InWindow(ms[0].pubDate, start, end);
      var head := if sent then JoinRecipients(u, ms[0], rs, streams) else [];
      SumWhereConcat(head, UserTypedMessages(u, ms[1..], rs, streams, start, end), ViaOuter(p));
      assert TypedOf(u, ms[0], rs, streams, start, end, p)
        <==> sent && exists r :: r in rs && InnerCount(u, ms[0], r, streams, p) by {
        forall r
          ensures TypedBy(u, ms[0], r, streams, start, end, p) <==> sent && InnerCount(u, ms[0], r, streams, p)
        {}
      }
    }
  }

  /** Grouping by (realm, user, recipient type, invite_only) and then by (realm, user, type) gives
      the direct count per user and type: each message falls in exactly one of the four types. */
  lemma {:induction false} TypedJoinCountsMessages(us: seq<User>, ms: seq<Message>, rs: seq<Recipient>,
      streams: seq<Stream>, start: int, end: int, p: Slot -> bool)
    requires UniqueUsers(us) && UniqueRecipients(rs) && UniqueStreams(streams)
    ensures SumWhere(JoinTypedMessages(us, ms, rs, streams, start, end), ViaOuter(p))
      == Count(ms, CountedTyped(us, rs, streams, start, end, p))
  {
    if us == [] {
      CountNone(ms, CountedTyped(us, rs, streams, start, end, p));
    } else {
      var first := (m: Message) => TypedOf(us[0], m, rs, streams, start, end, p);
      var rest := CountedTyped(us[1..], rs, streams, start, end, p);
      SumWhereConcat(UserTypedMessages(us[0], ms, rs, streams, start, end),
        JoinTypedMessages(us[1..], ms, rs, streams, start, end), ViaOuter(p));
      UserTypedCount(us[0], ms, rs, streams, start, end, p);
      UniqueTail(us);
      TypedJoinCountsMessages(us[1..], ms, rs, streams, start, end, p);
      forall m | m in ms
        ensures CountedTyped(us, rs, streams, start, end, p)(m) == (first(m) || rest(m))
        ensures !(first(m) && rest(m))
      {
        assert forall u :: u in us <==> u == us[0] || u in us[1..];
        if u :| u in us[1..] && TypedOf(u, m, rs, streams, start, end, p) { TailDiffers(us, u); }
      }
      CountSplit(ms, CountedTyped(us, rs, streams, start, end, p), first, rest);
    }
  }

  lemma TwoLevelTypes(src: Source, start: int, end: int, p: Slot -> bool)
    requires UniqueIds(src)
    ensures SumWhere(PullEntries(MessagesSentByType, src, [], start, end), p)
      == Count(src.messages, CountedTyped(src.users, src.recipients, src.streams, start, end, p))
  {
    var inner := JoinTypedMessages(src.users, src.messages, src.recipients, src.streams, start, end);
    TypedJoinCountsMessages(src.users, src.messages, src.recipients, src.streams, start, end, p);
    GroupSumWhere(inner, ViaOuter(p));
    OuterSums(GroupSum(inner), p);
    GroupSumWhere(Outer(GroupSum(inner)), p);
  }

  // ----- count_message_by_stream_query

  ghost predicate StreamHit(s: Stream, m: Message, u: User, p: Slot -> bool) {
    u.id == m.sender && p(Slot(StreamKey(s.id, s.realm), BoolText(u.isBot)))
  }

  ghost predicate StreamHitIn(s: Stream, m: Message, us: seq<User>, p: Slot -> bool) {
    exists u :: u in us && StreamHit(s, m, u, p)
  }

  ghost predicate SentTo(s: Stream, r: Recipient, m: Message, us: seq<User>, start: int, end: int, p: Slot -> bool) {
    m.recipient == r.id && InWindow(m.pubDate, start, end) && StreamHitIn(s, m, us, p)
  }

  ghost predicate SentVia(s: Stream, r: Recipient, m: Message, us: seq<User>, start: int, end: int, p: Slot -> bool) {
    r.typeId == s.id && r.kind == STREAM && s.dateCreated < end && SentTo(s, r, m, us, start, end, p)
  }

  ghost predicate SentToStream(s: Stream, rs: seq<Recipient>, m: Message, us: seq<User>, start: int, end: int,
      p: Slot -> bool) {
    exists r :: r in rs && SentVia(s, r, m, us, start, end, p)
  }

  ghost predicate SentToStreams(ss: seq<Stream>, rs: seq<Recipient>, m: Message, us: seq<User>, start: int, end: int,
      p: Slot -> bool) {
    exists s :: s in ss && SentToStream(s, rs, m, us, start, end, p)
  }

  ghost function CountedInStreams(ss: seq<Stream>, rs: seq<Recipient>, us: seq<User>, start: int, end: int,
      p: Slot -> bool): Message -> bool {
    (m: Message) => SentToStreams(ss, rs, m, us, start, end, p)
  }

  lemma {:induction false} JoinSendersCount(s: Stream, m: Message, us: seq<User>, p: Slot -> bool)
    requires UniqueUsers(us)
    ensures SumWhere(JoinSenders(s, m, us), p) == if StreamHitIn(s, m, us, p) then 1 else 0
  {
    if us != [] {
      UniqueTail(us);
      JoinSendersCount(s, m, us[1..], p);
      assert forall u :: u in us <==> u == us[0] || u in us[1..];
      assert StreamHitIn(s, m, us, p) <==> StreamHit(s, m, us[0], p) || StreamHitIn(s, m, us[1..], p);
      if us[0].id == m.sender {
        forall u | u in us[1..] ensures !StreamHit(s, m, u, p) { TailDiffers(us, u); }
        assert SumWhere(JoinSenders(s, m, us)[1..], p) == 0;
      } else {
        assert JoinSenders(s, m, us) == JoinSenders(s, m, us[1..]);
      }
    }
  }

  lemma {:induction false} StreamMessagesCount(s: Stream, r: Recipient, ms: seq<Message>, us: seq<User>, start: int,
      end: int, p: Slot -> bool)
    requires UniqueUsers(us)
    ensures SumWhere(StreamMessages(s, r, ms, us, start, end), p)
      == Count(ms, (m: Message) => SentTo(s, r, m, us, start, end, p))
  {
    if ms != [] {
      StreamMessagesCount(s, r, ms[1..], us, start, end, p);
      JoinSendersCount(s, ms[0], us, p);
      var head := if ms[0].recipient == r.id && InWindow(ms[0].pubDate, start, end) then JoinSenders(s, ms[0], us)
        else [];
      SumWhereConcat(head, StreamMessages(s, r, ms[1..], us, start, end), p);
    }
  }

  lemma {:induction false} StreamRecipientsCount(s: Stream, rs: seq<Recipient>, ms: seq<Message>, us: seq<User>,
      start: int, end: int, p: Slot -> bool)
    requires UniqueUsers(us) && UniqueRecipients(rs)
    ensures SumWhere(StreamRecipients(s, rs, ms, us, start, end), p)
      == Count(ms, (m: Message) => SentToStream(s, rs, m, us, start, end, p))
  {
    var all := (m: Message) => SentToStream(s, rs, m, us, start, end, p);
    if rs == [] {
      CountNone(ms, all);
    } else {
      forall i, j | 0 <= i < j < |rs[1..]| ensures rs[1..][i].id != rs[1..][j].id {
        assert rs[1..][i] == rs[i + 1] && rs[1..][j] == rs[j + 1];
      }
      var rest := (m: Message) => SentToStream(s, rs[1..], m, us, start, end, p);
      var takes := rs[0].typeId == s.id && rs[0].kind == STREAM && s.dateCreated < end;
      var first := (m: Message) => SentVia(s, rs[0], m, us, start, end, p);
      StreamRecipientsCount(s, rs[1..], ms, us, start, end, p);
      StreamMessagesCount(s, rs[0], ms, us, start, end, p);
      var head := if takes then StreamMessages(s, rs[0], ms, us, start, end) else [];
      SumWhereConcat(head, StreamRecipients(s, rs[1..], ms, us, start, end), p);
      if takes {
        CountSame(ms, first, (m: Message) => SentTo(s, rs[0], m, us, start, end, p));
      } else {
        CountNone(ms, first);
      }
      forall m | m in ms ensures all(m) == (first(m) || rest(m)) && !(first(m) && rest(m)) {
        assert forall r :: r in rs <==> r == rs[0] || r in rs[1..];
        if r :| r in rs[1..] && SentVia(s, r, m, us, start, end, p) {
          var j :| 0 <= j < |rs[1..]| && rs[1..][j] == r;
          assert rs[j + 1] == r;
        }
      }
      CountSplit(ms, all, first, rest);
    }
  }

  /** messages_in_stream counts each message that a known user sent to a known stream once. */
  lemma {:induction false} StreamJoinCountsMessages(ss: seq<Stream>, rs: seq<Recipient>, ms: seq<Message>,
      us: seq<User>, start: int, end: int, p: Slot -> bool)
    requires UniqueUsers(us) && UniqueRecipients(rs) && UniqueStreams(ss)
    ensures SumWhere(JoinStreamMessages(ss, rs, ms, us, start, end), p)
      == Count(ms, CountedInStreams(ss, rs, us, start, end, p))
  {
    if ss == [] {
      CountNone(ms, CountedInStreams(ss, rs, us, start, end, p));
    } else {
      forall i, j | 0 <= i < j < |ss[1..]| ensures ss[1..][i].id != ss[1..][j].id {
        assert ss[1..][i] == ss[i + 1] && ss[1..][j] == ss[j + 1];
      }
      var first := (m: Message) => SentToStream(ss[0], rs, m, us, start, end, p);
      var rest := CountedInStreams(ss[1..], rs, us, start, end, p);
      StreamJoinCountsMessages(ss[1..], rs, ms, us, start, end, p);
      StreamRecipientsCount(ss[0], rs, ms, us, start, end, p);
      SumWhereConcat(StreamRecipients(ss[0], rs, ms, us, start, end),
        JoinStreamMessages(ss[1..], rs, ms, us, start, end), p);
      forall m | m in ms
        ensures CountedInStreams(ss, rs, us, start, end, p)(m) == (first(m) || rest(m))
        ensures !(first(m) && rest(m))
      {
        assert forall s :: s in ss <==> s == ss[0] || s in ss[1..];
        if s :| s in ss[1..] && SentToStream(s, rs, m, us, start, end, p) {
          var j :| 0 <= j < |ss[1..]| && ss[1..][j] == s;
          assert ss[j + 1] == s;
          if first(m) { OneRecipient(rs, m, s, ss[0], us, start, end, p); }
        }
      }
      CountSplit(ms, CountedInStreams(ss, rs, us, start, end, p), first, rest);
    }
  }

  lemma OneRecipient(rs: seq<Recipient>, m: Message, s: Stream, s': Stream, us: seq<User>, start: int, end: int,
      p: Slot -> bool)
    requires UniqueRecipients(rs)
    requires SentToStream(s, rs, m, us, start, end, p) && SentToStream(s', rs, m, us, start, end, p)
    ensures s.id == s'.id
  {
    var r :| r in rs && SentVia(s, r, m, us, start, end, p);
    var r' :| r' in rs && SentVia(s', r', m, us, start, end, p);
    var i :| 0 <= i < |rs| && rs[i] == r;
    var j :| 0 <= j < |rs| && rs[j] == r';
    assert i == j;
  }
}
