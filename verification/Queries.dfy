/** The pull queries. A join is a nested loop that yields one entry for each joined tuple, so a
    join that matches twice counts twice. */
module Queries {
  import opened Lists
  import opened TimeGrid
  import opened Grouping
  import opened CountStats
  import opened CountTables
  import opened SourceData
  import Decimal

  function BoolText(b: bool): Subgroup { if b then Text("true") else Text("false") }

  // ----- count_message_by_user_query

  datatype MessageGrouping = ByIsBot | ByClient

  function MessageLabel(g: MessageGrouping, u: User, m: Message): Subgroup {
    match g
    case ByIsBot => BoolText(u.isBot)
    case ByClient => Text(Decimal.Str(m.client))
  }

  predicate InWindow(t: int, start: int, end: int) { start <= t < end }

  function MessageEntry(u: User, g: MessageGrouping, start: int, end: int): Message -> seq<Entry<Slot>> {
    (m: Message) =>
      if u.id == m.sender && u.dateJoined < end && InWindow(m.pubDate, start, end)
      then [Entry(Slot(UserKey(u.id, u.realm), MessageLabel(g, u, m)), 1)] else []
  }

  function UserMessages(u: User, ms: seq<Message>, g: MessageGrouping, start: int, end: int): seq<Entry<Slot>> {
    FlatMap(ms, MessageEntry(u, g, start, end))
  }

  function MessagesOf(ms: seq<Message>, g: MessageGrouping, start: int, end: int): User -> seq<Entry<Slot>> {
    (u: User) => UserMessages(u, ms, g, start, end)
  }

  function JoinUserMessages(us: seq<User>, ms: seq<Message>, g: MessageGrouping, start: int,
      end: int): seq<Entry<Slot>> {
    FlatMap(us, MessagesOf(ms, g, start, end))
  }

  // ----- count_message_type_by_user_query

  datatype InnerGroup = InnerGroup(realm: int, user: int, kind: int, inviteOnly: Option<bool>)

  function MessageType(kind: int, inviteOnly: Option<bool>): string {
    if kind == PERSONAL then "private_message"
    else if kind == HUDDLE then "huddle_message"
    else if inviteOnly == Some(true) then "private_stream"
    else "public_stream"
  }

  function InviteOnly(typeId: int): Stream -> seq<Option<bool>> {
    (s: Stream) => if s.id == typeId then [s.inviteOnly] else []
  }

  function MatchingStreams(typeId: int, streams: seq<Stream>): seq<Option<bool>> {
    FlatMap(streams, InviteOnly(typeId))
  }

  /** LEFT JOIN zerver_stream ON recipient.type_id = stream.id, whatever the recipient's type is. */
  function LeftJoinStreams(r: Recipient, streams: seq<Stream>): seq<Option<bool>> {
    var matching := MatchingStreams(r.typeId, streams);
    if matching == [] then [None] else matching
  }

  function InnerEntries(u: User, kind: int, invites: seq<Option<bool>>): seq<Entry<InnerGroup>> {
    if invites == [] then []
    else [Entry(InnerGroup(u.realm, u.id, kind, invites[0]), 1)] + InnerEntries(u, kind, invites[1..])
  }

  function RecipientEntries(u: User, m: Message, streams: seq<Stream>): Recipient -> seq<Entry<InnerGroup>> {
    (r: Recipient) =>
      if r.id == m.recipient then InnerEntries(u, r.kind, LeftJoinStreams(r, streams)) else []
  }

  function JoinRecipients(u: User, m: Message, rs: seq<Recipient>, streams: seq<Stream>): seq<Entry<InnerGroup>> {
    FlatMap(rs, RecipientEntries(u, m, streams))
  }

  function TypedEntries(u: User, rs: seq<Recipient>, streams: seq<Stream>, start: int,
      end: int): Message -> seq<Entry<InnerGroup>> {
    (m: Message) =>
      if u.id == m.sender && InWindow(m.pubDate, start, end) then JoinRecipients(u, m, rs, streams) else []
  }

  function UserTypedMessages(u: User, ms: seq<Message>, rs: seq<Recipient>, streams: seq<Stream>, start: int,
      end: int): seq<Entry<InnerGroup>> {
    FlatMap(ms, TypedEntries(u, rs, streams, start, end))
  }

  function TypedMessagesOf(ms: seq<Message>, rs: seq<Recipient>, streams: seq<Stream>, start: int,
      end: int): User -> seq<Entry<InnerGroup>> {
    (u: User) => UserTypedMessages(u, ms, rs, streams, start, end)
  }

  function JoinTypedMessages(us: seq<User>, ms: seq<Message>, rs: seq<Recipient>, streams: seq<Stream>, start: int,
      end: int): seq<Entry<InnerGroup>> {
    FlatMap(us, TypedMessagesOf(ms, rs, streams, start, end))
  }

  function OuterSlot(g: InnerGroup): Slot {
    Slot(UserKey(g.user, g.realm), Text(MessageType(g.kind, g.inviteOnly)))
  }

  function Outer(es: seq<Entry<InnerGroup>>): seq<Entry<Slot>> {
    if es == [] then [] else [Entry(OuterSlot(es[0].group), es[0].amount)] + Outer(es[1..])
  }

  // ----- count_message_by_stream_query

  function SenderEntry(s: Stream, m: Message): User -> seq<Entry<Slot>> {
    (u: User) =>
      if u.id == m.sender then [Entry(Slot(StreamKey(s.id, s.realm), BoolText(u.isBot)), 1)] else []
  }

  function JoinSenders(s: Stream, m: Message, us: seq<User>): seq<Entry<Slot>> {
    FlatMap(us, SenderEntry(s, m))
  }

  function SenderEntries(r: Recipient, s: Stream, us: seq<User>, start: int, end: int): Message -> seq<Entry<Slot>> {
    (m: Message) =>
      if m.recipient == r.id && InWindow(m.pubDate, start, end) then JoinSenders(s, m, us) else []
  }

  function StreamMessages(s: Stream, r: Recipient, ms: seq<Message>, us: seq<User>, start: int,
      end: int): seq<Entry<Slot>> {
    FlatMap(ms, SenderEntries(r, s, us, start, end))
  }

  function MessagesVia(s: Stream, ms: seq<Message>, us: seq<User>, start: int,
      end: int): Recipient -> seq<Entry<Slot>> {
    (r: Recipient) =>
      if r.typeId == s.id && r.kind == STREAM && s.dateCreated < end
      then StreamMessages(s, r, ms, us, start, end) else []
  }

  function StreamRecipients(s: Stream, rs: seq<Recipient>, ms: seq<Message>, us: seq<User>, start: int,
      end: int): seq<Entry<Slot>> {
    FlatMap(rs, MessagesVia(s, ms, us, start, end))
  }

  function MessagesTo(rs: seq<Recipient>, ms: seq<Message>, us: seq<User>, start: int,
      end: int): Stream -> seq<Entry<Slot>> {
    (s: Stream) => StreamRecipients(s, rs, ms, us, start, end)
  }

  function JoinStreamMessages(ss: seq<Stream>, rs: seq<Recipient>, ms: seq<Message>, us: seq<User>, start: int,
      end: int): seq<Entry<Slot>> {
    FlatMap(ss, MessagesTo(rs, ms, us, start, end))
  }

  // ----- check_realmauditlog_by_user_query

  predicate Concerns(e: AuditEvent, user: int) { e.modifiedUser == Some(user) && e.eventType.Relevant() }

  /** The sub-query ral2: max(event_time) of the user's relevant events before end. */
  function LastEventTime(audit: seq<AuditEvent>, user: int, end: int): Option<int> {
    if audit == [] then None
    else
      var rest := LastEventTime(audit[1..], user, end);
      if Concerns(audit[0], user) && audit[0].eventTime < end && (rest.None? || rest.value < audit[0].eventTime)
      then Some(audit[0].eventTime) else rest
  }

  function ProfileEntry(e: AuditEvent): User -> seq<Entry<Slot>> {
    (u: User) =>
      if e.modifiedUser == Some(u.id) then [Entry(Slot(UserKey(u.id, e.realm), BoolText(u.isBot)), 1)] else []
  }

  function JoinProfiles(e: AuditEvent, us: seq<User>): seq<Entry<Slot>> {
    FlatMap(us, ProfileEntry(e))
  }

  function LastEventEntries(audit: seq<AuditEvent>, us: seq<User>, end: int): AuditEvent -> seq<Entry<Slot>> {
    (e: AuditEvent) =>
      if e.eventType.Activates() && e.modifiedUser.Some?
      && LastEventTime(audit, e.modifiedUser.value, end) == Some(e.eventTime)
      then JoinProfiles(e, us) else []
  }

  function JoinLastEvents(es: seq<AuditEvent>, audit: seq<AuditEvent>, us: seq<User>, end: int): seq<Entry<Slot>> {
    FlatMap(es, LastEventEntries(audit, us, end))
  }

  // ----- check_useractivityinterval_by_user_query

  function IntervalEntry(u: User, start: int, end: int): Interval -> seq<Entry<Slot>> {
    (x: Interval) =>
      if x.user == u.id && start <= x.end && x.start < end then [Entry(Slot(UserKey(u.id, u.realm), Null), 1)] else []
  }

  function UserIntervals(u: User, xs: seq<Interval>, start: int, end: int): seq<Entry<Slot>> {
    FlatMap(xs, IntervalEntry(u, start, end))
  }

  function IntervalsOf(xs: seq<Interval>, start: int, end: int): User -> seq<Entry<Slot>> {
    (u: User) => UserIntervals(u, xs, start, end)
  }

  function JoinIntervals(us: seq<User>, xs: seq<Interval>, start: int, end: int): seq<Entry<Slot>> {
    FlatMap(us, IntervalsOf(xs, start, end))
  }

  /** SELECT ..., 1, ...: the literal replaces the amount. */
  function Ones(es: seq<Entry<Slot>>): seq<Entry<Slot>> {
    if es == [] then [] else [Entry(es[0].group, 1)] + Ones(es[1..])
  }

  // ----- do_pull_minutes_active

  function Max(a: int, b: int): int { if a < b then b else a }
  function Min(a: int, b: int): int { if a < b then a else b }

  function OwnerEntry(x: Interval, start: int, end: int): User -> seq<Entry<Slot>> {
    (u: User) =>
      if u.id == x.user
      then [Entry(Slot(UserKey(u.id, u.realm), Null), Min(end, x.end) - Max(start, x.start))] else []
  }

  /** The interval's user_profile and its realm; the foreign key is followed by an inner join. */
  function JoinOwner(x: Interval, us: seq<User>, start: int, end: int): seq<Entry<Slot>> {
    FlatMap(us, OwnerEntry(x, start, end))
  }

  function ClippedEntries(us: seq<User>, start: int, end: int): Interval -> seq<Entry<Slot>> {
    (x: Interval) => if x.end > start && x.start < end then JoinOwner(x, us, start, end) else []
  }

  function ClippedIntervals(xs: seq<Interval>, us: seq<User>, start: int, end: int): seq<Entry<Slot>> {
    FlatMap(xs, ClippedEntries(us, start, end))
  }

  function WholeMinutes(es: seq<Entry<Slot>>): seq<Entry<Slot>> {
    if es == [] then []
    else if es[0].amount >= MINUTE then [Entry(es[0].group, es[0].amount / MINUTE)] + WholeMinutes(es[1..])
    else WholeMinutes(es[1..])
  }

  // ----- count_realm_active_humans_query

  function ActiveEntry(a: Row): Row -> seq<Entry<Slot>> {
    (b: Row) =>
      if a.key.UserKey? && b.key.UserKey? && a.key.user == b.key.user
      then [Entry(Slot(RealmKey(a.key.realm), Null), 1)] else []
  }

  function JoinActives(a: Row, actives: seq<Row>): seq<Entry<Slot>> {
    FlatMap(actives, ActiveEntry(a))
  }

  function HumanEntries(actives: seq<Row>): Row -> seq<Entry<Slot>> {
    (a: Row) => if a.subgroup == Text("false") then JoinActives(a, actives) else []
  }

  function JoinHumans(audits: seq<Row>, actives: seq<Row>): seq<Entry<Slot>> {
    FlatMap(audits, HumanEntries(actives))
  }

  // ----- dispatch

  /** The rows that stat's pull function inserts; only realm_active_humans reads userTable. */
  function Pull(stat: CountStat, src: Source, userTable: seq<Row>, start: int, end: int): seq<Row>
    requires !stat.Logging?
  {
    Stamp(PullEntries(stat, src, userTable, start, end), stat, end)
  }

  function PullEntries(stat: CountStat, src: Source, userTable: seq<Row>, start: int, end: int): seq<Entry<Slot>>
    requires !stat.Logging?
  {
    match stat
    case MessagesSentByIsBot => GroupSum(JoinUserMessages(src.users, src.messages, ByIsBot, start, end))
    case MessagesSentByType =>
      GroupSum(Outer(GroupSum(JoinTypedMessages(src.users, src.messages, src.recipients, src.streams, start, end))))
    case MessagesSentByClient => GroupSum(JoinUserMessages(src.users, src.messages, ByClient, start, end))
    case MessagesInStreamByIsBot =>
      GroupSum(JoinStreamMessages(src.streams, src.recipients, src.messages, src.users, start, end))
    case ActiveUsersAudit => JoinLastEvents(src.audit, src.audit, src.users, end)
    case FifteenDayActives => Ones(GroupSum(JoinIntervals(src.users, src.intervals, start, end)))
    case MinutesActive => WholeMinutes(GroupSum(ClippedIntervals(src.intervals, src.users, start, end)))
    case RealmActiveHumans =>
      GroupSum(JoinHumans(At(userTable, ActiveUsersAudit, end), At(userTable, FifteenDayActives, end)))
  }

  // ----- do_increment_logging_stat

  /** get_or_create on the whole key, then value = F('value') + increment. */
  function IncrementRow(table: seq<Row>, stat: CountStat, slot: Slot, t: int, amount: int): seq<Row> {
    if table == [] then [Row(slot.key, stat, slot.subgroup, t, amount)]
    else if Row(slot.key, stat, slot.subgroup, t, table[0].value) == table[0] then
      [table[0].(value := table[0].value + amount)] + table[1..]
    else [table[0]] + IncrementRow(table[1..], stat, slot, t, amount)
  }

  /** What the increments alone have put into stat's output table. */
  function Logged(incs: seq<Increment>, stat: CountStat): seq<Row> {
    if incs == [] then []
    else
      var before, i := Logged(incs[..|incs| - 1], stat), incs[|incs| - 1];
      if i.stat == stat then IncrementRow(before, stat, i.slot, i.EndTime(), i.amount) else before
  }
}
