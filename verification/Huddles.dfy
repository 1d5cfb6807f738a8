/** Huddles are indexed by a hash of their members; the index agrees with the sets of members. */
module Huddles {
  import opened Lists
  import opened SourceData
  import Decimal

  datatype Subscription = Subscription(recipient: int, user: int)
  datatype Result = Ok(huddle: int) | IntegrityError

  // ----- the hash key: ",".join(str(x) for x in sorted(set(id_list)))

  ghost predicate IsLeast(m: int, s: set<int>) { m in s && forall x :: x in s ==> m <= x }

  lemma {:induction false} LeastExists(s: set<int>)
    requires s != {}
    ensures exists m :: IsLeast(m, s)
  {
    assert (forall x :: x !in s) ==> s == {};
    var x :| x in s;
    if s == {x} {
      assert IsLeast(x, s);
    } else {
      assert s - {x} != {} by { assert (s - {x}) + {x} == s; }
      LeastExists(s - {x});
      var m :| IsLeast(m, s - {x});
      var least := if m < x then m else x;
      assert IsLeast(least, s) by { assert s == (s - {x}) + {x}; }
    }
  }

  function Sorted(s: set<int>): seq<int> {
    if s == {} then []
    else
      LeastExists(s);
      assert exists m :: m in s && forall x :: x in s ==> m <= x by { var m :| IsLeast(m, s); }
      var m :| m in s && forall x :: x in s ==> m <= x;
      [m] + Sorted(s - {m})
  }

  lemma {:induction false} SortedMembers(s: set<int>)
    ensures Members(Sorted(s)) == s
  {
    if s != {} {
      var m := Sorted(s)[0];
      assert m in s && Sorted(s) == [m] + Sorted(s - {m}) by { LeastExists(s); }
      SortedMembers(s - {m});
      assert s == (s - {m}) + {m};
    }
  }

  lemma {:induction false} SortedAscends(s: set<int>)
    ensures forall i, j :: 0 <= i < j < |Sorted(s)| ==> Sorted(s)[i] < Sorted(s)[j]
  {
    if s != {} {
      var m := Sorted(s)[0];
      assert m in s && (forall x :: x in s ==> m <= x) && Sorted(s) == [m] + Sorted(s - {m}) by { LeastExists(s); }
      SortedAscends(s - {m});
      SortedMembers(s - {m});
      forall j | 0 < j < |Sorted(s)| ensures m < Sorted(s)[j] {
        assert Sorted(s)[j] in Members(Sorted(s - {m}));
      }
    }
  }

  function Join(ids: seq<int>): string {
    if ids == [] then ""
    else if |ids| == 1 then Decimal.Str(ids[0])
    else Decimal.Str(ids[0]) + "," + Join(ids[1..])
  }

  lemma NoComma(n: int)
    ensures ',' !in Decimal.Str(n)
  {
    assert ',' !in Decimal.DIGITS;
  }

  lemma FirstParts(a: string, x: string, b: string, y: string)
    requires a + "," + x == b + "," + y && ',' !in a && ',' !in b
    ensures a == b && x == y
  {
    var s := a + "," + x;
    assert s[|a|] == ',' && s[|b|] == ',';
    assert forall i :: 0 <= i < |a| ==> s[i] == a[i];
    assert forall i :: 0 <= i < |b| ==> s[i] == b[i];
    assert a == s[..|a|] && b == s[..|b|] && x == s[|a| + 1..] && y == s[|b| + 1..];
  }

  lemma OnePart(a: string, b: string, y: string)
    requires ',' !in a
    ensures a != b + "," + y
  {
    assert (b + "," + y)[|b|] == ',';
  }

  lemma {:induction false} JoinInjective(a: seq<int>, b: seq<int>)
    requires Join(a) == Join(b)
    ensures a == b
  {
    hide Decimal.Str;
    if a != [] && b != [] {
      NoComma(a[0]);
      NoComma(b[0]);
      if |a| > 1 && |b| > 1 {
        FirstParts(Decimal.Str(a[0]), Join(a[1..]), Decimal.Str(b[0]), Join(b[1..]));
        JoinInjective(a[1..], b[1..]);
        Decimal.StrInjective(a[0], b[0]);
        assert a == [a[0]] + a[1..] && b == [b[0]] + b[1..];
      } else if |a| > 1 {
        OnePart(Decimal.Str(b[0]), Decimal.Str(a[0]), Join(a[1..]));
      } else if |b| > 1 {
        OnePart(Decimal.Str(a[0]), Decimal.Str(b[0]), Join(b[1..]));
      } else {
        Decimal.StrInjective(a[0], b[0]);
      }
    }
  }

  function HashKey(ids: set<int>): string { Join(Sorted(ids)) }

  /** Different sets of members have different hash keys. */
  lemma HashKeyInjective(a: set<int>, b: set<int>)
    requires HashKey(a) == HashKey(b)
    ensures a == b
  {
    JoinInjective(Sorted(a), Sorted(b));
    SortedMembers(a);
    SortedMembers(b);
  }

  lemma {:induction false} AscendingIsSorted(ids: seq<int>)
    requires forall i, j :: 0 <= i < j < |ids| ==> ids[i] < ids[j]
    ensures Sorted(Members(ids)) == ids
  {
    if ids != [] {
      var s, rest := Members(ids), ids[1..];
      assert ids[0] in s && forall x :: x in s ==> ids[0] <= x;
      var m := Sorted(s)[0];
      assert m in s && (forall x :: x in s ==> m <= x) && Sorted(s) == [m] + Sorted(s - {m}) by { LeastExists(s); }
      assert ids == [ids[0]] + rest && s - {m} == Members(rest);
      AscendingIsSorted(rest);
    }
  }

  /** The hash key is the ids in ascending order, in decimal, with commas between them. */
  lemma HashKeySpec(ids: seq<int>)
    requires forall i, j :: 0 <= i < j < |ids| ==> ids[i] < ids[j]
    ensures |ids| == 1 ==> HashKey(Members(ids)) == Decimal.Str(ids[0])
    ensures |ids| > 1 ==> HashKey(Members(ids)) == Decimal.Str(ids[0]) + "," + HashKey(Members(ids[1..]))
  {
    hide Decimal.Str;
    AscendingIsSorted(ids);
    if ids != [] { AscendingIsSorted(ids[1..]); }
  }

  ghost predicate CollisionFree(digest: string -> string) {
    forall a, b :: digest(a) == digest(b) ==> a == b
  }

  function Subscribers(subs: seq<Subscription>, recipient: int): seq<int> {
    if subs == [] then []
    else if subs[0].recipient == recipient then [subs[0].user] + Subscribers(subs[1..], recipient)
    else Subscribers(subs[1..], recipient)
  }

  function Subscribe(recipient: int, ids: seq<int>): seq<Subscription> {
    if ids == [] then [] else [Subscription(recipient, ids[0])] + Subscribe(recipient, ids[1..])
  }

  lemma {:induction false} SubscribersConcat(a: seq<Subscription>, b: seq<Subscription>, recipient: int)
    ensures Subscribers(a + b, recipient) == Subscribers(a, recipient) + Subscribers(b, recipient)
  {
    if a == [] {
      assert a + b == b;
    } else {
      assert (a + b)[1..] == a[1..] + b;
      SubscribersConcat(a[1..], b, recipient);
    }
  }

  lemma {:induction false} SubscribeSpec(recipient: int, ids: seq<int>, other: int)
    ensures Subscribers(Subscribe(recipient, ids), other) == if other == recipient then ids else []
    ensures forall s :: s in Subscribe(recipient, ids) ==> s.recipient == recipient
  {
    if ids != [] { SubscribeSpec(recipient, ids[1..], other); }
  }

  lemma {:induction false} NoSubscribers(subs: seq<Subscription>, recipient: int)
    requires forall s :: s in subs ==> s.recipient != recipient
    ensures Subscribers(subs, recipient) == []
  {
    if subs != [] {
      assert subs[0] in subs && forall s :: s in subs[1..] ==> s in subs;
      NoSubscribers(subs[1..], recipient);
    }
  }

  // ----- what the tables keep

  type Groups = map<set<int>, int>

  /** The unique hashes are those of the groups asked for so far, each with its own huddle. */
  ghost predicate IndexOk(digest: string -> string, huddles: map<string, int>, groups: Groups, nextHuddle: int) {
    && (forall g :: g in groups ==> digest(HashKey(g)) in huddles && huddles[digest(HashKey(g))] == groups[g])
    && (forall h :: h in huddles ==> exists g :: g in groups && digest(HashKey(g)) == h)
    && (forall g :: g in groups ==> groups[g] < nextHuddle)
    && (forall g, f :: g in groups && f in groups && groups[g] == groups[f] ==> g == f)
  }

  ghost predicate RecipientsOk(recipients: map<int, Recipient>, subs: seq<Subscription>, nextHuddle: int,
      nextRecipient: int) {
    && (forall i :: i in recipients ==>
        recipients[i].id == i < nextRecipient && recipients[i].kind == HUDDLE && recipients[i].typeId < nextHuddle)
    && (forall i, j :: i in recipients && j in recipients && recipients[i].typeId == recipients[j].typeId ==> i == j)
    && (forall s :: s in subs ==> s.recipient < nextRecipient)
  }

  /** Recipient i is the huddle's, and its subscriptions are exactly the group, each once. */
  ghost predicate Serves(recipients: map<int, Recipient>, subs: seq<Subscription>, i: int, huddle: int, g: set<int>) {
    i in recipients && recipients[i].typeId == huddle
    && Members(Subscribers(subs, i)) == g && Distinct(Subscribers(subs, i))
  }

  ghost predicate GroupsServed(groups: Groups, recipients: map<int, Recipient>, subs: seq<Subscription>) {
    forall g :: g in groups ==> exists i :: Serves(recipients, subs, i, groups[g], g)
  }

  lemma IndexGrows(digest: string -> string, huddles: map<string, int>, groups: Groups, nextHuddle: int, g: set<int>)
    requires CollisionFree(digest) && IndexOk(digest, huddles, groups, nextHuddle) && digest(HashKey(g)) !in huddles
    ensures g !in groups && nextHuddle !in groups.Values
    ensures IndexOk(digest, huddles[digest(HashKey(g)) := nextHuddle], groups[g := nextHuddle], nextHuddle + 1)
  {
    hide HashKey;
    var huddles', groups' := huddles[digest(HashKey(g)) := nextHuddle], groups[g := nextHuddle];
    forall h | h in huddles' ensures exists f :: f in groups' && digest(HashKey(f)) == h {
      if h == digest(HashKey(g)) {
        assert g in groups';
      } else {
        var f :| f in groups && digest(HashKey(f)) == h;
        assert f in groups';
      }
    }
  }

  lemma SubscribersAfter(subs: seq<Subscription>, id: int, ids: seq<int>, i: int)
    requires forall s :: s in subs ==> s.recipient < id
    ensures Subscribers(subs + Subscribe(id, ids), i) == if i == id then ids else Subscribers(subs, i)
  {
    SubscribersConcat(subs, Subscribe(id, ids), i);
    SubscribeSpec(id, ids, i);
    if i == id { NoSubscribers(subs, id); }
  }

  lemma RecipientsGrow(recipients: map<int, Recipient>, subs: seq<Subscription>, nextHuddle: int, id: int,
      ids: seq<int>)
    requires RecipientsOk(recipients, subs, nextHuddle, id)
    ensures RecipientsOk(recipients[id := Recipient(id, HUDDLE, nextHuddle)], subs + Subscribe(id, ids),
      nextHuddle + 1, id + 1)
  {
    SubscribeSpec(id, ids, id);
  }

  lemma GroupsGrow(groups: Groups, recipients: map<int, Recipient>, subs: seq<Subscription>, nextHuddle: int, id: int,
      ids: seq<int>)
    requires RecipientsOk(recipients, subs, nextHuddle, id) && GroupsServed(groups, recipients, subs)
    requires Distinct(ids) && Members(ids) !in groups
    ensures GroupsServed(groups[Members(ids) := nextHuddle], recipients[id := Recipient(id, HUDDLE, nextHuddle)],
      subs + Subscribe(id, ids))
  {
    hide Subscribers, Subscribe, Members, Distinct;
    var groups', recipients', subs' := groups[Members(ids) := nextHuddle],
      recipients[id := Recipient(id, HUDDLE, nextHuddle)], subs + Subscribe(id, ids);
    forall g | g in groups' ensures exists i :: Serves(recipients', subs', i, groups'[g], g) {
      if g == Members(ids) {
        SubscribersAfter(subs, id, ids, id);
        assert Serves(recipients', subs', id, nextHuddle, g);
      } else {
        var i :| Serves(recipients, subs, i, groups[g], g);
        SubscribersAfter(subs, id, ids, i);
        assert Serves(recipients', subs', i, groups'[g], g);
      }
    }
  }

  lemma HashFinds(digest: string -> string, huddles: map<string, int>, groups: Groups, nextHuddle: int, g: set<int>)
    requires CollisionFree(digest) && IndexOk(digest, huddles, groups, nextHuddle) && digest(HashKey(g)) in huddles
    ensures g in groups && groups[g] == huddles[digest(HashKey(g))]
  {
    hide HashKey;
    var f :| f in groups && digest(HashKey(f)) == digest(HashKey(g));
    HashKeyInjective(f, g);
  }

  class HuddleIndex {
    const digest: string -> string
    var huddles: map<string, int>        // huddle_hash, unique, to huddle id
    var recipients: map<int, Recipient>  // by id
    var subscriptions: seq<Subscription>
    var nextHuddle: int
    var nextRecipient: int
    ghost var groups: Groups             // the sets of members asked for so far, and their huddles

    ghost predicate Valid()
      reads this
    {
      && CollisionFree(digest)
      && IndexOk(digest, huddles, groups, nextHuddle)
      && RecipientsOk(recipients, subscriptions, nextHuddle, nextRecipient)
      && GroupsServed(groups, recipients, subscriptions)
    }

    constructor (digest: string -> string)
      requires CollisionFree(digest)
      ensures Valid() && groups == map[] && this.digest == digest
    {
      this.digest := digest;
      huddles, recipients, subscriptions, nextHuddle, nextRecipient := map[], map[], [], 1, 1;
      groups := map[];
    }

    /** get_huddle and get_huddle_backend: one huddle for each distinct set of members, whatever
        the order of the calls and of the ids. A list with a repeated id is refused by the unique
        constraint on subscriptions when the huddle is new, and the transaction is rolled back. */
    method GetHuddle(ids: seq<int>) returns (r: Result)
      requires Valid()
      modifies this
      ensures Valid()
      ensures r.IntegrityError? <==> Members(ids) !in old(groups) && !Distinct(ids)
      ensures r.IntegrityError? || Members(ids) in old(groups) ==>
        groups == old(groups) && huddles == old(huddles) && recipients == old(recipients)
        && subscriptions == old(subscriptions)
      ensures r.Ok? && Members(ids) in old(groups) ==> r.huddle == old(groups)[Members(ids)]
      ensures r.Ok? && Members(ids) !in old(groups) ==>
        groups == old(groups)[Members(ids) := r.huddle] && r.huddle !in old(groups).Values
    {
      hide HashKey, Subscribers, Subscribe, RecipientsOk, GroupsServed, IndexOk, CollisionFree, Members, Distinct;
      var hash := digest(HashKey(Members(ids)));
      if hash in huddles {
        HashFinds(digest, huddles, groups, nextHuddle, Members(ids));
        return Ok(huddles[hash]);
      }
      IndexGrows(digest, huddles, groups, nextHuddle, Members(ids));
      if !Distinct(ids) { return IntegrityError; }
      RecipientsGrow(recipients, subscriptions, nextHuddle, nextRecipient, ids);
      GroupsGrow(groups, recipients, subscriptions, nextHuddle, nextRecipient, ids);
      r := Ok(nextHuddle);
      huddles := huddles[hash := nextHuddle];
      recipients := recipients[nextRecipient := Recipient(nextRecipient, HUDDLE, nextHuddle)];
      subscriptions := subscriptions + Subscribe(nextRecipient, ids);
      groups := groups[Members(ids) := nextHuddle];
      nextHuddle, nextRecipient := nextHuddle + 1, nextRecipient + 1;
    }

    /** get_huddle_recipient: the recipient is the only one of the huddle. */
    method GetHuddleRecipient(ids: set<int>) returns (r: Recipient)
      requires Valid()
      modifies this
      ensures Valid() && ids in groups
      ensures groups == if ids in old(groups) then old(groups) else old(groups)[ids := groups[ids]]
      ensures r.kind == HUDDLE && r.id in recipients && recipients[r.id] == r
      ensures Serves(recipients, subscriptions, r.id, groups[ids], ids)
      ensures forall i :: i in recipients && recipients[i].typeId == groups[ids] ==> i == r.id
    {
      hide HashKey, Subscribers, Sorted, IndexOk;
      SortedMembers(ids);
      SortedDistinct(ids);
      var huddle := GetHuddle(Sorted(ids));
      assert exists i :: Serves(recipients, subscriptions, i, groups[ids], ids);
      var i :| i in recipients && recipients[i].typeId == huddle.huddle;
      r := recipients[i];
    }
  }

  lemma {:induction false} SortedDistinct(s: set<int>)
    ensures Distinct(Sorted(s))
  {
    if s != {} {
      var m := Sorted(s)[0];
      SortedDistinct(s - {m});
      SortedMembers(s - {m});
      assert Sorted(s) == [m] + Sorted(s - {m});
      assert m !in Members(Sorted(s - {m}));
    }
  }
}
