/** SELECT ..., SUM(...) GROUP BY over a bag of entries, kept as a sequence. */
module Grouping {
  datatype Entry<G> = Entry(group: G, amount: int)

  /** Adds v to the accumulator of group k, which is created at the end when it is missing. */
  function Upsert<G(==)>(acc: seq<Entry<G>>, k: G, v: int): seq<Entry<G>> {
    if acc == [] then [Entry(k, v)]
    else if acc[0].group == k then [Entry(k, acc[0].amount + v)] + acc[1..]
    else [acc[0]] + Upsert(acc[1..], k, v)
  }

  /** One entry for each group, in the order in which the groups first appear. */
  function GroupSum<G(==)>(es: seq<Entry<G>>): seq<Entry<G>> {
    if es == [] then []
    else
      var last := es[|es| - 1];
      Upsert(GroupSum(es[..|es| - 1]), last.group, last.amount)
  }

  function SumFor<G(==)>(es: seq<Entry<G>>, k: G): int {
    if es == [] then 0
    else (if es[0].group == k then es[0].amount else 0) + SumFor(es[1..], k)
  }

  function Total<G>(es: seq<Entry<G>>): int {
    if es == [] then 0 else es[0].amount + Total(es[1..])
  }

  ghost predicate HasGroup<G>(es: seq<Entry<G>>, k: G) {
    exists e :: e in es && e.group == k
  }

  ghost predicate DistinctGroups<G>(es: seq<Entry<G>>) {
    forall i, j :: 0 <= i < j < |es| ==> es[i].group != es[j].group
  }

  lemma HasGroupParts<G>(e: Entry<G>, rest: seq<Entry<G>>, k: G)
    ensures HasGroup([e] + rest, k) <==> (k == e.group || HasGroup(rest, k))
  {
    assert forall f :: f in [e] + rest <==> f == e || f in rest;
  }

  lemma DistinctTail<G>(es: seq<Entry<G>>)
    requires es != [] && DistinctGroups(es)
    ensures DistinctGroups(es[1..]) && !HasGroup(es[1..], es[0].group)
  {
    assert forall i :: 0 <= i < |es[1..]| ==> es[1..][i] == es[i + 1];
  }

  lemma DistinctCons<G>(e: Entry<G>, rest: seq<Entry<G>>)
    requires DistinctGroups(rest) && !HasGroup(rest, e.group)
    ensures DistinctGroups([e] + rest)
  {
    assert forall i :: 0 <= i < |rest| ==> rest[i] in rest;
  }

  lemma {:induction false} SumsConcat<G>(a: seq<Entry<G>>, b: seq<Entry<G>>, k: G)
    ensures SumFor(a + b, k) == SumFor(a, k) + SumFor(b, k)
    ensures Total(a + b) == Total(a) + Total(b)
  {
    if a == [] {
      assert a + b == b;
    } else {
      assert (a + b)[1..] == a[1..] + b;
      SumsConcat(a[1..], b, k);
    }
  }

  lemma {:induction false} UpsertSpec<G>(acc: seq<Entry<G>>, k: G, v: int, q: G)
    ensures SumFor(Upsert(acc, k, v), q) == SumFor(acc, q) + if q == k then v else 0
    ensures Total(Upsert(acc, k, v)) == Total(acc) + v
    ensures HasGroup(Upsert(acc, k, v), q) <==> HasGroup(acc, q) || q == k
  {
    if acc == [] {
      assert Entry(k, v) in Upsert(acc, k, v);
    } else if acc[0].group == k {
      var up := Upsert(acc, k, v);
      assert up[1..] == acc[1..];
      assert up[0] in up && acc[0] in acc;
      forall e | e in acc[1..] ensures e in up && e in acc {}
      forall e | e in up ensures e == up[0] || e in acc[1..] {}
    } else {
      var up := Upsert(acc, k, v);
      var rest := Upsert(acc[1..], k, v);
      assert up[1..] == rest && acc == [acc[0]] + acc[1..];
      UpsertSpec(acc[1..], k, v, q);
      assert forall e :: e in up <==> e == acc[0] || e in rest;
      assert forall e :: e in acc <==> e == acc[0] || e in acc[1..];
    }
  }

  lemma {:induction false} UpsertKeepsDistinct<G>(acc: seq<Entry<G>>, k: G, v: int)
    requires DistinctGroups(acc)
    ensures DistinctGroups(Upsert(acc, k, v))
  {
    if acc != [] && acc[0].group != k {
      UpsertKeepsDistinct(acc[1..], k, v);
      var rest := Upsert(acc[1..], k, v);
      forall i | 0 <= i < |rest| ensures rest[i].group != acc[0].group {
        UpsertSpec(acc[1..], k, v, rest[i].group);
        assert rest[i] in rest;
      }
    }
  }

  /** GROUP BY produces exactly one entry for each group that occurs, and the entry's amount is
      the sum over that group; nothing is lost or counted twice. */
  lemma {:induction false} GroupSumSpec<G>(es: seq<Entry<G>>, k: G)
    ensures DistinctGroups(GroupSum(es))
    ensures SumFor(GroupSum(es), k) == SumFor(es, k)
    ensures Total(GroupSum(es)) == Total(es)
    ensures HasGroup(GroupSum(es), k) <==> HasGroup(es, k)
  {
    if es != [] {
      var init, last := es[..|es| - 1], es[|es| - 1];
      assert es == init + [last];
      GroupSumSpec(init, k);
      UpsertSpec(GroupSum(init), last.group, last.amount, k);
      UpsertKeepsDistinct(GroupSum(init), last.group, last.amount);
      SumsConcat(init, [last], k);
      assert forall e :: e in es <==> e in init || e == last;
    }
  }

  lemma {:induction false} NoGroupNoSum<G>(es: seq<Entry<G>>, k: G)
    requires !HasGroup(es, k)
    ensures SumFor(es, k) == 0
  {
    if es != [] {
      assert es[0] in es;
      forall e | e in es[1..] ensures e.group != k { assert e in es; }
      NoGroupNoSum(es[1..], k);
    }
  }

  // ----- adding entries one by one

  lemma NothingHasGroup<G>(k: G)
    ensures !HasGroup([], k)
  {
  }

  lemma {:induction false} UpsertCommutes<G>(acc: seq<Entry<G>>, k: G, v: int, q: G, w: int)
    requires HasGroup(acc, k)
    ensures Upsert(Upsert(acc, q, w), k, v) == Upsert(Upsert(acc, k, v), q, w)
  {
    hide HasGroup;
    NothingHasGroup(k);
    if acc != [] && acc[0].group != k && acc[0].group != q {
      HasGroupParts(acc[0], acc[1..], k);
      assert acc == [acc[0]] + acc[1..];
      UpsertCommutes(acc[1..], k, v, q, w);
    }
  }

  lemma {:induction false} UpsertTwice<G>(acc: seq<Entry<G>>, k: G, v: int, w: int)
    ensures Upsert(Upsert(acc, k, v), k, w) == Upsert(acc, k, v + w)
  {
    if acc != [] && acc[0].group != k { UpsertTwice(acc[1..], k, v, w); }
  }

  function UpsertAll<G(==)>(acc: seq<Entry<G>>, es: seq<Entry<G>>): seq<Entry<G>>
    decreases |es|
  {
    if es == [] then acc else UpsertAll(Upsert(acc, es[0].group, es[0].amount), es[1..])
  }

  lemma {:induction false} UpsertAllLast<G>(acc: seq<Entry<G>>, es: seq<Entry<G>>, e: Entry<G>)
    ensures UpsertAll(acc, es + [e]) == Upsert(UpsertAll(acc, es), e.group, e.amount)
    decreases |es|
  {
    if es == [] {
      assert es + [e] == [e] && [e][1..] == [];
    } else {
      assert (es + [e])[1..] == es[1..] + [e];
      UpsertAllLast(Upsert(acc, es[0].group, es[0].amount), es[1..], e);
    }
  }

  lemma {:induction false} GroupSumIsUpsertAll<G>(es: seq<Entry<G>>)
    ensures GroupSum(es) == UpsertAll([], es)
  {
    if es != [] {
      var init, last := es[..|es| - 1], es[|es| - 1];
      assert es == init + [last];
      GroupSumIsUpsertAll(init);
      UpsertAllLast([], init, last);
    }
  }

  lemma {:induction false} UpsertAllCommutes<G>(acc: seq<Entry<G>>, es: seq<Entry<G>>, k: G, v: int)
    requires HasGroup(acc, k)
    ensures UpsertAll(Upsert(acc, k, v), es) == Upsert(UpsertAll(acc, es), k, v)
    decreases |es|
  {
    if es != [] {
      UpsertCommutes(acc, k, v, es[0].group, es[0].amount);
      UpsertSpec(acc, es[0].group, es[0].amount, k);
      UpsertAllCommutes(Upsert(acc, es[0].group, es[0].amount), es[1..], k, v);
    }
  }

  // ----- sums over whole families of groups

  function SumWhere<G>(es: seq<Entry<G>>, p: G -> bool): int {
    if es == [] then 0
    else (if p(es[0].group) then es[0].amount else 0) + SumWhere(es[1..], p)
  }

  lemma {:induction false} SumWhereConcat<G>(a: seq<Entry<G>>, b: seq<Entry<G>>, p: G -> bool)
    ensures SumWhere(a + b, p) == SumWhere(a, p) + SumWhere(b, p)
  {
    if a == [] {
      assert a + b == b;
    } else {
      assert (a + b)[1..] == a[1..] + b;
      SumWhereConcat(a[1..], b, p);
    }
  }

  lemma {:induction false} UpsertWhere<G>(acc: seq<Entry<G>>, k: G, v: int, p: G -> bool)
    ensures SumWhere(Upsert(acc, k, v), p) == SumWhere(acc, p) + if p(k) then v else 0
  {
    if acc != [] && acc[0].group != k {
      UpsertWhere(acc[1..], k, v, p);
    }
  }

  /** Whatever is summed over after GROUP BY could have been summed over before it. */
  lemma {:induction false} GroupSumWhere<G>(es: seq<Entry<G>>, p: G -> bool)
    ensures SumWhere(GroupSum(es), p) == SumWhere(es, p)
  {
    if es != [] {
      var init, last := es[..|es| - 1], es[|es| - 1];
      assert es == init + [last];
      GroupSumWhere(init, p);
      UpsertWhere(GroupSum(init), last.group, last.amount, p);
      SumWhereConcat(init, [last], p);
    }
  }
}
