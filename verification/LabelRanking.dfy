/** sort_by_totals and sort_client_labels. */
module LabelRanking {
  import opened ClientLabels
  import opened Lists

  // ----- the order of Python's tuples (total, label), greatest first

  predicate Less(a: string, b: string) {
    b != [] && (a == [] || a[0] < b[0] || (a[0] == b[0] && Less(a[1..], b[1..])))
  }

  lemma {:induction false} LessTotal(a: string, b: string)
    requires a != b
    ensures Less(a, b) || Less(b, a)
  {
    if a != [] && b != [] && a[0] == b[0] {
      assert a == [a[0]] + a[1..] && b == [b[0]] + b[1..];
      LessTotal(a[1..], b[1..]);
    }
  }

  lemma {:induction false} LessTransitive(a: string, b: string, c: string)
    requires Less(a, b) && Less(b, c)
    ensures Less(a, c)
  {
    if a != [] && a[0] == b[0] == c[0] { LessTransitive(a[1..], b[1..], c[1..]); }
  }

  lemma {:induction false} LessIrreflexive(a: string)
    ensures !Less(a, a)
  {
    if a != [] { LessIrreflexive(a[1..]); }
  }

  function Sum(values: seq<int>): int { if values == [] then 0 else values[0] + Sum(values[1..]) }

  /** Sum is what its laws say. */
  lemma {:induction false} SumIsAdditive(a: seq<int>, b: seq<int>)
    ensures Sum(a + b) == Sum(a) + Sum(b)
    ensures |a| == 1 ==> Sum(a) == a[0]
    ensures a == [] ==> Sum(a) == 0
  {
    if a == [] {
      assert a + b == b;
    } else {
      assert (a + b)[1..] == a[1..] + b;
      SumIsAdditive(a[1..], b);
    }
  }

  /** a agrees with b up to k and is smaller there. */
  ghost predicate SmallerAt(a: string, b: string, k: int) {
    0 <= k < |a| && k < |b| && a[k] < b[k] && forall i :: 0 <= i < k ==> a[i] == b[i]
  }

  /** a is a proper prefix of b, or smaller at the first character that differs. */
  ghost predicate Precedes(a: string, b: string) {
    || (|a| < |b| && forall i :: 0 <= i < |a| ==> a[i] == b[i])
    || exists k :: SmallerAt(a, b, k)
  }

  lemma PrecedesTail(a: string, b: string)
    requires a != [] && b != [] && a[0] == b[0]
    ensures Precedes(a, b) <==> Precedes(a[1..], b[1..])
  {
    assert forall i :: 0 < i < |a| ==> a[i] == a[1..][i - 1];
    assert forall i :: 0 < i < |b| ==> b[i] == b[1..][i - 1];
    if k :| SmallerAt(a, b, k) { assert SmallerAt(a[1..], b[1..], k - 1); }
    if k :| SmallerAt(a[1..], b[1..], k) { assert SmallerAt(a, b, k + 1); }
  }

  lemma {:induction false} LessIsPrecedes(a: string, b: string)
    ensures Less(a, b) <==> Precedes(a, b)
  {
    if a != [] && b != [] {
      if a[0] == b[0] {
        hide Precedes;
        PrecedesTail(a, b);
        LessIsPrecedes(a[1..], b[1..]);
      } else if a[0] < b[0] {
        assert SmallerAt(a, b, 0);
      }
    }
  }

  function LabelTotal(m: Arrays, l: string): int { if l in m then Sum(m[l]) else 0 }

  predicate Above(m: Arrays, a: string, b: string) {
    LabelTotal(m, a) > LabelTotal(m, b) || (LabelTotal(m, a) == LabelTotal(m, b) && Less(b, a))
  }

  lemma AboveTotal(m: Arrays, a: string, b: string)
    requires a != b
    ensures Above(m, a, b) || Above(m, b, a)
  {
    LessTotal(a, b);
  }

  lemma AboveTransitive(m: Arrays, a: string, b: string, c: string)
    requires Above(m, a, b) && Above(m, b, c)
    ensures Above(m, a, c)
  {
    if Less(b, a) && Less(c, b) { LessTransitive(c, b, a); }
  }

  // ----- sort_by_totals

  ghost predicate RankedByTotals(order: seq<string>, m: Arrays) {
    forall i, j :: 0 <= i < j < |order| ==> Above(m, order[i], order[j])
  }

  /** Takes a label into its place in an order. */
  method InsertByTotal(order: seq<string>, m: Arrays, l: string) returns (longer: seq<string>)
    requires RankedByTotals(order, m) && l !in order
    ensures RankedByTotals(longer, m)
    ensures Members(longer) == Members(order) + {l}
  {
    hide Above;
    var k := 0;
    while k < |order| && Above(m, order[k], l)
      invariant 0 <= k <= |order|
      invariant forall i :: 0 <= i < k ==> Above(m, order[i], l)
    {
      k := k + 1;
    }
    longer := order[..k] + [l] + order[k..];
    if k < |order| { AboveTotal(m, order[k], l); }
    forall i | k <= i < |order| ensures Above(m, l, order[i]) {
      if k < i { AboveTransitive(m, l, order[k], order[i]); }
    }
    assert forall x :: x in longer <==> x in order[..k] || x == l || x in order[k..];
    assert order == order[..k] + order[k..];
    assert forall x :: x in order <==> x in order[..k] || x in order[k..];
  }

  /** a is before b: by a larger sum, or by the same sum and the later name. */
  ghost predicate Outranks(m: Arrays, a: string, b: string) {
    a in m && b in m && (Sum(m[a]) > Sum(m[b]) || (Sum(m[a]) == Sum(m[b]) && Precedes(b, a)))
  }

  lemma RankedIsByTotal(order: seq<string>, m: Arrays)
    requires RankedByTotals(order, m) && Members(order) == m.Keys
    ensures forall i, j :: 0 <= i < j < |order| ==> Outranks(m, order[i], order[j])
  {
    hide Precedes;
    forall i, j | 0 <= i < j < |order| ensures Outranks(m, order[i], order[j]) {
      assert order[i] in Members(order) && order[j] in Members(order);
      LessIsPrecedes(order[j], order[i]);
    }
  }

  method SortByTotals(m: Arrays) returns (order: seq<string>)
    ensures RankedByTotals(order, m) && Members(order) == m.Keys
    ensures forall i, j :: 0 <= i < j < |order| ==> Outranks(m, order[i], order[j])
  {
    hide Above, RankedByTotals, Outranks;
    order := [];
    assert RankedByTotals([], m) by { NothingRanked(m); }
    var rest := m.Keys;
    while rest != {}
      invariant rest <= m.Keys && RankedByTotals(order, m) && Members(order) == m.Keys - rest
      decreases rest
    {
      var l :| l in rest;
      assert l !in Members(order);
      order := InsertByTotal(order, m, l);
      rest := rest - {l};
    }
    RankedIsByTotal(order, m);
  }

  lemma NothingRanked(m: Arrays)
    ensures RankedByTotals([], m)
  {
  }

  lemma RankedIsDistinct(order: seq<string>, m: Arrays)
    requires RankedByTotals(order, m)
    ensures Distinct(order)
  {
    forall i, j | 0 <= i < j < |order| ensures order[i] != order[j] {
      LessIrreflexive(order[i]);
    }
  }

  /** The ranking does not depend on the order in which the dictionary is read. */
  lemma {:induction false} RankingIsUnique(a: seq<string>, b: seq<string>, m: Arrays)
    requires RankedByTotals(a, m) && RankedByTotals(b, m) && Members(a) == Members(b)
    ensures a == b
  {
    RankedIsDistinct(a, m);
    RankedIsDistinct(b, m);
    MembersCount(a);
    MembersCount(b);
    if a != [] {
      if a[0] != b[0] {
        assert a[0] in Members(b) && b[0] in Members(a);
        var i :| 0 <= i < |b| && b[i] == a[0];
        var j :| 0 <= j < |a| && a[j] == b[0];
        assert Above(m, b[0], a[0]) && Above(m, a[0], b[0]);
        AboveTransitive(m, a[0], b[0], a[0]);
        LessIrreflexive(a[0]);
      }
      TailMembers(a, b);
      RankingIsUnique(a[1..], b[1..], m);
      assert a == [a[0]] + a[1..] && b == [b[0]] + b[1..];
    }
  }

  lemma TailMembers(a: seq<string>, b: seq<string>)
    requires a != [] && b != [] && a[0] == b[0] && Distinct(a) && Distinct(b) && Members(a) == Members(b)
    ensures Members(a[1..]) == Members(b[1..])
  {
    assert Members(a) == {a[0]} + Members(a[1..]) && a[0] !in Members(a[1..]);
    assert Members(b) == {b[0]} + Members(b[1..]) && b[0] !in Members(b[1..]);
  }

  // ----- sort_client_labels

  function Position(order: seq<string>, l: string): (p: nat)
    ensures p <= |order|
    ensures l in order ==> p < |order| && order[p] == l
  {
    if order == [] then 0 else if order[0] == l then 0 else 1 + Position(order[1..], l)
  }

  lemma {:induction false} PositionOf(order: seq<string>, i: nat)
    requires Distinct(order) && i < |order|
    ensures Position(order, order[i]) == i
  {
    if i > 0 { PositionOf(order[1..], i - 1); }
  }

  /** label_sort_values: the realm's rank, or the user's rank less .1 if that is smaller. */
  function SortValue(realm: seq<string>, user: seq<string>, l: string): real {
    var r, u := Position(realm, l) as real, Position(user, l) as real;
    if l !in user then r
    else if l in realm && r < u - 0.1 then r
    else u - 0.1
  }

  /** No two labels have the same sort value, so sorting by it leaves nothing open. */
  lemma NoTies(realm: seq<string>, user: seq<string>, a: string, b: string)
    requires Distinct(realm) && Distinct(user) && a != b
    requires (a in realm || a in user) && (b in realm || b in user)
    ensures SortValue(realm, user, a) != SortValue(realm, user, b)
  {
    var ra, rb, ua, ub := Position(realm, a), Position(realm, b), Position(user, a), Position(user, b);
    assert a in realm && b in realm ==> ra != rb;
    assert a in user && b in user ==> ua != ub;
    IntegersApart(ra, ub);
    IntegersApart(rb, ua);
  }

  lemma IntegersApart(i: int, j: int)
    ensures i as real != j as real - 0.1
  {
    assert (j - i) as real == j as real - i as real;
  }

  ghost predicate Ascending(order: seq<string>, realm: seq<string>, user: seq<string>) {
    forall i, j :: 0 <= i < j < |order| ==> SortValue(realm, user, order[i]) < SortValue(realm, user, order[j])
  }

  method SortClientLabels(realmArrays: Arrays, userArrays: Arrays) returns (display: seq<string>,
      ghost realm: seq<string>, ghost user: seq<string>)
    ensures RankedByTotals(realm, realmArrays) && Members(realm) == realmArrays.Keys
    ensures RankedByTotals(user, userArrays) && Members(user) == userArrays.Keys
    ensures Distinct(display) && Members(display) == realmArrays.Keys + userArrays.Keys
    ensures Ascending(display, realm, user)
    ensures forall n: nat :: IsFair(display, realmArrays, userArrays, n)
    ensures UserFirst(display, realm, user)
  {
    hide RankedByTotals, SortValue, Ascending, Distinct, IsFair, UserFirst, Outranks;
    var realmOrder := SortByTotals(realmArrays);
    var userOrder := SortByTotals(userArrays);
    realm, user := realmOrder, userOrder;
    RankedIsDistinct(realm, realmArrays);
    RankedIsDistinct(user, userArrays);
    var values := SortValues(realmOrder, userOrder);
    display := [];
    var rest := values.Keys;
    forall a, b | a in values && b in values && a != b ensures values[a] != values[b] { NoTies(realm, user, a, b); }
    while rest != {}
      invariant rest <= values.Keys && Members(display) == values.Keys - rest
      invariant AscendingBy(display, values)
      decreases rest
    {
      var l :| l in rest;
      assert l !in Members(display);
      display := InsertByValue(display, values, l);
      rest := rest - {l};
    }
    ByValueAscends(display, values, realm, user);
    AscendingIsDistinct(display, realm, user);
    forall n: nat ensures IsFair(display, realmArrays, userArrays, n) {
      FairDisplay(display, realm, user, realmArrays, userArrays, n);
    }
    AscendingIsUserFirst(display, realm, user);
  }

  // ----- what the display order is for

  /** top holds the n labels of m with the largest sums, or all of them. */
  ghost predicate IsTop(top: set<string>, m: Arrays, n: nat) {
    && top <= m.Keys && |top| == (if n <= |m.Keys| then n else |m.Keys|)
    && forall a, b :: a in top && b in m.Keys - top ==> Outranks(m, a, b)
  }

  /** The first k labels are the realm's top n and the user's top n. */
  ghost predicate ShowsTops(display: seq<string>, k: nat, realmTop: set<string>, userTop: set<string>,
      realmArrays: Arrays, userArrays: Arrays, n: nat)
  {
    && k <= |display| && k <= 2 * n && Members(display[..k]) == realmTop + userTop
    && IsTop(realmTop, realmArrays, n) && IsTop(userTop, userArrays, n)
  }

  ghost predicate IsFair(display: seq<string>, realmArrays: Arrays, userArrays: Arrays, n: nat) {
    exists k: nat, a, b :: ShowsTops(display, k, a, b, realmArrays, userArrays, n)
  }

  /** Of the user's i-th label and the realm's i-th the user's is shown first, unless the user has used
      the realm's even more. */
  ghost predicate UserFirst(display: seq<string>, realm: seq<string>, user: seq<string>) {
    forall i, x, y :: 0 <= i < |realm| && i < |user| && 0 <= x < |display| && 0 <= y < |display| ==>
      (display[x] == user[i] && display[y] == realm[i] && realm[i] !in user[..i] ==> x <= y)
  }

  lemma AscendingIsUserFirst(display: seq<string>, realm: seq<string>, user: seq<string>)
    requires Ascending(display, realm, user) && Distinct(realm) && Distinct(user)
    ensures UserFirst(display, realm, user)
  {
    hide Position;
    forall i, x, y | 0 <= i < |realm| && i < |user| && 0 <= x < |display| && 0 <= y < |display|
      ensures display[x] == user[i] && display[y] == realm[i] && realm[i] !in user[..i] ==> x <= y
    {
      if display[x] == user[i] && display[y] == realm[i] && realm[i] !in user[..i] {
        assert y < x ==> SortValue(realm, user, display[y]) < SortValue(realm, user, display[x]);
        UserValueBelow(realm, user, i);
      }
    }
  }

  lemma UserValueBelow(realm: seq<string>, user: seq<string>, i: nat)
    requires Distinct(realm) && Distinct(user) && i < |realm| && i < |user| && realm[i] !in user[..i]
    ensures SortValue(realm, user, user[i]) <= SortValue(realm, user, realm[i])
  {
    hide Position;
    PositionOf(realm, i);
    PositionOf(user, i);
    assert forall q :: 0 <= q < i ==> user[..i][q] == user[q];
  }

  lemma TopIsTop(order: seq<string>, m: Arrays, n: nat)
    requires RankedByTotals(order, m) && Members(order) == m.Keys
    ensures IsTop(Top(order, n), m, n)
  {
    hide Outranks, RankedByTotals;
    var top := Top(order, n);
    var prefix := if n <= |order| then order[..n] else order;
    RankedIsByTotal(order, m);
    RankedIsDistinct(order, m);
    MembersCount(order);
    MembersCount(prefix);
    forall a, b | a in top && b in m.Keys - top ensures Outranks(m, a, b) {
      var i :| 0 <= i < |prefix| && prefix[i] == a;
      assert b in Members(order);
      var j :| 0 <= j < |order| && order[j] == b;
      assert forall q :: 0 <= q < |prefix| ==> prefix[q] == order[q];
    }
  }

  lemma FairDisplay(display: seq<string>, realm: seq<string>, user: seq<string>, realmArrays: Arrays,
      userArrays: Arrays, n: nat)
    requires RankedByTotals(realm, realmArrays) && Members(realm) == realmArrays.Keys
    requires RankedByTotals(user, userArrays) && Members(user) == userArrays.Keys
    requires Distinct(display) && Members(display) == realmArrays.Keys + userArrays.Keys
    requires Ascending(display, realm, user)
    ensures IsFair(display, realmArrays, userArrays, n)
  {
    hide RankedByTotals, Ascending, IsTop, Distinct;
    RankedIsDistinct(realm, realmArrays);
    RankedIsDistinct(user, userArrays);
    var k := DisplayIsFair(display, realm, user, n);
    TopIsTop(realm, realmArrays, n);
    TopIsTop(user, userArrays, n);
    assert ShowsTops(display, k, Top(realm, n), Top(user, n), realmArrays, userArrays, n);
  }

  lemma ByValueAscends(order: seq<string>, values: map<string, real>, realm: seq<string>, user: seq<string>)
    requires AscendingBy(order, values) && forall l :: l in values ==> values[l] == SortValue(realm, user, l)
    ensures Ascending(order, realm, user)
  {
  }

  lemma AscendingIsDistinct(order: seq<string>, realm: seq<string>, user: seq<string>)
    requires Ascending(order, realm, user)
    ensures Distinct(order)
  {
  }

  /** The two loops that fill label_sort_values. */
  method SortValues(realmOrder: seq<string>, userOrder: seq<string>) returns (values: map<string, real>)
    requires Distinct(realmOrder) && Distinct(userOrder)
    ensures values.Keys == Members(realmOrder) + Members(userOrder)
    ensures forall l :: l in values ==> values[l] == SortValue(realmOrder, userOrder, l)
  {
    hide Position;
    values := map[];
    for i := 0 to |realmOrder|
      invariant values.Keys == Members(realmOrder[..i])
      invariant forall l :: l in values ==> values[l] == Position(realmOrder, l) as real
    {
      PositionOf(realmOrder, i);
      assert realmOrder[..i + 1] == realmOrder[..i] + [realmOrder[i]];
      values := values[realmOrder[i] := i as real];
    }
    assert realmOrder[..|realmOrder|] == realmOrder;
    values := UserSortValues(realmOrder, userOrder, values);
  }

  lemma UserValue(realm: seq<string>, user: seq<string>, i: nat)
    requires Distinct(user) && i < |user|
    ensures user[i] !in user[..i]
    ensures var known := if user[i] in realm then Position(realm, user[i]) as real else i as real;
      SortValue(realm, user, user[i]) == if known < i as real - 0.1 then known else i as real - 0.1
  {
    PositionOf(user, i);
  }

  lemma RealmOnlyValues(realm: seq<string>, user: seq<string>)
    ensures forall l :: l !in user ==> SortValue(realm, user, l) == Position(realm, l) as real
  {
  }

  method UserSortValues(realmOrder: seq<string>, userOrder: seq<string>, realmValues: map<string,
      real>) returns (values: map<string, real>)
    requires Distinct(realmOrder) && Distinct(userOrder) && realmValues.Keys == Members(realmOrder)
    requires forall l :: l in realmValues ==> realmValues[l] == Position(realmOrder, l) as real
    ensures values.Keys == Members(realmOrder) + Members(userOrder)
    ensures forall l :: l in values ==> values[l] == SortValue(realmOrder, userOrder, l)
  {
    hide Position, SortValue, Distinct;
    values := realmValues;
    RealmOnlyValues(realmOrder, userOrder);
    for i := 0 to |userOrder|
      invariant values.Keys == realmValues.Keys + Members(userOrder[..i])
      invariant forall l :: l in userOrder[..i] ==> values[l] == SortValue(realmOrder, userOrder, l)
      invariant forall l :: l in realmValues && l !in userOrder[..i] ==> values[l] == realmValues[l]
    {
      var l := userOrder[i];
      assert userOrder[..i + 1] == userOrder[..i] + [l];
      UserValue(realmOrder, userOrder, i);
      var known := if l in values then values[l] else i as real;
      values := values[l := if known < i as real - 0.1 then known else i as real - 0.1];
      assert values[l] == SortValue(realmOrder, userOrder, l);
    }
    assert userOrder[..|userOrder|] == userOrder;
  }

  ghost predicate AscendingBy(order: seq<string>, values: map<string, real>) {
    && (forall i :: 0 <= i < |order| ==> order[i] in values)
    && forall i, j :: 0 <= i < j < |order| ==> values[order[i]] < values[order[j]]
  }

  method InsertByValue(order: seq<string>, values: map<string, real>, l: string) returns (longer: seq<string>)
    requires AscendingBy(order, values) && l in values && l !in order
    requires forall q :: q in values && q != l ==> values[q] != values[l]
    ensures AscendingBy(longer, values)
    ensures Members(longer) == Members(order) + {l}
  {
    var k := 0;
    while k < |order| && values[order[k]] < values[l]
      invariant 0 <= k <= |order|
      invariant forall i :: 0 <= i < k ==> values[order[i]] < values[l]
    {
      k := k + 1;
    }
    longer := order[..k] + [l] + order[k..];
    InsertedAscends(order, values, l, k);
    assert forall x :: x in longer <==> x in order[..k] || x == l || x in order[k..];
    assert order == order[..k] + order[k..];
    assert forall x :: x in order <==> x in order[..k] || x in order[k..];
  }

  lemma InsertedAscends(order: seq<string>, values: map<string, real>, l: string, k: nat)
    requires AscendingBy(order, values) && l in values && k <= |order|
    requires forall i :: 0 <= i < k ==> values[order[i]] < values[l]
    requires k < |order| ==> values[l] < values[order[k]]
    ensures AscendingBy(order[..k] + [l] + order[k..], values)
  {
    var longer := order[..k] + [l] + order[k..];
    forall i | 0 <= i < |longer|
      ensures longer[i] == if i < k then order[i] else if i == k then l else order[i - 1]
    {
    }
  }

  // ----- fairness

  function Top(order: seq<string>, n: nat): set<string> { Members(if n <= |order| then order[..n] else order) }

  lemma TopIsPosition(order: seq<string>, n: nat, l: string)
    requires Distinct(order)
    ensures l in Top(order, n) <==> l in order && Position(order, l) < n
  {
    var prefix := if n <= |order| then order[..n] else order;
    if l in prefix {
      var i :| 0 <= i < |prefix| && prefix[i] == l;
      PositionOf(order, i);
    }
    if l in order && Position(order, l) < n { assert prefix[Position(order, l)] == l; }
  }

  /** The labels among the first n of the realm or of the user are those with a sort value below n - .1. */
  lemma ShownIsBelow(realm: seq<string>, user: seq<string>, n: nat, l: string)
    requires Distinct(realm) && Distinct(user) && (l in realm || l in user)
    ensures l in Top(realm, n) + Top(user, n) <==> SortValue(realm, user, l) < n as real - 0.1
  {
    TopIsPosition(realm, n, l);
    TopIsPosition(user, n, l);
    var r, u := Position(realm, l), Position(user, l);
    assert r < n <==> r as real < n as real - 0.1 by { RealBelow(r, n); }
  }

  lemma RealBelow(r: int, n: int)
    ensures r < n <==> r as real < n as real - 0.1
  {
    if r < n { assert r as real + 1.0 <= n as real; }
  }

  lemma {:induction false} BelowIsPrefix(order: seq<string>, realm: seq<string>, user: seq<string>,
      bound: real) returns (k: nat)
    requires Ascending(order, realm, user)
    ensures k <= |order|
    ensures forall i :: 0 <= i < |order| ==> (SortValue(realm, user, order[i]) < bound <==> i < k)
  {
    hide SortValue;
    k := 0;
    while k < |order| && SortValue(realm, user, order[k]) < bound
      invariant 0 <= k <= |order|
      invariant forall i :: 0 <= i < k ==> SortValue(realm, user, order[i]) < bound
    {
      k := k + 1;
    }
  }

  lemma {:induction false} TopCount(order: seq<string>, n: nat)
    requires Distinct(order)
    ensures |Top(order, n)| <= n
  {
    MembersCount(if n <= |order| then order[..n] else order);
  }

  /** For every n, the union of the realm's top n and the user's top n is exactly a prefix of the
      displayed order, at most 2n long. */
  lemma DisplayIsFair(display: seq<string>, realm: seq<string>, user: seq<string>, n: nat) returns (k: nat)
    requires Distinct(realm) && Distinct(user) && Distinct(display)
    requires Members(display) == Members(realm) + Members(user) && Ascending(display, realm, user)
    ensures k <= |display| && k <= 2 * n
    ensures Members(display[..k]) == Top(realm, n) + Top(user, n)
  {
    hide SortValue;
    k := BelowIsPrefix(display, realm, user, n as real - 0.1);
    forall l ensures l in display[..k] <==> l in Top(realm, n) + Top(user, n) {
      if l in display[..k] {
        var i :| 0 <= i < k && display[i] == l;
        assert l in Members(display);
        ShownIsBelow(realm, user, n, l);
      }
      if l in Top(realm, n) + Top(user, n) {
        assert l in Members(display) by { TopIsPosition(realm, n, l); TopIsPosition(user, n, l); }
        var i :| 0 <= i < |display| && display[i] == l;
        ShownIsBelow(realm, user, n, l);
        assert display[..k][i] == l;
      }
    }
    assert Members(display[..k]) == Top(realm, n) + Top(user, n);
    MembersCount(display[..k]);
    TopCount(realm, n);
    TopCount(user, n);
    UnionCount(Top(realm, n), Top(user, n));
  }

  lemma UnionCount(a: set<string>, b: set<string>)
    ensures |a + b| <= |a| + |b|
  {
    assert a + b == a + (b - a) && b == (b - a) + (b * a);
  }
}
