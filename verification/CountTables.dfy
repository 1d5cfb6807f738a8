/** Rows of the four count tables, and the statements that select, delete and roll them up. */
module CountTables {
  import opened Lists
  import opened Grouping
  import opened CountStats

  datatype Subgroup = Null | Text(text: string)

  datatype Key =
    | UserKey(user: int, realm: int)
    | StreamKey(stream: int, realm: int)
    | RealmKey(realm: int)
    | InstallationKey

  /** What GROUP BY groups the rows of one stat and one end_time by. */
  datatype Slot = Slot(key: Key, subgroup: Subgroup)

  datatype Row = Row(key: Key, stat: CountStat, subgroup: Subgroup, endTime: int, value: int)

  datatype Realm = Realm(id: int, dateCreated: int)

  // ----- WHERE property = stat, and WHERE property = stat AND end_time = t

  function Of(rows: seq<Row>, stat: CountStat): seq<Row> {
    if rows == [] then []
    else if rows[0].stat == stat then [rows[0]] + Of(rows[1..], stat)
    else Of(rows[1..], stat)
  }

  function At(rows: seq<Row>, stat: CountStat, t: int): seq<Row> {
    if rows == [] then []
    else if rows[0].stat == stat && rows[0].endTime == t then [rows[0]] + At(rows[1..], stat, t)
    else At(rows[1..], stat, t)
  }

  /** DELETE WHERE property = stat AND end_time = t. */
  function Without(rows: seq<Row>, stat: CountStat, t: int): seq<Row> {
    if rows == [] then []
    else if rows[0].stat == stat && rows[0].endTime == t then Without(rows[1..], stat, t)
    else [rows[0]] + Without(rows[1..], stat, t)
  }

  // ----- rows as entries, and back

  function Entries(rows: seq<Row>): seq<Entry<Slot>> {
    if rows == [] then []
    else [Entry(Slot(rows[0].key, rows[0].subgroup), rows[0].value)] + Entries(rows[1..])
  }

  function Stamp(es: seq<Entry<Slot>>, stat: CountStat, t: int): seq<Row> {
    if es == [] then []
    else [Row(es[0].group.key, stat, es[0].group.subgroup, t, es[0].amount)] + Stamp(es[1..], stat, t)
  }

  // ----- the roll-up queries

  function RealmEntry(realm: Realm): Row -> seq<Entry<Slot>> {
    (r: Row) =>
      if !r.key.InstallationKey? && r.key.realm == realm.id
      then [Entry(Slot(RealmKey(realm.id), r.subgroup), r.value)] else []
  }

  function JoinRealm(realm: Realm, rows: seq<Row>): seq<Entry<Slot>> { FlatMap(rows, RealmEntry(realm)) }

  function RealmEntries(rows: seq<Row>): Realm -> seq<Entry<Slot>> { (realm: Realm) => JoinRealm(realm, rows) }

  function JoinRealms(realms: seq<Realm>, rows: seq<Row>): seq<Entry<Slot>> { FlatMap(realms, RealmEntries(rows)) }

  function RealmRollup(realms: seq<Realm>, table: seq<Row>, stat: CountStat, t: int): seq<Row> {
    Stamp(GroupSum(JoinRealms(realms, At(table, stat, t))), stat, t)
  }

  function BySubgroup(rows: seq<Row>): seq<Entry<Slot>> {
    if rows == [] then []
    else [Entry(Slot(InstallationKey, rows[0].subgroup), rows[0].value)] + BySubgroup(rows[1..])
  }

  function InstallationRollup(table: seq<Row>, stat: CountStat, t: int): seq<Row> {
    Stamp(GroupSum(BySubgroup(At(table, stat, t))), stat, t)
  }

  // ----- laws of selection and deletion

  ghost predicate Stamped(rows: seq<Row>, stat: CountStat, t: int) {
    forall r :: r in rows ==> r.stat == stat && r.endTime == t
  }

  lemma {:induction false} OfConcat(a: seq<Row>, b: seq<Row>, stat: CountStat)
    ensures Of(a + b, stat) == Of(a, stat) + Of(b, stat)
  {
    if a == [] {
      assert a + b == b;
    } else {
      assert (a + b)[1..] == a[1..] + b;
      OfConcat(a[1..], b, stat);
    }
  }

  lemma {:induction false} AtConcat(a: seq<Row>, b: seq<Row>, stat: CountStat, t: int)
    ensures At(a + b, stat, t) == At(a, stat, t) + At(b, stat, t)
  {
    if a == [] {
      assert a + b == b;
    } else {
      assert (a + b)[1..] == a[1..] + b;
      AtConcat(a[1..], b, stat, t);
    }
  }

  lemma {:induction false} WithoutConcat(a: seq<Row>, b: seq<Row>, stat: CountStat, t: int)
    ensures Without(a + b, stat, t) == Without(a, stat, t) + Without(b, stat, t)
  {
    if a == [] {
      assert a + b == b;
    } else {
      assert (a + b)[1..] == a[1..] + b;
      WithoutConcat(a[1..], b, stat, t);
    }
  }

  lemma {:induction false} OfStamped(rows: seq<Row>, stat: CountStat, t: int, other: CountStat)
    requires Stamped(rows, stat, t)
    ensures Of(rows, other) == if other == stat then rows else []
  {
    if rows != [] {
      assert rows[0] in rows && forall r :: r in rows[1..] ==> r in rows;
      OfStamped(rows[1..], stat, t, other);
    }
  }

  lemma {:induction false} AtStamped(rows: seq<Row>, stat: CountStat, t: int, other: CountStat, u: int)
    requires Stamped(rows, stat, t)
    ensures At(rows, other, u) == if other == stat && u == t then rows else []
  {
    if rows != [] {
      assert rows[0] in rows && forall r :: r in rows[1..] ==> r in rows;
      AtStamped(rows[1..], stat, t, other, u);
    }
  }

  lemma {:induction false} WithoutStamped(rows: seq<Row>, stat: CountStat, t: int, other: CountStat, u: int)
    requires Stamped(rows, stat, t)
    ensures Without(rows, other, u) == if other == stat && u == t then [] else rows
  {
    if rows != [] {
      assert rows[0] in rows && forall r :: r in rows[1..] ==> r in rows;
      WithoutStamped(rows[1..], stat, t, other, u);
    }
  }

  lemma SelectStamped(rows: seq<Row>, stat: CountStat, t: int, other: CountStat, u: int)
    requires Stamped(rows, stat, t)
    ensures Of(rows, other) == if other == stat then rows else []
    ensures At(rows, other, u) == if other == stat && u == t then rows else []
    ensures Without(rows, other, u) == if other == stat && u == t then [] else rows
  {
    hide *;
    OfStamped(rows, stat, t, other);
    AtStamped(rows, stat, t, other, u);
    WithoutStamped(rows, stat, t, other, u);
  }

  /** A deletion is seen by its own stat alone, and selecting commutes with it. */
  lemma {:induction false} OfWithout(rows: seq<Row>, stat: CountStat, t: int, other: CountStat)
    ensures Of(Without(rows, stat, t), other)
      == if other == stat then Without(Of(rows, stat), stat, t) else Of(rows, other)
  {
    if rows != [] {
      OfWithout(rows[1..], stat, t, other);
    }
  }

  lemma {:induction false} AtOf(rows: seq<Row>, stat: CountStat, t: int)
    ensures At(Of(rows, stat), stat, t) == At(rows, stat, t)
  {
    if rows != [] {
      AtOf(rows[1..], stat, t);
    }
  }

  lemma {:induction false} AtMembers(rows: seq<Row>, stat: CountStat, t: int, r: Row)
    ensures r in At(rows, stat, t) <==> r in rows && r.stat == stat && r.endTime == t
    ensures Stamped(At(rows, stat, t), stat, t)
  {
    if rows != [] {
      AtMembers(rows[1..], stat, t, r);
      assert rows == [rows[0]] + rows[1..];
    }
  }

  /** Nothing but the rows themselves can be told from the per-stat views: tables whose views
      agree for every stat hold the same bag of rows. */
  lemma {:induction false} OfMultiplicity(rows: seq<Row>, r: Row)
    ensures multiset(Of(rows, r.stat))[r] == multiset(rows)[r]
  {
    if rows != [] {
      OfMultiplicity(rows[1..], r);
      assert rows == [rows[0]] + rows[1..];
      var head := if rows[0].stat == r.stat then [rows[0]] else [];
      assert Of(rows, r.stat) == head + Of(rows[1..], r.stat);
    }
  }

  lemma SameViewsSameBag(a: seq<Row>, b: seq<Row>)
    requires forall stat :: Of(a, stat) == Of(b, stat)
    ensures multiset(a) == multiset(b)
  {
    forall r ensures multiset(a)[r] == multiset(b)[r] {
      OfMultiplicity(a, r);
      OfMultiplicity(b, r);
    }
  }

  lemma {:induction false} StampSpec(es: seq<Entry<Slot>>, stat: CountStat, t: int)
    ensures |Stamp(es, stat, t)| == |es|
    ensures forall i :: 0 <= i < |es| ==>
      Stamp(es, stat, t)[i] == Row(es[i].group.key, stat, es[i].group.subgroup, t, es[i].amount)
    ensures Stamped(Stamp(es, stat, t), stat, t)
    ensures Entries(Stamp(es, stat, t)) == es
  {
    if es != [] {
      StampSpec(es[1..], stat, t);
      assert Stamp(es, stat, t)[1..] == Stamp(es[1..], stat, t);
    }
  }
}
