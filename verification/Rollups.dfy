/** The roll-up queries conserve: sums per realm, per subgroup and overall are unchanged. */
module Rollups {
  import opened Grouping
  import opened CountStats
  import opened CountTables
  import opened SourceData

  // ----- direct sums over rows, without grouping

  function ValueSum(rows: seq<Row>): int {
    if rows == [] then 0 else rows[0].value + ValueSum(rows[1..])
  }

  function SubgroupSum(rows: seq<Row>, g: Subgroup): int {
    if rows == [] then 0
    else (if rows[0].subgroup == g then rows[0].value else 0) + SubgroupSum(rows[1..], g)
  }

  predicate InRealm(k: Key, realm: int) { !k.InstallationKey? && k.realm == realm }

  function RealmSum(rows: seq<Row>, realm: int, g: Subgroup): int {
    if rows == [] then 0
    else
      (if InRealm(rows[0].key, realm) && rows[0].subgroup == g then rows[0].value else 0)
      + RealmSum(rows[1..], realm, g)
  }

  /** The one value stored for a slot, or 0: the sum is over at most one row. */
  function SlotSum(rows: seq<Row>, s: Slot): int {
    if rows == [] then 0
    else (if Slot(rows[0].key, rows[0].subgroup) == s then rows[0].value else 0) + SlotSum(rows[1..], s)
  }

  /** What the uniqueness constraints of the count tables are about; NULL subgroups included. */
  ghost predicate UniqueRows(rows: seq<Row>) {
    forall i, j :: 0 <= i < j < |rows| ==> rows[i].(value := 0) != rows[j].(value := 0)
  }

  /** The foreign key realm of the rows resolves. */
  ghost predicate Covered(rows: seq<Row>, realms: seq<Realm>) {
    forall r :: r in rows ==> !r.key.InstallationKey? && exists realm :: realm in realms && realm.id == r.key.realm
  }

  // ----- stamped groups

  lemma {:induction false} EntriesSums(rows: seq<Row>, s: Slot, g: Subgroup)
    ensures Total(Entries(rows)) == ValueSum(rows) == Total(BySubgroup(rows))
    ensures SumFor(Entries(rows), s) == SlotSum(rows, s)
    ensures SumFor(BySubgroup(rows), Slot(InstallationKey, g)) == SubgroupSum(rows, g)
  {
    if rows != [] {
      EntriesSums(rows[1..], s, g);
    }
  }

  lemma {:induction false} EntriesGroups(rows: seq<Row>, s: Slot)
    ensures HasGroup(Entries(rows), s) <==> exists r :: r in rows && Slot(r.key, r.subgroup) == s
  {
    if rows != [] {
      var head := Entry(Slot(rows[0].key, rows[0].subgroup), rows[0].value);
      EntriesGroups(rows[1..], s);
      assert forall r :: r in rows <==> r == rows[0] || r in rows[1..];
      assert forall e :: e in Entries(rows) <==> e == head || e in Entries(rows[1..]);
    }
  }

  /** INSERT ... SELECT slot, SUM(...) GROUP BY slot inserts one row for each group that occurs,
      holding the group's sum. */
  lemma GroupedRows(es: seq<Entry<Slot>>, stat: CountStat, t: int, s: Slot)
    ensures var rows := Stamp(GroupSum(es), stat, t);
      && UniqueRows(rows)
      && SlotSum(rows, s) == SumFor(es, s)
      && ValueSum(rows) == Total(es)
      && ((exists r :: r in rows && Slot(r.key, r.subgroup) == s) <==> HasGroup(es, s))
  {
    var rows := Stamp(GroupSum(es), stat, t);
    StampSpec(GroupSum(es), stat, t);
    GroupSumSpec(es, s);
    EntriesSums(rows, s, Null);
    EntriesGroups(rows, s);
  }

  /** In a table with unique rows, the row of a slot at one end_time holds the slot's sum. */
  lemma {:induction false} UniqueRowValue(rows: seq<Row>, stat: CountStat, t: int, r: Row)
    requires UniqueRows(rows) && Stamped(rows, stat, t) && r in rows
    ensures SlotSum(rows, Slot(r.key, r.subgroup)) == r.value
  {
    if rows[0] == r {
      forall q | q in rows[1..] ensures Slot(q.key, q.subgroup) != Slot(r.key, r.subgroup) {
        var j :| 0 <= j < |rows[1..]| && rows[1..][j] == q;
        assert q == rows[j + 1] && q in rows && r == rows[0] && rows[0].(value := 0) != rows[j + 1].(value := 0);
      }
      AbsentSlot(rows[1..], Slot(r.key, r.subgroup));
    } else {
      assert r in rows[1..];
      forall i, j | 0 <= i < j < |rows[1..]| ensures rows[1..][i].(value := 0) != rows[1..][j].(value := 0) {
        assert rows[1..][i] == rows[i + 1] && rows[1..][j] == rows[j + 1];
      }
      assert Stamped(rows[1..], stat, t);
      UniqueRowValue(rows[1..], stat, t, r);
      var j :| 0 <= j < |rows[1..]| && rows[1..][j] == r;
      assert rows[j + 1] == r && rows[0] in rows && rows[0].(value := 0) != rows[j + 1].(value := 0);
    }
  }

  lemma {:induction false} AbsentSlot(rows: seq<Row>, s: Slot)
    requires forall r :: r in rows ==> Slot(r.key, r.subgroup) != s
    ensures SlotSum(rows, s) == 0
  {
    if rows != [] {
      assert rows[0] in rows && forall r :: r in rows[1..] ==> r in rows;
      AbsentSlot(rows[1..], s);
    }
  }

  // ----- the join with zerver_realm

  lemma {:induction false} JoinRealmSums(realm: Realm, rows: seq<Row>, id: int, g: Subgroup)
    ensures SumFor(JoinRealm(realm, rows), Slot(RealmKey(id), g)) == if realm.id == id then RealmSum(rows, id, g) else 0
    ensures HasGroup(JoinRealm(realm, rows), Slot(RealmKey(id), g)) <==>
      realm.id == id && exists r :: r in rows && InRealm(r.key, id) && r.subgroup == g
  {
    if rows != [] {
      JoinRealmSums(realm, rows[1..], id, g);
      hide HasGroup;
      var head, rest := Entry(Slot(RealmKey(realm.id), rows[0].subgroup), rows[0].value), JoinRealm(realm, rows[1..]);
      assert forall r :: r in rows <==> r == rows[0] || r in rows[1..];
      if InRealm(rows[0].key, realm.id) {
        assert JoinRealm(realm, rows) == [head] + rest && ([head] + rest)[1..] == rest;
        HasGroupParts(head, rest, Slot(RealmKey(id), g));
      } else {
        assert JoinRealm(realm, rows) == JoinRealm(realm, rows[1..]);
      }
    }
  }

  lemma {:induction false} JoinRealmsSums(realms: seq<Realm>, rows: seq<Row>, id: int, g: Subgroup)
    requires UniqueRealms(realms)
    ensures SumFor(JoinRealms(realms, rows), Slot(RealmKey(id), g))
      == if exists realm :: realm in realms && realm.id == id then RealmSum(rows, id, g) else 0
    ensures HasGroup(JoinRealms(realms, rows), Slot(RealmKey(id), g)) <==>
      (exists realm :: realm in realms && realm.id == id)
      && exists r :: r in rows && InRealm(r.key, id) && r.subgroup == g
  {
    if realms != [] {
      var a, b, s := JoinRealm(realms[0], rows), JoinRealms(realms[1..], rows), Slot(RealmKey(id), g);
      JoinRealmSums(realms[0], rows, id, g);
      JoinRealmsSums(realms[1..], rows, id, g);
      SumsConcat(a, b, s);
      assert forall e :: e in a + b <==> e in a || e in b;
      assert forall realm :: realm in realms <==> realm == realms[0] || realm in realms[1..];
      if realms[0].id == id {
        forall realm | realm in realms[1..] ensures realm.id != id {
          var j :| 0 <= j < |realms[1..]| && realms[1..][j] == realm;
          assert realms[j + 1] == realm;
        }
      }
    }
  }

  /** RealmCount holds at t one row for each realm and subgroup that occurs, with the sum of the
      output table's rows of that realm and subgroup. */
  lemma RealmRollupSpec(realms: seq<Realm>, table: seq<Row>, stat: CountStat, t: int, realm: Realm, g: Subgroup)
    requires UniqueRealms(realms) && realm in realms
    ensures var rows, out := At(table, stat, t), RealmRollup(realms, table, stat, t);
      && UniqueRows(out)
      && SlotSum(out, Slot(RealmKey(realm.id), g)) == RealmSum(rows, realm.id, g)
      && ((exists r :: r in out && Slot(r.key, r.subgroup) == Slot(RealmKey(realm.id), g))
            <==> exists r :: r in rows && InRealm(r.key, realm.id) && r.subgroup == g)
  {
    var rows := At(table, stat, t);
    GroupedRows(JoinRealms(realms, rows), stat, t, Slot(RealmKey(realm.id), g));
    JoinRealmsSums(realms, rows, realm.id, g);
  }

  /** InstallationCount holds at t one row for each subgroup that occurs in RealmCount, with its sum. */
  lemma InstallationRollupSpec(table: seq<Row>, stat: CountStat, t: int, g: Subgroup)
    ensures var rows, out := At(table, stat, t), InstallationRollup(table, stat, t);
      && UniqueRows(out)
      && SlotSum(out, Slot(InstallationKey, g)) == SubgroupSum(rows, g)
      && SubgroupSum(out, g) == SubgroupSum(rows, g)
      && ValueSum(out) == ValueSum(rows)
      && ((exists r :: r in out && r.subgroup == g) <==> exists r :: r in rows && r.subgroup == g)
  {
    var rows, out, s := At(table, stat, t), InstallationRollup(table, stat, t), Slot(InstallationKey, g);
    GroupedRows(BySubgroup(rows), stat, t, s);
    EntriesSums(rows, s, g);
    BySubgroupGroups(rows, g);
    InstallationKeys(rows, stat, t);
    InstallationSubgroups(out, g);
  }

  lemma {:induction false} BySubgroupGroups(rows: seq<Row>, g: Subgroup)
    ensures HasGroup(BySubgroup(rows), Slot(InstallationKey, g)) <==> exists r :: r in rows && r.subgroup == g
    ensures forall e :: e in BySubgroup(rows) ==> e.group.key == InstallationKey
  {
    if rows != [] {
      var head := Entry(Slot(InstallationKey, rows[0].subgroup), rows[0].value);
      BySubgroupGroups(rows[1..], g);
      assert forall r :: r in rows <==> r == rows[0] || r in rows[1..];
      assert forall e :: e in BySubgroup(rows) <==> e == head || e in BySubgroup(rows[1..]);
    }
  }

  lemma InstallationKeys(rows: seq<Row>, stat: CountStat, t: int)
    ensures forall r :: r in Stamp(GroupSum(BySubgroup(rows)), stat, t) ==> r.key == InstallationKey
  {
    var es := BySubgroup(rows);
    var out := Stamp(GroupSum(es), stat, t);
    forall r | r in out ensures r.key == InstallationKey {
      GroupedRows(es, stat, t, Slot(r.key, r.subgroup));
      BySubgroupGroups(rows, r.subgroup);
      assert HasGroup(es, Slot(r.key, r.subgroup));
    }
  }

  lemma {:induction false} InstallationSubgroups(out: seq<Row>, g: Subgroup)
    requires forall r :: r in out ==> r.key == InstallationKey
    ensures SlotSum(out, Slot(InstallationKey, g)) == SubgroupSum(out, g)
  {
    if out != [] {
      assert out[0] in out && forall r :: r in out[1..] ==> r in out;
      InstallationSubgroups(out[1..], g);
    }
  }

  // ----- conservation

  /** Sum of the values of the rows whose slots satisfy p. */
  function RowSum(rows: seq<Row>, p: Slot -> bool): int {
    if rows == [] then 0
    else (if p(Slot(rows[0].key, rows[0].subgroup)) then rows[0].value else 0) + RowSum(rows[1..], p)
  }

  function InSubgroup(g: Subgroup): Slot -> bool { (s: Slot) => s.subgroup == g }

  lemma {:induction false} StampSums(es: seq<Entry<Slot>>, stat: CountStat, t: int, p: Slot -> bool)
    ensures RowSum(Stamp(es, stat, t), p) == SumWhere(es, p)
    ensures ValueSum(Stamp(es, stat, t)) == Total(es)
  {
    if es != [] {
      StampSums(es[1..], stat, t, p);
    }
  }

  lemma {:induction false} SubgroupIsRowSum(rows: seq<Row>, g: Subgroup)
    ensures SubgroupSum(rows, g) == RowSum(rows, InSubgroup(g))
  {
    if rows != [] { SubgroupIsRowSum(rows[1..], g); }
  }

  lemma ResolvesCons(id: int, realms: seq<Realm>)
    requires realms != [] && UniqueRealms(realms)
    ensures Resolves(id, realms) <==> realms[0].id == id || Resolves(id, realms[1..])
    ensures !(realms[0].id == id && Resolves(id, realms[1..]))
  {
    assert forall realm :: realm in realms <==> realm == realms[0] || realm in realms[1..];
    if Resolves(id, realms[1..]) {
      var j :| 0 <= j < |realms[1..]| && realms[1..][j].id == id;
      assert realms[j + 1].id == id;
    }
  }

  lemma JoinRealmCons(realm: Realm, rows: seq<Row>, g: Subgroup)
    requires rows != []
    ensures var hit := InRealm(rows[0].key, realm.id);
      && SumWhere(JoinRealm(realm, rows), InSubgroup(g))
         == SumWhere(JoinRealm(realm, rows[1..]), InSubgroup(g))
           + (if hit && rows[0].subgroup == g then rows[0].value else 0)
      && Total(JoinRealm(realm, rows)) == Total(JoinRealm(realm, rows[1..])) + if hit then rows[0].value else 0
  {
    var head := if InRealm(rows[0].key, realm.id) then
      [Entry(Slot(RealmKey(realm.id), rows[0].subgroup), rows[0].value)] else [];
    SumWhereConcat(head, JoinRealm(realm, rows[1..]), InSubgroup(g));
    SumsConcat(head, JoinRealm(realm, rows[1..]), Slot(InstallationKey, g));
  }

  lemma {:induction false} JoinRealmsCons(realms: seq<Realm>, rows: seq<Row>, g: Subgroup)
    requires UniqueRealms(realms) && rows != [] && !rows[0].key.InstallationKey?
    ensures var hit := Resolves(rows[0].key.realm, realms);
      && SumWhere(JoinRealms(realms, rows), InSubgroup(g))
         == SumWhere(JoinRealms(realms, rows[1..]), InSubgroup(g))
           + (if hit && rows[0].subgroup == g then rows[0].value else 0)
      && Total(JoinRealms(realms, rows)) == Total(JoinRealms(realms, rows[1..])) + if hit then rows[0].value else 0
  {
    hide JoinRealm;
    if realms != [] {
      var id := rows[0].key.realm;
      JoinRealmsCons(realms[1..], rows, g);
      JoinRealmCons(realms[0], rows, g);
      ResolvesCons(id, realms);
      hide Resolves, UniqueRealms;
      SumWhereConcat(JoinRealm(realms[0], rows), JoinRealms(realms[1..], rows), InSubgroup(g));
      SumWhereConcat(JoinRealm(realms[0], rows[1..]), JoinRealms(realms[1..], rows[1..]), InSubgroup(g));
      SumsConcat(JoinRealm(realms[0], rows), JoinRealms(realms[1..], rows), Slot(InstallationKey, g));
      SumsConcat(JoinRealm(realms[0], rows[1..]), JoinRealms(realms[1..], rows[1..]), Slot(InstallationKey, g));
    }
  }

  lemma CoveredCons(rows: seq<Row>, realms: seq<Realm>)
    requires rows != [] && Covered(rows, realms)
    ensures !rows[0].key.InstallationKey? && Resolves(rows[0].key.realm, realms) && Covered(rows[1..], realms)
  {
    assert rows[0] in rows && forall r :: r in rows[1..] ==> r in rows;
  }

  lemma {:induction false} JoinRealmsConserves(realms: seq<Realm>, rows: seq<Row>, g: Subgroup)
    requires UniqueRealms(realms) && Covered(rows, realms)
    ensures SumWhere(JoinRealms(realms, rows), InSubgroup(g)) == SubgroupSum(rows, g)
    ensures Total(JoinRealms(realms, rows)) == ValueSum(rows)
  {
    if rows == [] {
      JoinRealmsNoRows(realms);
    } else {
      CoveredCons(rows, realms);
      hide JoinRealms, Covered, UniqueRealms, Resolves;
      JoinRealmsCons(realms, rows, g);
      JoinRealmsConserves(realms, rows[1..], g);
    }
  }

  lemma {:induction false} JoinRealmsNoRows(realms: seq<Realm>)
    ensures JoinRealms(realms, []) == []
  {
    if realms != [] { JoinRealmsNoRows(realms[1..]); }
  }

  /** Rolling up to realms keeps every subgroup's sum and the total. */
  lemma RealmRollupConserves(realms: seq<Realm>, table: seq<Row>, stat: CountStat, t: int, g: Subgroup)
    requires UniqueRealms(realms) && Covered(At(table, stat, t), realms)
    ensures SubgroupSum(RealmRollup(realms, table, stat, t), g) == SubgroupSum(At(table, stat, t), g)
    ensures ValueSum(RealmRollup(realms, table, stat, t)) == ValueSum(At(table, stat, t))
  {
    var rows := At(table, stat, t);
    var es := JoinRealms(realms, rows);
    JoinRealmsConserves(realms, rows, g);
    GroupSumWhere(es, InSubgroup(g));
    GroupSumSpec(es, Slot(InstallationKey, g));
    StampSums(GroupSum(es), stat, t, InSubgroup(g));
    SubgroupIsRowSum(rows, g);
    SubgroupIsRowSum(RealmRollup(realms, table, stat, t), g);
  }
}
