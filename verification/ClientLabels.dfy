/** The labels of the client chart: renaming, merging and ranking. */
module ClientLabels {
  type Arrays = map<string, seq<int>>

  // ----- client_label_map

  predicate StartsWith(s: string, prefix: string) { prefix <= s }
  predicate EndsWith(s: string, suffix: string) { |suffix| <= |s| && s[|s| - |suffix|..] == suffix }

  function ClientLabel(name: string): string {
    if name == "website" then "Website"
    else if StartsWith(name, "desktop app") then "Old desktop app"
    else if name == "ZulipElectron" then "Desktop app"
    else if name == "ZulipAndroid" then "Old Android app"
    else if name == "ZulipiOS" then "Old iOS app"
    else if name == "ZulipMobile" then "Mobile app"
    else if name == "ZulipPython" || name == "API: Python" then "Python API"
    else if StartsWith(name, "Zulip") && EndsWith(name, "Webhook") then
      (if |name| - 7 <= 5 then "" else name[5..|name| - 7]) + " webhook"
    else name
  }

  /** q is the new label of name, spelled out. */
  ghost predicate IsShownAs(name: string, q: string) {
    || (name == "website" && q == "Website")
    || (IsOldDesktop(name) && q == "Old desktop app")
    || (name == "ZulipElectron" && q == "Desktop app")
    || (name == "ZulipAndroid" && q == "Old Android app")
    || (name == "ZulipiOS" && q == "Old iOS app")
    || (name == "ZulipMobile" && q == "Mobile app")
    || (name in {"ZulipPython", "API: Python"} && q == "Python API")
    || (exists service :: name == "Zulip" + service + "Webhook" && q == service + " webhook")
    || (IsOther(name) && q == name)
  }

  ghost predicate IsOldDesktop(name: string) { exists rest :: name == "desktop app" + rest }

  ghost predicate IsOther(name: string) {
    && name !in {"website", "ZulipElectron", "ZulipAndroid", "ZulipiOS", "ZulipMobile", "ZulipPython", "API: Python"}
    && !IsOldDesktop(name)
    && forall service :: name != "Zulip" + service + "Webhook"
  }

  lemma ClientLabelSpec(name: string)
    ensures IsShownAs(name, ClientLabel(name))
  {
    OldDesktopSpec(name);
    WebhookSpec(name);
    if StartsWith(name, "Zulip") && EndsWith(name, "Webhook") {
      var service := name[5..|name| - 7];
      assert name == "Zulip" + service + "Webhook";
      assert |name| == 12 ==> service == "";
      assert name[0] == 'Z' && "desktop app"[0] == 'd' && name[|name| - 1] == 'k';
    }
  }

  lemma OldDesktopSpec(name: string)
    ensures StartsWith(name, "desktop app") <==> IsOldDesktop(name)
  {
    if "desktop app" <= name { assert name == "desktop app" + name[11..]; }
  }

  lemma WebhookSpec(name: string)
    ensures StartsWith(name, "Zulip") && EndsWith(name, "Webhook") <==> exists x :: name == "Zulip" + x + "Webhook"
    ensures StartsWith(name, "Zulip") && EndsWith(name, "Webhook") ==>
      |name| >= 12 && name == "Zulip" + name[5..|name| - 7] + "Webhook"
  {
    if "Zulip" <= name && EndsWith(name, "Webhook") {
      ShortWebhook(name);
      assert name == "Zulip" + name[5..|name| - 7] + "Webhook";
    }
    forall x | name == "Zulip" + x + "Webhook" ensures "Zulip" <= name && EndsWith(name, "Webhook") {
      assert name[|name| - 7..] == "Webhook";
    }
  }

  /** The prefix and the suffix do not overlap. */
  lemma ShortWebhook(name: string)
    requires "Zulip" <= name && EndsWith(name, "Webhook")
    ensures |name| >= 12
  {
    assert name[..5] == "Zulip" && name[|name| - 7..][0] == 'W';
    assert forall i :: 0 <= i < 5 ==> name[i] == name[..5][i] != 'W';
  }

  // ----- sums over sets of labels

  ghost function SumSet(s: set<string>, f: string -> int): int {
    if s == {} then 0 else var x :| x in s; f(x) + SumSet(s - {x}, f)
  }

  lemma {:induction false} SumSetRemove(s: set<string>, f: string -> int, x: string)
    requires x in s
    ensures SumSet(s, f) == f(x) + SumSet(s - {x}, f)
  {
    var y :| y in s && SumSet(s, f) == f(y) + SumSet(s - {y}, f);
    if x != y {
      SumSetRemove(s - {y}, f, x);
      SumSetRemove(s - {x}, f, y);
      assert s - {y} - {x} == s - {x} - {y};
    }
  }

  lemma SumSetAdd(s: set<string>, f: string -> int, x: string)
    requires x !in s
    ensures SumSet(s + {x}, f) == f(x) + SumSet(s, f)
  {
    SumSetRemove(s + {x}, f, x);
    assert s + {x} - {x} == s;
  }

  lemma {:induction false} SumSetSame(s: set<string>, f: string -> int, g: string -> int)
    requires forall x :: x in s ==> f(x) == g(x)
    ensures SumSet(s, f) == SumSet(s, g)
  {
    if s != {} {
      var x :| x in s;
      SumSetRemove(s, f, x);
      SumSetRemove(s, g, x);
      SumSetSame(s - {x}, f, g);
    }
  }

  // ----- rewrite_client_arrays

  function Column(m: Arrays, i: nat): string -> int { (l: string) => if l in m && i < |m[l]| then m[l][i] else 0 }

  ghost function SameLabel(ls: set<string>, mapped: string): set<string> { set l | l in ls && ClientLabel(l) == mapped }

  ghost predicate Rectangular(m: Arrays, n: nat) { forall l :: l in m ==> |m[l]| == n }

  /** mapped holds, for the labels seen so far, the pointwise sum of the arrays of each new label. */
  ghost predicate Merged(mapped: Arrays, m: Arrays, seen: set<string>, n: nat) {
    && (forall q :: q in mapped <==> exists l :: l in seen && ClientLabel(l) == q)
    && Rectangular(mapped, n)
    && (forall q, i :: q in mapped && 0 <= i < n ==> mapped[q][i] == SumSet(SameLabel(seen, q), Column(m, i)))
  }

  ghost predicate Conserved(mapped: Arrays, m: Arrays, seen: set<string>, n: nat) {
    forall i :: 0 <= i < n ==> SumSet(mapped.Keys, Column(mapped, i)) == SumSet(seen, Column(m, i))
  }

  lemma SameLabelAdd(seen: set<string>, l: string, q: string)
    ensures SameLabel(seen + {l}, q) == if ClientLabel(l) == q then SameLabel(seen, q) + {l} else SameLabel(seen, q)
  {
  }

  lemma MergeStep(mapped: Arrays, mapped': Arrays, m: Arrays, seen: set<string>, l: string, n: nat)
    requires Merged(mapped, m, seen, n) && Rectangular(m, n) && l in m && l !in seen
    requires var q := ClientLabel(l);
      mapped' == mapped[q := seq(n, i requires 0 <= i < n => Column(mapped, i)(q) + m[l][i])]
    ensures Merged(mapped', m, seen + {l}, n)
  {
    hide ClientLabel, SumSet;
    forall q, i | q in mapped' && 0 <= i < n ensures mapped'[q][i] == SumSet(SameLabel(seen + {l}, q), Column(m, i)) {
      SameLabelAdd(seen, l, q);
      if q == ClientLabel(l) {
        SumSetAdd(SameLabel(seen, q), Column(m, i), l);
        assert mapped'[q][i] == Column(mapped, i)(q) + Column(m, i)(l);
        if q !in mapped {
          assert SameLabel(seen, q) == {} by { assert forall k :: k in seen ==> ClientLabel(k) != q; }
          SumSetEmpty(Column(m, i));
        }
      } else {
        assert q in mapped && mapped'[q] == mapped[q];
      }
    }
    forall q ensures q in mapped' <==> exists k :: k in seen + {l} && ClientLabel(k) == q {
      if q in mapped' && q != ClientLabel(l) {
        var k :| k in seen && ClientLabel(k) == q;
        assert k in seen + {l};
      }
      if q == ClientLabel(l) { assert l in seen + {l}; }
    }
  }

  lemma SumSetEmpty(f: string -> int)
    ensures SumSet({}, f) == 0
  {
  }

  lemma ConservedStep(mapped: Arrays, mapped': Arrays, m: Arrays, seen: set<string>, l: string, n: nat)
    requires Conserved(mapped, m, seen, n) && Rectangular(mapped, n) && Rectangular(m, n) && l in m && l !in seen
    requires var q := ClientLabel(l);
      mapped' == mapped[q := seq(n, i requires 0 <= i < n => Column(mapped, i)(q) + m[l][i])]
    ensures Conserved(mapped', m, seen + {l}, n)
  {
    hide ClientLabel, SumSet;
    var q := ClientLabel(l);
    forall i | 0 <= i < n ensures SumSet(mapped'.Keys, Column(mapped', i)) == SumSet(seen + {l}, Column(m, i)) {
      SumSetAdd(seen, Column(m, i), l);
      SumSetRemove(mapped'.Keys, Column(mapped', i), q);
      assert mapped'.Keys - {q} == mapped.Keys - {q};
      SumSetSame(mapped.Keys - {q}, Column(mapped, i), Column(mapped', i));
      if q in mapped {
        SumSetRemove(mapped.Keys, Column(mapped, i), q);
      } else {
        assert mapped.Keys - {q} == mapped.Keys;
      }
    }
  }

  /** The loop body: an array is added to the one of its new label, or starts it. */
  method MergeArray(before: Arrays, mappedLabel: string, values: seq<int>) returns (mapped: Arrays)
    requires Rectangular(before, |values|)
    ensures mapped == before[mappedLabel :=
      seq(|values|, i requires 0 <= i < |values| => Column(before, i)(mappedLabel) + values[i])]
  {
    mapped := before;
    if mappedLabel in mapped {
      for i := 0 to |values|
        invariant mapped.Keys == before.Keys && |mapped[mappedLabel]| == |values|
        invariant forall q :: q in before && q != mappedLabel ==> mapped[q] == before[q]
        invariant forall k :: 0 <= k < |values| ==>
          mapped[mappedLabel][k] == before[mappedLabel][k] + if k < i then values[k] else 0
      {
        mapped := mapped[mappedLabel := mapped[mappedLabel][i := mapped[mappedLabel][i] + values[i]]];
      }
    } else {
      mapped := mapped[mappedLabel := seq(|values|, i requires 0 <= i < |values| => values[i])];
    }
    ghost var expected := seq(|values|, i requires 0 <= i < |values| => Column(before, i)(mappedLabel) + values[i]);
    forall k: nat | k < |values| ensures mapped[mappedLabel][k] == expected[k] {
      assert Column(before, k)(mappedLabel) == if mappedLabel in before then before[mappedLabel][k] else 0;
    }
    assert mapped[mappedLabel] == expected;
    assert mapped == before[mappedLabel := expected];
  }

  /** The arrays have one length, as get_time_series_by_subgroup builds them. The labels are visited
      in any order; the result is the same, because the postcondition determines it. */
  method RewriteClientArrays(valueArrays: Arrays, n: nat) returns (mapped: Arrays)
    requires Rectangular(valueArrays, n)
    ensures Merged(mapped, valueArrays, valueArrays.Keys, n)
    ensures Conserved(mapped, valueArrays, valueArrays.Keys, n)
  {
    hide ClientLabel, SumSet, Merged, Conserved, Column;
    mapped := map[];
    var rest := valueArrays.Keys;
    NothingMerged(valueArrays, n);
    assert valueArrays.Keys - rest == {};
    while rest != {}
      invariant rest <= valueArrays.Keys
      invariant Merged(mapped, valueArrays, valueArrays.Keys - rest, n)
      invariant Conserved(mapped, valueArrays, valueArrays.Keys - rest, n)
      decreases rest
    {
      var name :| name in rest;
      ghost var before, seen := mapped, valueArrays.Keys - rest;
      MergedIsRectangular(mapped, valueArrays, seen, n);
      mapped := MergeArray(mapped, ClientLabel(name), valueArrays[name]);
      MergeStep(before, mapped, valueArrays, seen, name, n);
      ConservedStep(before, mapped, valueArrays, seen, name, n);
      rest := rest - {name};
      assert valueArrays.Keys - rest == seen + {name};
    }
    assert valueArrays.Keys - rest == valueArrays.Keys;
  }

  lemma NothingMerged(m: Arrays, n: nat)
    ensures Merged(map[], m, {}, n) && Conserved(map[], m, {}, n)
  {
    var none: Arrays := map[];
    forall i: nat ensures SumSet({}, Column(none, i)) == SumSet({}, Column(m, i)) {
      SumSetEmpty(Column(none, i));
      SumSetEmpty(Column(m, i));
    }
    assert none.Keys == {};
  }

  lemma MergedIsRectangular(mapped: Arrays, m: Arrays, seen: set<string>, n: nat)
    requires Merged(mapped, m, seen, n)
    ensures Rectangular(mapped, n)
  {
  }

  /** The specification leaves one answer only. */
  lemma MergedIsUnique(a: Arrays, b: Arrays, m: Arrays, seen: set<string>, n: nat)
    requires Merged(a, m, seen, n) && Merged(b, m, seen, n)
    ensures a == b
  {
    hide ClientLabel, SumSet;
    assert forall q :: q in a <==> q in b;
    forall q | q in a ensures a[q] == b[q] {
      assert |a[q]| == n == |b[q]|;
      forall i: nat | i < n ensures a[q][i] == b[q][i] {
        assert a[q][i] == SumSet(SameLabel(seen, q), Column(m, i));
        assert b[q][i] == SumSet(SameLabel(seen, q), Column(m, i));
      }
    }
  }
}
