/** Which email addresses a realm admits (zerver/models.py). */
module EmailDomains {
  datatype RealmDomain = RealmDomain(domain: string, allowSubdomains: bool)

  /** What a realm says about addresses. */
  datatype RealmPolicy = RealmPolicy(restrictedToDomain: bool, disallowDisposable: bool, domains: seq<RealmDomain>)

  datatype Verdict = Allowed | DomainNotAllowed | DisposableEmail

  function LowerChar(c: char): char {
    if 'A' <= c <= 'Z' then (c as int + 32) as char else c
  }

  function Lower(s: string): string {
    if s == [] then [] else [LowerChar(s[0])] + Lower(s[1..])
  }

  /** split("@")[-1]: what follows the last @, or everything. */
  function AfterLastAt(s: string): string {
    if s == [] || '@' !in s then s else AfterLastAt(s[1..])
  }

  function EmailToDomain(email: string): string { Lower(AfterLastAt(email)) }

  // ----- which domain that is, spelled out

  /** d is r with the letters A to Z made small. */
  ghost predicate IsLowered(d: string, r: string) {
    && |d| == |r|
    && forall i :: 0 <= i < |r| ==> d[i] == if 'A' <= r[i] <= 'Z' then (r[i] as int + 32) as char else r[i]
  }

  /** r is what follows the last @, or everything when there is none. */
  ghost predicate IsAfterAt(r: string, email: string) {
    '@' !in r && (email == r || exists p :: email == p + "@" + r)
  }

  ghost predicate IsDomainOf(d: string, email: string) { exists r :: IsAfterAt(r, email) && IsLowered(d, r) }

  lemma {:induction false} AfterLastAtSpec(s: string)
    ensures IsAfterAt(AfterLastAt(s), s)
  {
    if '@' in s {
      var rest := s[1..];
      AfterLastAtSpec(rest);
      assert s == [s[0]] + rest;
      if '@' in rest {
        var p :| rest == p + "@" + AfterLastAt(rest);
        assert s == ([s[0]] + p) + "@" + AfterLastAt(rest);
      } else {
        assert s[0] == '@' && s == "" + "@" + rest;
      }
    }
  }

  lemma {:induction false} LowerSpec(s: string)
    ensures IsLowered(Lower(s), s)
  {
    if s != [] {
      LowerSpec(s[1..]);
      assert s == [s[0]] + s[1..];
    }
  }

  lemma DomainSpec(email: string)
    ensures IsDomainOf(EmailToDomain(email), email)
  {
    AfterLastAtSpec(email);
    LowerSpec(AfterLastAt(email));
  }

  lemma AfterAtIsUnique(r: string, q: string, email: string)
    requires IsAfterAt(r, email) && IsAfterAt(q, email)
    ensures r == q
  {
    if |r| < |q| {
      LongerHasAt(r, q, email);
    } else if |q| < |r| {
      LongerHasAt(q, r, email);
    } else {
      assert r == email[|email| - |r|..] && q == email[|email| - |q|..];
    }
  }

  lemma LongerHasAt(r: string, q: string, email: string)
    requires IsAfterAt(r, email) && IsAfterAt(q, email)
    ensures |q| <= |r|
  {
    assert q == email[|email| - |q|..];
    assert |r| < |email| ==> email[|email| - |r| - 1] == '@';
  }

  /** An email has one domain, and what precedes the last @ and the case of letters do not matter. */
  lemma DomainIsDetermined(d: string, email: string, e: string, other: string, r: string, q: string)
    requires IsDomainOf(d, email) && IsDomainOf(e, other) && IsAfterAt(r, email) && IsAfterAt(q, other)
    requires exists low :: IsLowered(low, r) && IsLowered(low, q)
    ensures d == e
  {
    hide IsAfterAt;
    var r' :| IsAfterAt(r', email) && IsLowered(d, r');
    var q' :| IsAfterAt(q', other) && IsLowered(e, q');
    AfterAtIsUnique(r, r', email);
    AfterAtIsUnique(q, q', other);
    var low :| IsLowered(low, r) && IsLowered(low, q);
    assert d == low && e == low;
  }

  /** The third part of domain.partition('.'). */
  function Rest(domain: string): string {
    if domain == [] then []
    else if domain[0] == '.' then domain[1..]
    else Rest(domain[1..])
  }

  lemma {:induction false} RestShrinks(domain: string)
    requires domain != []
    ensures |Rest(domain)| < |domain|
  {
    if domain[0] != '.' && domain[1..] != [] { RestShrinks(domain[1..]); }
  }

  predicate Registered(domains: seq<RealmDomain>, domain: string) {
    exists d :: d in domains && d.domain == domain
  }

  predicate RegisteredWithSubdomains(domains: seq<RealmDomain>, domain: string) {
    exists d :: d in domains && d.domain == domain && d.allowSubdomains
  }

  /** domain is something, a dot, and suffix. */
  ghost predicate DotSuffix(domain: string, suffix: string) {
    exists i :: 0 <= i < |domain| && domain[i] == '.' && domain[i + 1..] == suffix
  }

  /** The registered domains that the suffix loop finds. */
  ghost predicate Found(domains: seq<RealmDomain>, domain: string) {
    exists d :: d in domains && d.allowSubdomains && (DotSuffix(domain, d.domain) || (d.domain == "" && domain != ""))
  }

  lemma {:induction false} DotSuffixRest(domain: string, suffix: string)
    requires domain != []
    ensures DotSuffix(domain, suffix) || suffix == ""
      <==> Rest(domain) == suffix || (Rest(domain) != "" && DotSuffix(Rest(domain), suffix)) || suffix == ""
  {
    if domain[0] == '.' {
      FirstDot(domain, suffix);
    } else if domain[1..] == [] {
      assert Rest(domain) == [];
    } else {
      DotSuffixRest(domain[1..], suffix);
      SkipChar(domain, suffix);
    }
  }

  lemma FirstDot(domain: string, suffix: string)
    requires domain != [] && domain[0] == '.'
    ensures DotSuffix(domain, suffix) <==> domain[1..] == suffix || DotSuffix(domain[1..], suffix)
  {
    if i :| 0 <= i < |domain| && domain[i] == '.' && domain[i + 1..] == suffix {
      if i > 0 { assert domain[1..][i - 1] == '.' && domain[1..][i..] == suffix; }
    }
    if i :| 0 <= i < |domain[1..]| && domain[1..][i] == '.' && domain[1..][i + 1..] == suffix {
      assert domain[i + 1] == '.' && domain[i + 2..] == suffix;
    }
  }

  lemma SkipChar(domain: string, suffix: string)
    requires domain != [] && domain[0] != '.'
    ensures DotSuffix(domain, suffix) <==> DotSuffix(domain[1..], suffix)
  {
    if i :| 0 <= i < |domain| && domain[i] == '.' && domain[i + 1..] == suffix {
      assert domain[1..][i - 1] == '.' && domain[1..][i..] == suffix;
    }
    if i :| 0 <= i < |domain[1..]| && domain[1..][i] == '.' && domain[1..][i + 1..] == suffix {
      assert domain[i + 1] == '.' && domain[i + 2..] == suffix;
    }
  }

  /** One turn of the loop. */
  lemma FoundStep(domains: seq<RealmDomain>, domain: string)
    requires domain != []
    ensures Found(domains, domain)
      <==> RegisteredWithSubdomains(domains, Rest(domain)) || (Rest(domain) != "" && Found(domains, Rest(domain)))
  {
    var rest := Rest(domain);
    if Found(domains, domain) {
      var d :| d in domains && d.allowSubdomains && (DotSuffix(domain, d.domain) || (d.domain == "" && domain != ""));
      DotSuffixRest(domain, d.domain);
    }
    if RegisteredWithSubdomains(domains, rest) {
      var d :| d in domains && d.domain == rest && d.allowSubdomains;
      DotSuffixRest(domain, d.domain);
    }
    if rest != "" && Found(domains, rest) {
      var d :| d in domains && d.allowSubdomains && (DotSuffix(rest, d.domain) || (d.domain == "" && rest != ""));
      DotSuffixRest(domain, d.domain);
    }
  }

  /** The suffix loop; it terminates because partition always shortens the domain. */
  method SubdomainAllowed(domains: seq<RealmDomain>, start: string) returns (allowed: bool)
    ensures allowed <==> Found(domains, start)
  {
    var domain := start;
    while |domain| > 0
      invariant Found(domains, start) <==> domain != "" && Found(domains, domain)
      decreases |domain|
    {
      FoundStep(domains, domain);
      RestShrinks(domain);
      domain := Rest(domain);
      if RegisteredWithSubdomains(domains, domain) { return true; }
    }
    return false;
  }

  /** A domain-restricted realm admits exactly the registered domains and, for registered domains
      with allow_subdomains, what ends in a dot and that domain; a registered empty domain with
      allow_subdomains admits every non-empty domain. */
  method EmailAllowedForRealm(email: string, realm: RealmPolicy, isDisposable: string -> bool)
    returns (verdict: Verdict)
    ensures exists domain :: IsDomainOf(domain, email) && IsVerdict(verdict, domain, realm, isDisposable)
  {
    ghost var own := EmailToDomain(email);
    DomainSpec(email);
    if !realm.restrictedToDomain {
      verdict := if realm.disallowDisposable && isDisposable(EmailToDomain(email)) then DisposableEmail else Allowed;
      assert IsVerdict(verdict, own, realm, isDisposable);
      return;
    }
    var domain := EmailToDomain(email);
    AdmitsSpec(realm.domains, domain);
    if Registered(realm.domains, domain) {
      verdict := Allowed;
    } else {
      var allowed := SubdomainAllowed(realm.domains, domain);
      verdict := if allowed then Allowed else DomainNotAllowed;
    }
    assert IsVerdict(verdict, own, realm, isDisposable);
  }

  ghost predicate EndsAfterDot(domain: string, i: int, suffix: string) {
    0 <= i < |domain| && domain[i] == '.' && domain[i + 1..] == suffix
  }

  /** The domain is registered, or it ends in a dot and a registered domain with allow_subdomains; a
      registered empty one with allow_subdomains takes every non-empty domain. */
  ghost predicate Admits(domains: seq<RealmDomain>, domain: string) {
    || (exists d :: d in domains && d.domain == domain)
    || (exists d, i :: d in domains && d.allowSubdomains && EndsAfterDot(domain, i, d.domain))
    || (domain != "" && exists d :: d in domains && d.allowSubdomains && d.domain == "")
  }

  lemma AdmitsSpec(domains: seq<RealmDomain>, domain: string)
    ensures Admits(domains, domain) <==> Registered(domains, domain) || Found(domains, domain)
  {
    if Found(domains, domain) {
      var d :| d in domains && d.allowSubdomains && (DotSuffix(domain, d.domain) || (d.domain == "" && domain != ""));
      if DotSuffix(domain, d.domain) {
        var i :| 0 <= i < |domain| && domain[i] == '.' && domain[i + 1..] == d.domain;
        assert EndsAfterDot(domain, i, d.domain);
      }
    }
    if d, i :| d in domains && d.allowSubdomains && EndsAfterDot(domain, i, d.domain) {
      assert DotSuffix(domain, d.domain);
    }
  }

  ghost predicate IsVerdict(verdict: Verdict, domain: string, realm: RealmPolicy, isDisposable: string -> bool) {
    verdict ==
      if realm.restrictedToDomain then if Admits(realm.domains, domain) then Allowed else DomainNotAllowed
      else if realm.disallowDisposable && isDisposable(domain) then DisposableEmail
      else Allowed
  }

  /** Two emails that differ only before the last @ or in the case of letters get the same verdict. */
  lemma SameVerdict(email: string, other: string, r: string, q: string, realm: RealmPolicy,
      isDisposable: string -> bool, v: Verdict, w: Verdict)
    requires exists domain :: IsDomainOf(domain, email) && IsVerdict(v, domain, realm, isDisposable)
    requires exists domain :: IsDomainOf(domain, other) && IsVerdict(w, domain, realm, isDisposable)
    requires IsAfterAt(r, email) && IsAfterAt(q, other) && exists low :: IsLowered(low, r) && IsLowered(low, q)
    ensures v == w
  {
    hide IsAfterAt, Admits;
    var d :| IsDomainOf(d, email) && IsVerdict(v, d, realm, isDisposable);
    var e :| IsDomainOf(e, other) && IsVerdict(w, e, realm, isDisposable);
    DomainIsDetermined(d, email, e, other, r, q);
  }

  // ----- the declarative rule

  /** The rule on names: a registered domain, or a dot boundary before a non-empty registered one. */
  ghost predicate Rule(domains: seq<RealmDomain>, domain: string) {
    Registered(domains, domain)
    || exists d :: d in domains && d.allowSubdomains && d.domain != "" && DotSuffix(domain, d.domain)
  }

  function Repeated(n: nat): string { if n == 0 then "" else "a" + Repeated(n - 1) }

  lemma {:induction false} RepeatedSpec(n: nat)
    ensures |Repeated(n)| == n && forall c :: c in Repeated(n) ==> c == 'a'
  {
    if n > 0 { RepeatedSpec(n - 1); }
  }

  function Longest(domains: seq<RealmDomain>): (n: nat)
    ensures forall d :: d in domains ==> |d.domain| <= n
  {
    if domains == [] then 0
    else
      var rest := Longest(domains[1..]);
      assert forall d :: d in domains ==> d == domains[0] || d in domains[1..];
      if rest < |domains[0].domain| then |domains[0].domain| else rest
  }

  /** The code follows the rule for every domain if and only if the empty domain is not registered
      with allow_subdomains, which validate_domain sees to. */
  lemma LoopFollowsRuleExactlyWhen(domains: seq<RealmDomain>)
    ensures (forall domain :: Registered(domains, domain) || Found(domains, domain) <==> Rule(domains, domain))
      <==> !RegisteredWithSubdomains(domains, "")
  {
    if RegisteredWithSubdomains(domains, "") {
      var odd := Repeated(Longest(domains) + 1);
      RepeatedSpec(Longest(domains) + 1);
      assert Found(domains, odd);
      assert !Registered(domains, odd);
      assert forall i :: 0 <= i < |odd| ==> odd[i] in odd;
      assert !Rule(domains, odd);
    } else {
      forall domain ensures Registered(domains, domain) || Found(domains, domain) <==> Rule(domains, domain) {}
    }
  }
}
