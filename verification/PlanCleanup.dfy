/** What deleting the deletable rules does to the next plan, and why Lighthouse deletion by value is
    deletion by identity. */
module PlanCleanup {
  import opened Text
  import opened Tag
  import opened Keys
  import opened Plan
  import opened PlanFacts
  import opened PlanTheorems

  // ------------------------------------------------------------ who holds a key

  ghost predicate Holds(tag: string, owned: bool, k: Key, r: RuleInfo) {
    IsOwned(r.description, tag) == owned && k in KeysOf(r)
  }

  lemma {:induction false} HolderCounts(rules: seq<RuleInfo>, tag: string, owned: bool, k: Key, i: nat)
    requires i < |rules| && Holds(tag, owned, k, rules[i])
    ensures |Holders(rules, tag, owned, k)| >= 1
  {
    hide KeysOf, IsOwned;
    var last := rules[|rules| - 1];
    CopiesExact(KeysOf(last), k, last);
    if i < |rules| - 1 { HolderCounts(rules[..|rules| - 1], tag, owned, k, i); }
  }

  lemma {:induction false} TwoHoldersCount(rules: seq<RuleInfo>, tag: string, owned: bool, k: Key, i: nat, j: nat)
    requires i < j < |rules| && Holds(tag, owned, k, rules[i]) && Holds(tag, owned, k, rules[j])
    ensures |Holders(rules, tag, owned, k)| >= 2
  {
    hide KeysOf, IsOwned;
    var last := rules[|rules| - 1];
    CopiesExact(KeysOf(last), k, last);
    if j < |rules| - 1 {
      TwoHoldersCount(rules[..|rules| - 1], tag, owned, k, i, j);
    } else {
      HolderCounts(rules[..|rules| - 1], tag, owned, k, i);
    }
  }

  /** A key that is held once, by an owned rule, is held by nobody else. */
  lemma SoleHolder(rules: seq<RuleInfo>, tag: string, k: Key, i: nat, j: nat)
    requires i < |rules| && j < |rules|
    requires Holds(tag, true, k, rules[i]) && k in KeysOf(rules[j])
    requires |Holders(rules, tag, true, k)| == 1 && |Holders(rules, tag, false, k)| == 0
    ensures i == j
  {
    hide KeysOf, IsOwned;
    if IsOwned(rules[j].description, tag) {
      if i < j { TwoHoldersCount(rules, tag, true, k, i, j); }
      if j < i { TwoHoldersCount(rules, tag, true, k, j, i); }
    } else {
      HolderCounts(rules, tag, false, k, j);
    }
  }

  // ------------------------------------------------ deletion by value (Lighthouse)

  /** The port text a Lighthouse delete request carries for a rule. */
  function SentPort(r: RuleInfo): string { if r.port != "" then r.port else "ALL" }

  /** The cloud's test for a value-addressed delete: same protocol, port and action, and the same
      address in the one field the request fills. */
  predicate ValueMatches(x: RuleInfo, q: RuleInfo) {
    && q.protocol == x.protocol && q.action == x.action && SentPort(q) == SentPort(x)
    && (if !x.ipv6CidrBlock.Blank? then q.ipv6CidrBlock == x.ipv6CidrBlock else q.cidrBlock == x.cidrBlock)
  }

  lemma JudgedAddressIsOneField(r: RuleInfo)
    requires Judged(r)
    ensures r.cidrBlock.Blank? != r.ipv6CidrBlock.Blank?
  {
    hide BuildKeysSpec;
  }

  lemma BlankPortMeansALL(r: RuleInfo, s: RuleInfo)
    requires Judged(r) && s == r.(port := "ALL") && r.port == ""
    ensures SnapshotRuleKeys(s) == SnapshotRuleKeys(r)
  {
    hide Upper, Trim, CanonicalPort, CanonicalProtocol;
    EmptyField();
    PlainIsFixed("ALL");
    OnePartField("ALL");
  }

  lemma MatchingRulesShareKeys(x: RuleInfo, q: RuleInfo)
    requires Judged(x) && Judged(q) && ValueMatches(x, q)
    ensures KeysOf(q) == KeysOf(x)
  {
    hide SnapshotRuleKeys;
    JudgedAddressIsOneField(x);
    JudgedAddressIsOneField(q);
    assert x.cidrBlock == q.cidrBlock && x.ipv6CidrBlock == q.ipv6CidrBlock;
    var x', q' := x.(port := SentPort(x)), q.(port := SentPort(q));
    if x.port == "" { BlankPortMeansALL(x, x'); }
    if q.port == "" { BlankPortMeansALL(q, q'); }
    KeysIgnoreIdentity(x', q');
  }


  /** On the snapshot a plan was made from, the cloud's value match of a deletable rule finds that one
      entry and no other, whatever its description. */
  lemma ValueDeletionIsIdentityDeletion(inp: PlanInput, i: nat, j: nat)
    requires inp.cloudType == TCLighthouse
    requires i < |inp.snapshot.rules| && Deletable(inp, inp.snapshot.rules[i])
    requires j < |inp.snapshot.rules| && ValueMatches(inp.snapshot.rules[i], inp.snapshot.rules[j])
    ensures i == j
  {
    hide DesiredOf, AllItems, AllDNSIssues, Contradiction, CoverageReadyOf, ValueMatches, Judged, IsOwned;
    var rules := inp.snapshot.rules;
    var x, q := rules[i], rules[j];
    assert Judged(x) && Judged(q);
    MatchingRulesShareKeys(x, q);
    assert KeysOf(x) != [] && IsOwned(x.description, inp.tag) by { assert IsCandidate(inp.tag, DesiredKeys(DesiredOf(inp)), x); }
    var k := KeysOf(x)[0];
    assert k in KeysOf(x);
    SoleHolder(rules, inp.tag, k, i, j);
  }

  // ------------------------------------------------------- the plan after cleanup

  /** The same rule up to the locator the cloud hands out. */
  predicate SameBody(a: RuleInfo, b: RuleInfo) {
    a.(policyIndex := "", ruleID := "") == b.(policyIndex := "", ruleID := "")
  }

  /** A cloud may renumber what is left, but it does not lose or invent locators: rule IDs are stable,
      and a rule without a usable index stays without one. */
  predicate Relocated(ct: CloudType, before: RuleInfo, after: RuleInfo) {
    && SameBody(before, after)
    && (ct == AliECS || ct == AliSWAS ==> before.ruleID == after.ruleID)
    && (ct == TCCVM ==> ParseInt64(Trim(before.policyIndex)).None? == ParseInt64(Trim(after.policyIndex)).None?)
  }

  ghost predicate RelocatedAll(ct: CloudType, before: seq<RuleInfo>, after: seq<RuleInfo>) {
    |before| == |after| && forall i :: 0 <= i < |before| ==> Relocated(ct, before[i], after[i])
  }

  /** The snapshot without its deletable rules. */
  ghost function Remaining(inp: PlanInput, rules: seq<RuleInfo>): seq<RuleInfo> {
    if rules == [] then []
    else Remaining(inp, rules[..|rules| - 1])
         + (if Deletable(inp, rules[|rules| - 1]) then [] else [rules[|rules| - 1]])
  }

  lemma {:induction false} RemainingExact(inp: PlanInput, rules: seq<RuleInfo>, r: RuleInfo)
    ensures r in Remaining(inp, rules) <==> r in rules && !Deletable(inp, r)
  {
    hide Deletable;
    if rules != [] {
      var init, last := rules[..|rules| - 1], rules[|rules| - 1];
      assert forall x :: x in rules <==> x in init || x == last;
      RemainingExact(inp, init, r);
    }
  }

  lemma {:induction false} HoldersOfRemaining(inp: PlanInput, rules: seq<RuleInfo>, owned: bool, k: Key)
    requires forall r :: r in rules && Deletable(inp, r) ==> k !in KeysOf(r)
    ensures Holders(Remaining(inp, rules), inp.tag, owned, k) == Holders(rules, inp.tag, owned, k)
  {
    hide Deletable, KeysOf, IsOwned;
    if rules != [] {
      var init, last := rules[..|rules| - 1], rules[|rules| - 1];
      assert last in rules && forall x :: x in init ==> x in rules;
      HoldersOfRemaining(inp, init, owned, k);
      CopiesExact(KeysOf(last), k, last);
      var rest, left := Remaining(inp, init), Remaining(inp, rules);
      if Deletable(inp, last) {
        assert left == rest;
        assert Copies(KeysOf(last), k, last) == [];
      } else {
        assert left == rest + [last] && left[..|left| - 1] == rest;
      }
    }
  }

  lemma {:induction false} CopiesCount(keys: seq<Key>, k: Key, a: RuleInfo, b: RuleInfo)
    ensures |Copies(keys, k, a)| == |Copies(keys, k, b)|
  {
    if keys != [] { CopiesCount(keys[..|keys| - 1], k, a, b); }
  }

  lemma {:induction false} HoldersRelocated(ct: CloudType, a: seq<RuleInfo>, b: seq<RuleInfo>, tag: string, owned: bool, k: Key)
    requires RelocatedAll(ct, a, b)
    ensures |Holders(a, tag, owned, k)| == |Holders(b, tag, owned, k)|
  {
    hide SnapshotRuleKeys, IsOwned, ParseInt64, Trim;
    if a != [] {
      var x, y := a[|a| - 1], b[|b| - 1];
      assert Relocated(ct, x, y);
      KeysIgnoreIdentity(x, y);
      CopiesCount(KeysOf(x), k, x, y);
      HoldersRelocated(ct, a[..|a| - 1], b[..|b| - 1], tag, owned, k);
    }
  }

  /** Expectations do not depend on the snapshot. */
  lemma {:induction false} ExpectationsIgnoreSnapshot(a: PlanInput, b: PlanInput, rules: seq<DomainRule>)
    requires b == a.(snapshot := b.snapshot)
    ensures AllItems(a, rules) == AllItems(b, rules) && AllDNSIssues(a, rules) == AllDNSIssues(b, rules)
  {
    hide AddressesItems, AddressesIssues, Trim;
    if rules != [] { ExpectationsIgnoreSnapshot(a, b, rules[..|rules| - 1]); }
  }

  lemma DesiredIgnoresSnapshot(a: PlanInput, b: PlanInput)
    requires b == a.(snapshot := b.snapshot)
    ensures DesiredOf(a) == DesiredOf(b) && MergedOf(a) == MergedOf(b)
  {
    hide AllItems, Fold, RenderDescription;
    ExpectationsIgnoreSnapshot(a, b, SortedRules(a));
    var m := MergedOf(a).desired;
    assert RenderedAll(a, m) == RenderedAll(b, m);
  }

  /** An expected key that is covered stays covered when the deletable rules go. */
  lemma CleanupKeepsCoverage(inp: PlanInput, rules': seq<RuleInfo>, k: Key)
    requires RelocatedAll(inp.cloudType, Remaining(inp, inp.snapshot.rules), rules')
    requires k in DesiredKeys(DesiredOf(inp)) && Covers(inp.snapshot.rules, k)
    ensures Covers(rules', k)
  {
    hide DesiredOf, SnapshotRuleKeys, GateOpen, LocatorProblem, ParseInt64, Trim;
    var r :| r in inp.snapshot.rules && k in KeysOf(r);
    var left := Remaining(inp, inp.snapshot.rules);
    RemainingExact(inp, inp.snapshot.rules, r);
    var i :| 0 <= i < |left| && left[i] == r;
    assert Relocated(inp.cloudType, left[i], rules'[i]);
    KeysIgnoreIdentity(r, rules'[i]);
    assert rules'[i] in rules' && k in KeysOf(rules'[i]);
  }

  /** A candidate left over because it cannot be located is still not locatable afterwards. */
  lemma LeftoverStaysLeft(inp: PlanInput, rules': seq<RuleInfo>, i: nat)
    requires GateOpen(inp)
    requires RelocatedAll(inp.cloudType, Remaining(inp, inp.snapshot.rules), rules')
    requires i < |rules'| && IsCandidate(inp.tag, DesiredKeys(DesiredOf(inp)), rules'[i])
    ensures LocatorProblem(inp.cloudType, rules', inp.tag, rules'[i]).Some?
  {
    hide DesiredOf, SnapshotRuleKeys, GateOpen, ParseInt64, Trim;
    var rules := inp.snapshot.rules;
    var left := Remaining(inp, rules);
    var r, r' := left[i], rules'[i];
    assert Relocated(inp.cloudType, r, r');
    KeysIgnoreIdentity(r, r');
    assert r in left;
    RemainingExact(inp, rules, r);
    assert IsCandidate(inp.tag, DesiredKeys(DesiredOf(inp)), r);
    if inp.cloudType == TCLighthouse {
      var k :| k in KeysOf(r) && (|Holders(rules, inp.tag, true, k)| != 1 || |Holders(rules, inp.tag, false, k)| != 0);
      forall x | x in rules && Deletable(inp, x) ensures k !in KeysOf(x) {
        assert LocatorProblem(inp.cloudType, rules, inp.tag, x).None?;
      }
      HoldersOfRemaining(inp, rules, true, k);
      HoldersOfRemaining(inp, rules, false, k);
      HoldersRelocated(inp.cloudType, left, rules', inp.tag, true, k);
      HoldersRelocated(inp.cloudType, left, rules', inp.tag, false, k);
    }
  }

  /** Cleanup is idempotent: once the deletable rules are gone, the same expectations planned against
      what is left add nothing and delete nothing. */
  lemma CleanupIsFinal(inp: PlanInput, after: PlanInput)
    requires GateOpen(inp) && after == inp.(snapshot := after.snapshot)
    requires RelocatedAll(inp.cloudType, Remaining(inp, inp.snapshot.rules), after.snapshot.rules)
    ensures PlanSpec(after).toAdd == [] && PlanSpec(after).cleanupDeletable == []
  {
    hide DesiredOf, RelocatedAll, PlanSpec, IsCandidate, LocatorProblem, AllItems, AllDNSIssues, Contradiction;
    DesiredIgnoresSnapshot(inp, after);
    PlanParts(after);
    var add := PlanSpec(after).toAdd;
    if add != [] {
      ToAddExact(after.snapshot.rules, DesiredOf(after), add[0]);
      var d :| d in DesiredOf(after) && d.implementable && !Covers(after.snapshot.rules, d.key);
      assert Covers(inp.snapshot.rules, d.key);
      CleanupKeepsCoverage(inp, after.snapshot.rules, d.key);
    }
    var del := PlanSpec(after).cleanupDeletable;
    if del != [] {
      DeletableExact(after, del[0]);
      var i :| 0 <= i < |after.snapshot.rules| && after.snapshot.rules[i] == del[0];
      LeftoverStaysLeft(inp, after.snapshot.rules, i);
    }
  }
}
