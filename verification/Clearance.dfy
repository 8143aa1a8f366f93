/** What a plan may delete, what it adds, whether it is ready and what it reports, read off the input: the
    rules' wishes, the keys of the snapshot's rules, and their locators (provider/plan.go). */
module Clearance {
  import opened Text
  import opened Tag
  import opened Keys
  import opened Plan
  import opened PlanFacts
  import opened PlanTheorems
  import opened PlanAccounts
  import opened Wishes
  import PlanOrderTheorem

  // ----------------------------------------------------------------- the conditions

  ghost predicate HoldsKey(r: RuleInfo, k: Key) { SnapshotRuleKeys(r).Some? && k in SnapshotRuleKeys(r).value }

  /** Some rule of the snapshot that can be judged holds the key. */
  ghost predicate Held(rules: seq<RuleInfo>, k: Key) { exists r :: r in rules && HoldsKey(r, k) }

  ghost predicate Asked(inp: PlanInput, k: Key) { exists q :: AskingRule(inp, q, k) }

  /** The text by which the planner compares what two keys are about. */
  function Service(k: Key): string { (if k.family == IPv4 then "ipv4" else "ipv6") + "|" + k.cidr + "|" + k.protocol + "|" + k.port }

  ghost predicate Contradict(a: RuleInfo, b: RuleInfo) {
    exists j, k :: HoldsKey(a, j) && HoldsKey(b, k) && Service(j) == Service(k) && j.action == "ACCEPT" && k.action == "DROP"
  }

  ghost predicate Contradictory(rules: seq<RuleInfo>) { exists a, b :: a in rules && b in rules && Contradict(a, b) }

  predicate Versioned(inp: PlanInput) {
    inp.cloudType == TCLighthouse || inp.cloudType == TCCVM ==> Trim(inp.snapshot.revision) != ""
  }

  ghost predicate Ready(inp: PlanInput) {
    && (exists k :: Asked(inp, k) && Expressible(inp.cloudType, k))
    && (forall k :: Asked(inp, k) && Expressible(inp.cloudType, k) ==> Held(inp.snapshot.rules, k))
    && !inp.addStateUnknown
  }

  /** When anything may be deleted at all. */
  ghost predicate Cleanable(inp: PlanInput) {
    && (forall q :: q in inp.rules ==> Clear(inp, q))
    && (forall k :: Asked(inp, k) ==> Expressible(inp.cloudType, k))
    && (forall r :: r in inp.snapshot.rules ==> SnapshotRuleKeys(r).Some?)
    && !Contradictory(inp.snapshot.rules) && Versioned(inp) && Ready(inp)
  }

  /** How often the rules hold the key. */
  ghost function Holdings(rules: seq<RuleInfo>, k: Key): nat {
    if rules == [] then 0
    else
      var r := rules[|rules| - 1];
      Holdings(rules[..|rules| - 1], k) + if SnapshotRuleKeys(r).Some? then multiset(SnapshotRuleKeys(r).value)[k] else 0
  }

  /** The platform can address this rule and no other: on Lighthouse by keys held once, on CVM by its number, on
      Alibaba by its ID. */
  ghost predicate Located(inp: PlanInput, r: RuleInfo) {
    match inp.cloudType
    case TCLighthouse => SnapshotRuleKeys(r).Some? ==> forall k :: k in SnapshotRuleKeys(r).value ==> Holdings(inp.snapshot.rules, k) == 1
    case TCCVM => ParseInt64(Trim(r.policyIndex)).Some?
    case _ => Trim(r.ruleID) != ""
  }

  /** A rule of the own TAG that serves no wish. */
  ghost predicate Leftover(inp: PlanInput, r: RuleInfo) {
    SnapshotRuleKeys(r).Some? && IsOwned(r.description, inp.tag) && forall k :: k in SnapshotRuleKeys(r).value ==> !Asked(inp, k)
  }

  // ------------------------------------------------------------------------ coverage

  lemma HeldIsCovered(rules: seq<RuleInfo>, k: Key)
    ensures Held(rules, k) <==> Covers(rules, k)
  {
    hide SnapshotRuleKeys;
    if Covers(rules, k) {
      var r :| r in rules && k in KeysOf(r);
      assert HoldsKey(r, k);
    }
    if Held(rules, k) {
      var r :| r in rules && HoldsKey(r, k);
      assert k in KeysOf(r);
    }
  }

  /** The coverage verdict of a plan. */
  lemma ReadyExactly(inp: PlanInput)
    ensures PlanSpec(inp).coverageReady <==> Ready(inp)
  {
    hide PlanSpec, DesiredOf, Covers, Held, Asks, Expressible;
    PlanParts(inp);
    var ds := DesiredOf(inp);
    forall k ensures Asked(inp, k) <==> exists d :: d in ds && d.key == k { DesiredAreWishes(inp, k); }
    forall d | d in ds ensures d.implementable <==> Expressible(inp.cloudType, d.key) { ImplementableExactly(inp, d); }
    forall k { HeldIsCovered(inp.snapshot.rules, k); }
    hide AskingRule, Asked;
    if d :| d in ds && d.implementable { assert Asked(inp, d.key); }
  }

  /** Which keys are added: those a rule asks for, the platform can express, and no rule of the snapshot holds. */
  lemma AdditionsExactly(inp: PlanInput, k: Key)
    ensures (exists d :: d in PlanSpec(inp).desired && d.key == k && d.action in PlanSpec(inp).toAdd)
            <==> Asked(inp, k) && Expressible(inp.cloudType, k) && !Held(inp.snapshot.rules, k)
  {
    hide PlanSpec, DesiredOf, Covers, Held, Asks, Expressible;
    PlanParts(inp);
    var ds := DesiredOf(inp);
    DesiredAreWishes(inp, k);
    HeldIsCovered(inp.snapshot.rules, k);
    forall d | d in ds && d.key == k
      ensures d.action in PlanSpec(inp).toAdd <==> Expressible(inp.cloudType, k) && !Held(inp.snapshot.rules, k)
    {
      ImplementableExactly(inp, d);
      DesiredHasOnePlace(inp, d);
    }
    if Asked(inp, k) { var d :| d in ds && d.key == k; }
  }

  // ------------------------------------------------------------------- contradictions

  lemma ServiceIsTuple(k: Key)
    ensures TupleOf(k) == Service(k)
  {
    var (f, rest) := (FamilyName(k.family) + "|", k.protocol + "|" + k.port);
    assert Service(k) == f + (k.cidr + "|" + rest);
    assert TupleOf(k) == f + (k.cidr + "|" + rest);
  }

  /** Keys that agree but for the action are about the same. */
  lemma SameFieldsContradict(a: RuleInfo, b: RuleInfo, k: Key)
    requires HoldsKey(a, k.(action := "ACCEPT")) && HoldsKey(b, k.(action := "DROP"))
    ensures Contradict(a, b)
  {
    hide SnapshotRuleKeys;
    assert Service(k.(action := "ACCEPT")) == Service(k.(action := "DROP"));
  }

  lemma HasTuple(rules: seq<RuleInfo>, t: string, action: string)
    ensures TupleHas(rules, t, action) <==> exists r, k :: r in rules && HoldsKey(r, k) && Service(k) == t && k.action == action
  {
    hide SnapshotRuleKeys, Service, TupleOf;
    forall k ensures TupleOf(k) == Service(k) { ServiceIsTuple(k); }
    if TupleHas(rules, t, action) {
      var r :| r in rules && exists k :: k in KeysOf(r) && TupleOf(k) == t && k.action == action;
      var k :| k in KeysOf(r) && TupleOf(k) == t && k.action == action;
      assert HoldsKey(r, k);
    }
    if r, k :| r in rules && HoldsKey(r, k) && Service(k) == t && k.action == action {
      assert k in KeysOf(r);
    }
  }

  ghost predicate OpposedOn(rules: seq<RuleInfo>, t: string) {
    exists a, b, j, k :: a in rules && b in rules && HoldsKey(a, j) && HoldsKey(b, k) && Service(j) == Service(k) == t
                         && j.action == "ACCEPT" && k.action == "DROP"
  }

  lemma OpposedIsOn(rules: seq<RuleInfo>, t: string)
    ensures Opposed(rules, t) <==> OpposedOn(rules, t)
  {
    hide HoldsKey, Service, TupleHas;
    HasTuple(rules, t, "ACCEPT");
    HasTuple(rules, t, "DROP");
    if Opposed(rules, t) {
      var a, j :| a in rules && HoldsKey(a, j) && Service(j) == t && j.action == "ACCEPT";
      var b, k :| b in rules && HoldsKey(b, k) && Service(k) == t && k.action == "DROP";
    }
  }

  lemma OpposedPair(rules: seq<RuleInfo>, t: string)
    requires OpposedOn(rules, t)
    ensures Contradictory(rules)
  {
    hide HoldsKey, Service;
    var a, b, j, k :| a in rules && b in rules && HoldsKey(a, j) && HoldsKey(b, k) && Service(j) == Service(k) == t
                      && j.action == "ACCEPT" && k.action == "DROP";
    assert Contradict(a, b);
  }

  lemma PairOpposed(rules: seq<RuleInfo>, a: RuleInfo, b: RuleInfo) returns (t: string)
    requires a in rules && b in rules && Contradict(a, b)
    ensures OpposedOn(rules, t)
  {
    hide HoldsKey, Service;
    var j, k :| HoldsKey(a, j) && HoldsKey(b, k) && Service(j) == Service(k) && j.action == "ACCEPT" && k.action == "DROP";
    t := Service(j);
  }

  lemma ContradictoryExactly(rules: seq<RuleInfo>)
    ensures Contradictory(rules) <==> Contradiction(rules)
  {
    hide Contradict, Opposed, OpposedOn;
    if Contradictory(rules) {
      var a, b :| a in rules && b in rules && Contradict(a, b);
      var t := PairOpposed(rules, a, b);
      OpposedIsOn(rules, t);
    }
    if Contradiction(rules) {
      var t :| Opposed(rules, t);
      OpposedIsOn(rules, t);
      OpposedPair(rules, t);
    }
  }

  // ----------------------------------------------------------------------- the gate

  lemma NothingWanted(inp: PlanInput)
    ensures PlanSpec(inp).desired == [] <==> forall k :: !Asked(inp, k)
  {
    hide PlanSpec, DesiredOf, Asks;
    PlanParts(inp);
    var ds := DesiredOf(inp);
    forall k ensures Asked(inp, k) <==> exists d :: d in ds && d.key == k { DesiredAreWishes(inp, k); }
    if ds != [] { assert ds[0] in ds && Asked(inp, ds[0].key); }
  }

  lemma AllExpressible(inp: PlanInput)
    ensures (forall d :: d in DesiredOf(inp) ==> d.implementable) <==> forall k :: Asked(inp, k) ==> Expressible(inp.cloudType, k)
  {
    hide DesiredOf, Asks, Expressible;
    var ds := DesiredOf(inp);
    forall k ensures Asked(inp, k) <==> exists d :: d in ds && d.key == k { DesiredAreWishes(inp, k); }
    forall d | d in ds ensures d.implementable <==> Expressible(inp.cloudType, d.key) { ImplementableExactly(inp, d); }
    hide AskingRule, Asked;
    if forall k :: Asked(inp, k) ==> Expressible(inp.cloudType, k) {
      forall d | d in ds ensures d.implementable { assert Asked(inp, d.key); }
    }
  }

  /** The cleanup gate is open exactly when the input allows cleaning up. */
  lemma GateExactly(inp: PlanInput)
    ensures GateOpen(inp) <==> Cleanable(inp)
  {
    hide PlanSpec, DesiredOf, AllItems, AllDNSIssues, CoverageReadyOf, Clear, Asked, Expressible, SnapshotRuleKeys, Contradiction,
         Contradictory, Ready;
    PlanParts(inp);
    ReadyExactly(inp);
    ContradictoryExactly(inp.snapshot.rules);
    NothingWanted(inp);
    AllExpressible(inp);
    DNSIssuesExactly(inp);
    IssueSources(inp);
    assert Ready(inp) ==> exists k :: Asked(inp, k) by { ReadyWants(inp); }
  }

  lemma ReadyWants(inp: PlanInput)
    ensures Ready(inp) ==> exists k :: Asked(inp, k)
  {
    hide Asked, Expressible, Held;
  }

  /** The issue lists of a plan are empty when what they are sorted from is. */
  lemma IssueSources(inp: PlanInput)
    ensures PlanSpec(inp).dnsErrors == [] <==> AllDNSIssues(inp, SortedRules(inp)) == []
    ensures (forall d :: d in DesiredOf(inp) ==> d.implementable)
            <==> forall it :: it in AllItems(inp, SortedRules(inp)) ==> it.reason.None?
  {
    UnsupportedExactly(inp);
    NotedIsExact(AllItems(inp, SortedRules(inp)));
    hide DesiredOf, AllDNSIssues, ConflictsOf, CoverageReadyOf, AllItems, Fold, GateIssues, CandidatesOf, Locatable, LocatorIssues, ToAddOf,
         MatchesOf, SortedRules;
    SortKeeps(IssueLe, AllDNSIssues(inp, SortedRules(inp)));
    SortKeeps(IssueLe, MergedOf(inp).unsupported);
    hide Sort;
    SameEmptiness(PlanSpec(inp).dnsErrors, AllDNSIssues(inp, SortedRules(inp)));
    SameEmptiness(PlanSpec(inp).unsupported, MergedOf(inp).unsupported);
  }

  lemma SameEmptiness<T>(a: seq<T>, b: seq<T>)
    requires multiset(a) == multiset(b)
    ensures a == [] <==> b == []
  {
    assert |multiset(a)| == |multiset(b)|;
  }

  // ------------------------------------------------------------------------ locators

  lemma {:induction false} CopiesCount(keys: seq<Key>, k: Key, r: RuleInfo)
    ensures |Copies(keys, k, r)| == multiset(keys)[k]
  {
    if keys != [] {
      var init, last := keys[..|keys| - 1], keys[|keys| - 1];
      assert keys == init + [last];
      CopiesCount(init, k, r);
    }
  }

  lemma {:induction false} HoldersCount(rules: seq<RuleInfo>, tag: string, k: Key)
    ensures |Holders(rules, tag, true, k)| + |Holders(rules, tag, false, k)| == Holdings(rules, k)
  {
    hide SnapshotRuleKeys, IsOwned, Copies;
    if rules != [] {
      var r := rules[|rules| - 1];
      HoldersCount(rules[..|rules| - 1], tag, k);
      CopiesCount(KeysOf(r), k, r);
      assert SnapshotRuleKeys(r).None? ==> KeysOf(r) == [];
    }
  }

  lemma LocatedExactly(inp: PlanInput, r: RuleInfo)
    requires r in inp.snapshot.rules && SnapshotRuleKeys(r).Some? && IsOwned(r.description, inp.tag)
    ensures LocatorProblem(inp.cloudType, inp.snapshot.rules, inp.tag, r).None? <==> Located(inp, r)
  {
    hide SnapshotRuleKeys, IsOwned, Holders, Holdings, Trim, ParseInt64;
    var rules := inp.snapshot.rules;
    forall k | k in KeysOf(r)
      ensures |Holders(rules, inp.tag, true, k)| == 1 && |Holders(rules, inp.tag, false, k)| == 0 <==> Holdings(rules, k) == 1
    {
      HoldersCount(rules, inp.tag, k);
      assert Holders(rules, inp.tag, true, k) != [] by { HoldersExact(rules, inp.tag, true, k, r); }
    }
  }

  /** Which rules of a snapshot a plan may delete, and how often: the leftovers that can be located, each as often
      as it occurs, and none at all unless the input allows cleaning up. */
  lemma DeletionsExactly(inp: PlanInput, r: RuleInfo)
    ensures multiset(PlanSpec(inp).cleanupDeletable)[r]
            == if Cleanable(inp) && Leftover(inp, r) && Located(inp, r) then multiset(inp.snapshot.rules)[r] else 0
  {
    hide PlanSpec, GateOpen, Cleanable, SnapshotRuleKeys, IsOwned, Located, LocatorProblem, DesiredOf, Asked;
    DeletableExact(inp, r);
    GateExactly(inp);
    forall k ensures k in DesiredKeys(DesiredOf(inp)) <==> Asked(inp, k) { WantedIsAsked(inp, k); }
    if SnapshotRuleKeys(r).Some? { SnapshotKeysShape(r); }
    if r in inp.snapshot.rules && SnapshotRuleKeys(r).Some? && IsOwned(r.description, inp.tag) { LocatedExactly(inp, r); }
  }

  lemma WantedIsAsked(inp: PlanInput, k: Key)
    ensures k in DesiredKeys(DesiredOf(inp)) <==> Asked(inp, k)
  {
    hide DesiredOf, AskingRule;
    DesiredAreWishes(inp, k);
  }

  // ------------------------------------------------------------- what a plan reports

  /** A conflict names a rule that cannot be judged, what two rules contradict each other about, or the missing
      version. */
  ghost predicate Conflicting(inp: PlanInput, i: Issue) {
    || (exists r :: r in inp.snapshot.rules && SnapshotRuleKeys(r).None? && i == Issue(SnapshotRuleInvalid, None, "", 0, Described(r)))
    || (exists t :: OpposedOn(inp.snapshot.rules, t) && i == Issue(OppositeAction, None, "", 0, Says(t)))
    || (!Versioned(inp) && i == Issue(SnapshotIncomplete, None, "", 0, NoSubject))
  }

  lemma {:induction false} InvalidNamed(rules: seq<RuleInfo>, i: Issue)
    ensures i in InvalidIssues(rules)
            <==> exists r :: r in rules && SnapshotRuleKeys(r).None? && i == Issue(SnapshotRuleInvalid, None, "", 0, Described(r))
  {
    hide SnapshotRuleKeys, Described;
    if rules != [] {
      var init, last := rules[..|rules| - 1], rules[|rules| - 1];
      assert forall r :: r in rules <==> r in init || r == last;
      InvalidNamed(init, i);
    }
  }

  lemma {:induction false} OpposedNamed(rules: seq<RuleInfo>, tuples: seq<string>, i: Issue)
    ensures i in OpposedIssues(rules, tuples)
            <==> exists t :: t in tuples && OpposedOn(rules, t) && i == Issue(OppositeAction, None, "", 0, Says(t))
  {
    hide Opposed, OpposedOn;
    if tuples != [] {
      var init, last := tuples[..|tuples| - 1], tuples[|tuples| - 1];
      assert forall t :: t in tuples <==> t in init || t == last;
      OpposedNamed(rules, init, i);
      OpposedIsOn(rules, last);
    }
  }

  lemma OpposedIsListed(rules: seq<RuleInfo>, t: string)
    requires OpposedOn(rules, t)
    ensures t in Sort(StringLe, Tuples(rules))
  {
    hide TupleOf, Service, SnapshotRuleKeys;
    OpposedIsOn(rules, t);
    SortedElements(StringLe, Tuples(rules));
    TuplesExact(rules, t);
  }

  /** The conflicts a plan reports are these and no others. */
  lemma ConflictsSay(inp: PlanInput, i: Issue)
    ensures i in PlanSpec(inp).conflicts <==> Conflicting(inp, i)
  {
    hide DesiredOf, AllDNSIssues, CoverageReadyOf, AllItems, Fold, GateIssues, CandidatesOf, Locatable, LocatorIssues, ToAddOf, MatchesOf, Sort,
         OpposedOn, InvalidIssues, OpposedIssues, Tuples, Trim, Described, SnapshotRuleKeys;
    var rules := inp.snapshot.rules;
    SortedElements(IssueLe, ConflictsOf(inp));
    InvalidNamed(rules, i);
    OpposedNamed(rules, Sort(StringLe, Tuples(rules)), i);
    forall t | OpposedOn(rules, t) ensures t in Sort(StringLe, Tuples(rules)) { OpposedIsListed(rules, t); }
    InConcat(InvalidIssues(rules) + OpposedIssues(rules, Sort(StringLe, Tuples(rules))), RevisionIssues(inp), i);
    InConcat(InvalidIssues(rules), OpposedIssues(rules, Sort(StringLe, Tuples(rules))), i);
  }

  ghost predicate Names(issues: seq<Issue>, i: Issue) { exists u :: u in issues && i == Issue(u.code, None, "", 0, NoSubject) }

  lemma CodesNamed(issues: seq<Issue>, i: Issue)
    ensures i in CodeIssues(DistinctCodes(issues)) <==> Names(issues, i)
  {
    hide Sort;
    var codes := DistinctCodes(issues);
    forall c ensures c in codes <==> exists u :: u in issues && u.code == c {
      PlanOrderTheorem.CodesSeenExact(issues, c);
      SortedElements(CodeLe, CodesSeen([], issues));
    }
    hide DistinctCodes;
    if i in CodeIssues(codes) {
      var n :| 0 <= n < |codes| && CodeIssues(codes)[n] == i;
      assert codes[n] in codes;
    }
    if Names(issues, i) {
      var u :| u in issues && i == Issue(u.code, None, "", 0, NoSubject);
      assert u.code in codes;
      var n :| 0 <= n < |codes| && codes[n] == u.code;
      assert CodeIssues(codes)[n] == i;
    }
  }

  /** A leftover that cannot be located is named with its first key and why. */
  ghost predicate Unlocated(inp: PlanInput, i: Issue) {
    exists r :: r in inp.snapshot.rules && Leftover(inp, r) && !Located(inp, r) && UnlocatedIssue(inp.cloudType, r, i)
  }

  ghost predicate UnlocatedIssue(ct: CloudType, r: RuleInfo, i: Issue) {
    SnapshotRuleKeys(r).Some? && SnapshotRuleKeys(r).value != []
    && i == Issue(if ct == TCLighthouse then OwnedKeyAmbiguous else OwnedLocatorMissing, Some(SnapshotRuleKeys(r).value[0]), "", 0, Described(r))
  }

  /** Why something stays: nothing is wanted, DNS fell short, a wish cannot be expressed, a conflict, missing
      coverage, or a leftover that cannot be located. */
  ghost predicate Deferring(inp: PlanInput, i: Issue) {
    var p := PlanSpec(inp);
    || ((forall k :: !Asked(inp, k)) && i == Issue(DesiredEmpty, None, "", 0, NoSubject))
    || (p.dnsErrors != [] && i == Issue(DNSFailed, None, "", 0, Counts(|p.dnsErrors|)))
    || Names(p.unsupported, i) || Names(p.conflicts, i)
    || (!Ready(inp) && i == Issue(CoverageNotReady, None, "", 0, NoSubject))
    || Unlocated(inp, i)
  }

  lemma {:induction false} LocatorsNamed(inp: PlanInput, cs: seq<RuleInfo>, i: Issue)
    requires forall r :: r in cs ==> r in inp.snapshot.rules && SnapshotRuleKeys(r).Some? && IsOwned(r.description, inp.tag)
    ensures i in LocatorIssues(inp, cs) <==> exists r :: r in cs && !Located(inp, r) && UnlocatedIssue(inp.cloudType, r, i)
  {
    hide SnapshotRuleKeys, Described, Located, IsOwned;
    if cs != [] {
      var init, last := cs[..|cs| - 1], cs[|cs| - 1];
      assert forall r :: r in cs <==> r in init || r == last;
      LocatorsNamed(inp, init, i);
      LocatedExactly(inp, last);
      SnapshotKeysShape(last);
      ProblemCode(inp, last);
      hide LocatorProblem;
      InConcat(LocatorIssues(inp, init), LocatorIssues(inp, cs)[|LocatorIssues(inp, init)|..], i);
    }
  }

  lemma ProblemCode(inp: PlanInput, r: RuleInfo)
    ensures var problem := LocatorProblem(inp.cloudType, inp.snapshot.rules, inp.tag, r);
            problem.Some? ==> problem.value == if inp.cloudType == TCLighthouse then OwnedKeyAmbiguous else OwnedLocatorMissing
  {
    hide SnapshotRuleKeys, Trim, ParseInt64, Holders;
  }

  lemma GateNamed(desired: seq<PlannedRule>, dnsErrors: seq<Issue>, unsupported: seq<Issue>, conflicts: seq<Issue>, ready: bool, i: Issue)
    ensures i in GateIssues(desired, dnsErrors, unsupported, conflicts, ready)
            <==> || (desired == [] && i == Issue(DesiredEmpty, None, "", 0, NoSubject))
                 || (dnsErrors != [] && i == Issue(DNSFailed, None, "", 0, Counts(|dnsErrors|)))
                 || Names(unsupported, i) || Names(conflicts, i)
                 || (!ready && i == Issue(CoverageNotReady, None, "", 0, NoSubject))
  {
    hide DistinctCodes, CodeIssues, Names;
    CodesNamed(unsupported, i);
    CodesNamed(conflicts, i);
    var first := if desired == [] then [Issue(DesiredEmpty, None, "", 0, NoSubject)] else [];
    var second := if dnsErrors != [] then [Issue(DNSFailed, None, "", 0, Counts(|dnsErrors|))] else [];
    var (u, c) := (CodeIssues(DistinctCodes(unsupported)), CodeIssues(DistinctCodes(conflicts)));
    InConcat(first, second, i);
    InConcat(first + second, u, i);
    InConcat(first + second + u, c, i);
    InConcat(first + second + u + c, if !ready then [Issue(CoverageNotReady, None, "", 0, NoSubject)] else [], i);
  }

  lemma SameNames(a: seq<Issue>, b: seq<Issue>, i: Issue)
    requires forall u :: u in a <==> u in b
    ensures Names(a, i) <==> Names(b, i)
  {
  }

  lemma SortedIssues(us: seq<Issue>, i: Issue)
    ensures |Sort(IssueLe, us)| == |us| && (i in Sort(IssueLe, us) <==> i in us) && (Names(Sort(IssueLe, us), i) <==> Names(us, i))
  {
    hide Sort, Names;
    SortedElements(IssueLe, us);
    SameNames(Sort(IssueLe, us), us, i);
    assert |multiset(Sort(IssueLe, us))| == |multiset(us)|;
  }

  lemma CandidatesAreLeftovers(inp: PlanInput, r: RuleInfo)
    ensures r in CandidatesOf(inp.snapshot.rules, inp.tag, DesiredKeys(DesiredOf(inp))) <==> r in inp.snapshot.rules && Leftover(inp, r)
  {
    hide SnapshotRuleKeys, IsOwned, DesiredOf, Asked, CandidatesOf;
    CandidatesExact(inp.snapshot.rules, inp.tag, DesiredKeys(DesiredOf(inp)), r);
    forall k ensures k in DesiredKeys(DesiredOf(inp)) <==> Asked(inp, k) { WantedIsAsked(inp, k); }
    if SnapshotRuleKeys(r).Some? { SnapshotKeysShape(r); }
  }

  /** Everything a plan gives as a reason for keeping rules, and nothing else. */
  lemma DeferralsSay(inp: PlanInput, i: Issue)
    ensures i in PlanSpec(inp).cleanupDeferred <==> Deferring(inp, i)
  {
    hide DesiredOf, AllDNSIssues, CoverageReadyOf, AllItems, Fold, MergedOf, GateIssues, CandidatesOf, Locatable, LocatorIssues, ToAddOf, MatchesOf,
         Sort, ConflictsOf, Names, Located, Leftover, Ready, Asked, SortedRules, UnlocatedIssue;
    var (ds, rules) := (DesiredOf(inp), inp.snapshot.rules);
    var (dns, us, cs) := (AllDNSIssues(inp, SortedRules(inp)), MergedOf(inp).unsupported, ConflictsOf(inp));
    var candidates := CandidatesOf(rules, inp.tag, DesiredKeys(ds));
    var gate := GateIssues(ds, dns, us, cs, CoverageReadyOf(inp, ds));
    SortedIssues(gate + LocatorIssues(inp, candidates), i);
    SortedIssues(dns, i);
    SortedIssues(us, i);
    SortedIssues(cs, i);
    InConcat(gate, LocatorIssues(inp, candidates), i);
    GateNamed(ds, dns, us, cs, CoverageReadyOf(inp, ds), i);
    NothingWanted(inp);
    ReadyExactly(inp);
    forall r ensures r in candidates <==> r in rules && Leftover(inp, r) { CandidatesAreLeftovers(inp, r); }
    assert forall r :: r in candidates ==> SnapshotRuleKeys(r).Some? && IsOwned(r.description, inp.tag) by { LeftoversAreOwned(inp, candidates); }
    LocatorsNamed(inp, candidates, i);
  }

  lemma LeftoversAreOwned(inp: PlanInput, cs: seq<RuleInfo>)
    requires forall r :: r in cs ==> Leftover(inp, r)
    ensures forall r :: r in cs ==> SnapshotRuleKeys(r).Some? && IsOwned(r.description, inp.tag)
  {
    hide SnapshotRuleKeys, IsOwned, Asked;
  }
}
