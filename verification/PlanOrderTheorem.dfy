/** The order-independence theorem, assembled from expectations (`PlanOrder`) and snapshot facts. */
module PlanOrderTheorem {
  import opened Text
  import opened Tag
  import opened Keys
  import opened Plan
  import opened PlanFacts
  import opened PlanTheorems
  import opened PlanOrder

  // ------------------------------------------------------------------- DNS issues

  function BadAddress(): ResolvedIP -> nat { (ip: ResolvedIP) => if ip.prefix.None? then 1 else 0 }

  lemma {:induction false} AddressesIssuesCount(r: DomainRule, ips: seq<ResolvedIP>, x: Issue)
    ensures multiset(AddressesIssues(r, ips))[x]
            == if x == Issue(DNSFailed, None, r.host, r.id, NoSubject) then Total(BadAddress(), ips) else 0
  {
    if ips != [] { AddressesIssuesCount(r, ips[..|ips| - 1], x); }
  }

  lemma {:induction false} DNSIssuesForgetOrder(a: PlanInput, b: PlanInput, rules: seq<DomainRule>)
    requires SameUpToOrder(a, b)
    ensures multiset(AllDNSIssues(a, rules)) == multiset(AllDNSIssues(b, rules))
  {
    hide AddressesIssues, Trim;
    if rules != [] {
      var r := rules[|rules| - 1];
      DNSIssuesForgetOrder(a, b, rules[..|rules| - 1]);
      var x, y := ResolvedOf(a, r), ResolvedOf(b, r);
      SameLength(x, y);
      TotalOfPermutation(BadAddress(), x, y);
      forall i ensures multiset(AddressesIssues(r, x))[i] == multiset(AddressesIssues(r, y))[i] {
        AddressesIssuesCount(r, x, i);
        AddressesIssuesCount(r, y, i);
      }
      assert multiset(RuleIssues(a, r)) == multiset(RuleIssues(b, r));
    }
  }

  // ----------------------------------------------------------- unsupported issues

  function IssueFor(it: Item): Issue
    requires it.reason.Some?
  {
    Issue(it.reason.value, Some(it.key), it.rule.host, it.rule.id, NoSubject)
  }

  ghost predicate TextSeparates(items: seq<Item>) {
    forall x, y :: x in items && y in items && KeyString(x.key) == KeyString(y.key) ==> x.key == y.key
  }

  ghost predicate ReasonByKey(items: seq<Item>) {
    forall x, y :: x in items && y in items && x.key == y.key ==> x.reason == y.reason
  }

  ghost predicate Reported(items: seq<Item>, u: Issue) {
    && u.key.Some? && HasItem(items, u.key.value)
    && FirstItem(items, u.key.value).reason.Some? && u == IssueFor(FirstItem(items, u.key.value))
  }

  /** One issue per key that cannot be met, naming the first rule that wants it. */
  lemma {:induction false} NotedIssues(items: seq<Item>)
    requires TextSeparates(items) && ReasonByKey(items)
    ensures ReportsOf(items, Fold(NOTHING, items).unsupported)
  {
    if items == [] {
      assert forall u :: !Reported(items, u);
    } else {
      hide Reported, KeyString, Note, Merge, ReportsOf;
      var init, it := items[..|items| - 1], items[|items| - 1];
      assert items == init + [it];
      assert forall x :: x in init ==> x in items;
      NotedIssues(init);
      OneMoreReport(init, it, Fold(NOTHING, init).unsupported);
    }
  }

  ghost predicate ReportsOf(items: seq<Item>, us: seq<Issue>) {
    Distinct(us) && forall u :: u in us <==> Reported(items, u)
  }

  lemma OneMoreReport(init: seq<Item>, it: Item, us: seq<Issue>)
    requires TextSeparates(init + [it]) && ReasonByKey(init + [it])
    requires ReportsOf(init, us)
    ensures ReportsOf(init + [it], Note(us, it))
  {
    hide TextSeparates, ReasonByKey, HasItem, Note, Noted, Reported;
    forall u ensures Reported(init + [it], u)
                     <==> Reported(init, u) || (!HasItem(init, it.key) && it.reason.Some? && u == IssueFor(it))
    {
      ReportedStep(init, it, u);
    }
    if it.reason.Some? { NotedMeansSeen(init, it, us); }
    NoteStep(init, it, us);
  }

  lemma ReportedStep(init: seq<Item>, it: Item, u: Issue)
    ensures Reported(init + [it], u)
            <==> Reported(init, u) || (!HasItem(init, it.key) && it.reason.Some? && u == IssueFor(it))
  {
    if u.key.Some? {
      FirstItemOfConcat(init, [it], u.key.value);
      assert HasItem([it], it.key) by { assert it in [it]; }
      assert HasItem([it], u.key.value) ==> u.key.value == it.key && FirstItem([it], it.key) == it;
      if HasItem(init, u.key.value) { FirstItemIsThere(init, u.key.value); }
    }
  }

  lemma NotedMeansSeen(init: seq<Item>, it: Item, us: seq<Issue>)
    requires it.reason.Some? && TextSeparates(init + [it]) && ReasonByKey(init + [it])
    requires forall u :: u in us <==> Reported(init, u)
    ensures Noted(us, it.reason.value, it.key) <==> HasItem(init, it.key)
  {
    hide KeyString;
    assert it in init + [it] && forall x :: x in init ==> x in init + [it];
    if Noted(us, it.reason.value, it.key) {
      var u :| u in us && u.code == it.reason.value && IssueKeyText(u) == KeyString(it.key);
      assert Reported(init, u);
      FirstItemIsThere(init, u.key.value);
      assert FirstItem(init, u.key.value).key == it.key;
    }
    if HasItem(init, it.key) {
      FirstItemIsThere(init, it.key);
      var first := FirstItem(init, it.key);
      assert first.reason == it.reason;
      assert IssueFor(first) in us;
      assert IssueKeyText(IssueFor(first)) == KeyString(it.key);
    }
  }

  lemma NoteStep(init: seq<Item>, it: Item, us: seq<Issue>)
    requires Distinct(us) && forall u :: u in us <==> Reported(init, u)
    requires it.reason.Some? ==> (Noted(us, it.reason.value, it.key) <==> HasItem(init, it.key))
    ensures Distinct(Note(us, it))
    ensures forall u :: u in Note(us, it)
              <==> Reported(init, u) || (!HasItem(init, it.key) && it.reason.Some? && u == IssueFor(it))
  {
    hide Noted, HasItem, FirstItem;
    if it.reason.Some? && !HasItem(init, it.key) {
      assert !Reported(init, IssueFor(it));
      assert IssueFor(it) !in us;
    }
  }

  lemma ItemsSeparate(inp: PlanInput)
    requires Clean(inp)
    ensures TextSeparates(AllItems(inp, SortedRules(inp))) && ReasonByKey(AllItems(inp, SortedRules(inp)))
  {
    hide KeyString, AllItems, Clean;
    var items := AllItems(inp, SortedRules(inp));
    forall x, y | x in items && y in items && KeyString(x.key) == KeyString(y.key) ensures x.key == y.key {
      KeyTextSeparates(inp, x, y);
    }
    AllItemsWellMade(inp, SortedRules(inp));
    assert forall x :: x in items ==> WellMade(inp.cloudType, x);
    forall x, y | x in items && y in items && x.key == y.key ensures x.reason == y.reason {
      WellMadeReason(inp.cloudType, x);
      WellMadeReason(inp.cloudType, y);
    }
  }

  lemma WellMadeReason(ct: CloudType, it: Item)
    requires WellMade(ct, it)
    ensures it.reason == UnsupportedReason(Capabilities(ct), it.key.family, it.key.protocol, it.key.action)
  {
  }

  lemma UnsupportedForgetsOrder(a: PlanInput, b: PlanInput)
    requires SameUpToOrder(a, b) && Clean(a) && Clean(b)
    ensures multiset(MergedOf(a).unsupported) == multiset(MergedOf(b).unsupported)
  {
    hide AllItems, Clean, SameUpToOrder, Fold, TextSeparates, ReasonByKey;
    CleanHasIDs(a);
    RulesForgetOrder(a, b);
    var rules := SortedRules(a);
    ItemsSeparate(a);
    ItemsSeparate(b);
    var x, y := AllItems(a, rules), AllItems(b, rules);
    NotedIssues(x);
    NotedIssues(y);
    var us, vs := MergedOf(a).unsupported, MergedOf(b).unsupported;
    forall u ensures u in us <==> u in vs {
      if u.key.Some? { EntriesForgetOrder(a, b, rules, u.key.value); }
    }
    DistinctPermutation(us, vs);
  }

  // ------------------------------------------------------------------ the snapshot

  function HoldCount(tag: string, owned: bool, k: Key): RuleInfo -> nat {
    (r: RuleInfo) => if IsOwned(r.description, tag) == owned then |Copies(KeysOf(r), k, r)| else 0
  }

  lemma {:induction false} HoldersTotal(rules: seq<RuleInfo>, tag: string, owned: bool, k: Key)
    ensures |Holders(rules, tag, owned, k)| == Total(HoldCount(tag, owned, k), rules)
  {
    hide KeysOf, IsOwned;
    if rules != [] { HoldersTotal(rules[..|rules| - 1], tag, owned, k); }
  }

  lemma HoldersForgetOrder(x: seq<RuleInfo>, y: seq<RuleInfo>, tag: string, owned: bool, k: Key)
    requires multiset(x) == multiset(y)
    ensures |Holders(x, tag, owned, k)| == |Holders(y, tag, owned, k)|
  {
    HoldersTotal(x, tag, owned, k);
    HoldersTotal(y, tag, owned, k);
    TotalOfPermutation(HoldCount(tag, owned, k), x, y);
  }

  lemma LocatorForgetsOrder(ct: CloudType, x: seq<RuleInfo>, y: seq<RuleInfo>, tag: string, r: RuleInfo)
    requires multiset(x) == multiset(y)
    ensures LocatorProblem(ct, x, tag, r) == LocatorProblem(ct, y, tag, r)
  {
    hide KeysOf, Holders, ParseInt64, Trim;
    forall k, owned ensures |Holders(x, tag, owned, k)| == |Holders(y, tag, owned, k)| {
      HoldersForgetOrder(x, y, tag, owned, k);
    }
  }

  lemma CoversForgetsOrder(x: seq<RuleInfo>, y: seq<RuleInfo>)
    requires multiset(x) == multiset(y)
    ensures forall k :: Covers(x, k) <==> Covers(y, k)
    ensures forall t :: Opposed(x, t) <==> Opposed(y, t)
  {
    hide KeysOf, TupleOf;
    SameElements(x, y);
  }

  lemma {:induction false} ToAddSame(x: seq<RuleInfo>, y: seq<RuleInfo>, ds: seq<PlannedRule>)
    requires forall k :: Covers(x, k) <==> Covers(y, k)
    ensures ToAddOf(x, ds) == ToAddOf(y, ds)
  {
    hide Covers;
    if ds != [] { ToAddSame(x, y, ds[..|ds| - 1]); }
  }

  function IsInvalidIssue(x: Issue): RuleInfo -> nat {
    (r: RuleInfo) => if !Judged(r) && InvalidIssue(r) == x then 1 else 0
  }

  lemma {:induction false} InvalidCount(rules: seq<RuleInfo>, x: Issue)
    ensures multiset(InvalidIssues(rules))[x] == Total(IsInvalidIssue(x), rules)
  {
    hide Judged, InvalidIssue;
    if rules != [] { InvalidCount(rules[..|rules| - 1], x); }
  }

  lemma {:induction false} KeyTuplesDistinct(seen: seq<string>, keys: seq<Key>)
    requires Distinct(seen)
    ensures Distinct(KeyTuples(seen, keys))
  {
    hide TupleOf;
    if keys != [] { KeyTuplesDistinct(seen, keys[..|keys| - 1]); }
  }

  lemma {:induction false} TuplesDistinct(rules: seq<RuleInfo>)
    ensures Distinct(Tuples(rules))
  {
    hide KeysOf, KeyTuples;
    if rules != [] {
      TuplesDistinct(rules[..|rules| - 1]);
      KeyTuplesDistinct(Tuples(rules[..|rules| - 1]), KeysOf(rules[|rules| - 1]));
    }
  }

  lemma {:induction false} OpposedIssuesSame(x: seq<RuleInfo>, y: seq<RuleInfo>, tuples: seq<string>)
    requires forall t :: Opposed(x, t) <==> Opposed(y, t)
    ensures OpposedIssues(x, tuples) == OpposedIssues(y, tuples)
  {
    hide Opposed;
    if tuples != [] { OpposedIssuesSame(x, y, tuples[..|tuples| - 1]); }
  }

  lemma TuplesForgetOrder(x: seq<RuleInfo>, y: seq<RuleInfo>)
    requires multiset(x) == multiset(y)
    ensures Sort(StringLe, Tuples(x)) == Sort(StringLe, Tuples(y))
  {
    hide KeysOf, Tuples, TupleOf, StringLe;
    SameElements(x, y);
    TuplesDistinct(x);
    TuplesDistinct(y);
    forall t ensures t in Tuples(x) <==> t in Tuples(y) {
      TuplesExact(x, t);
      TuplesExact(y, t);
    }
    DistinctPermutation(Tuples(x), Tuples(y));
    StringLeIsTotalOrder();
    SortForgetsOrder(StringLe, Tuples(x), Tuples(y));
  }

  lemma ConflictsForgetOrder(a: PlanInput, b: PlanInput)
    requires SameUpToOrder(a, b)
    ensures multiset(ConflictsOf(a)) == multiset(ConflictsOf(b))
  {
    hide Tuples, Opposed, InvalidIssues, OpposedIssues, Trim, Sort;
    var x, y := a.snapshot.rules, b.snapshot.rules;
    TuplesForgetOrder(x, y);
    CoversForgetsOrder(x, y);
    OpposedIssuesSame(x, y, Sort(StringLe, Tuples(x)));
    forall i ensures multiset(InvalidIssues(x))[i] == multiset(InvalidIssues(y))[i] {
      InvalidCount(x, i);
      InvalidCount(y, i);
      TotalOfPermutation(IsInvalidIssue(i), x, y);
    }
    assert multiset(InvalidIssues(x)) == multiset(InvalidIssues(y));
    assert RevisionIssues(a) == RevisionIssues(b);
  }

  // ---------------------------------------------------------------------- the gate

  lemma {:induction false} CodesSeenExact(issues: seq<Issue>, c: IssueCode)
    ensures Distinct(CodesSeen([], issues))
    ensures c in CodesSeen([], issues) <==> exists i :: i in issues && i.code == c
  {
    if issues != [] {
      var init, last := issues[..|issues| - 1], issues[|issues| - 1];
      assert forall i :: i in issues <==> i in init || i == last;
      CodesSeenExact(init, c);
    }
  }

  lemma CodeLeIsTotalOrder()
    ensures TotalPreorder(CodeLe)
    ensures forall x, y :: CodeLe(x, y) && CodeLe(y, x) ==> x == y
  {
    hide StringLe, CodeName;
    StringLeIsTotalOrder();
    forall x, y ensures CodeLe(x, y) || CodeLe(y, x) { StringLeTotal(CodeName(x), CodeName(y)); }
    forall x, y, z | CodeLe(x, y) && CodeLe(y, z) ensures CodeLe(x, z) {
      StringLeTransitive(CodeName(x), CodeName(y), CodeName(z));
    }
    forall x, y | CodeLe(x, y) && CodeLe(y, x) ensures x == y {
      StringLeAntisymmetric(CodeName(x), CodeName(y));
      CodeNamesDiffer(x, y);
    }
  }

  lemma CodeNamesDiffer(x: IssueCode, y: IssueCode)
    requires CodeName(x) == CodeName(y)
    ensures x == y
  {
    assert |CodeName(x)| == |CodeName(y)|;
    assert CodeName(x)[4] == CodeName(y)[4] && CodeName(x)[|CodeName(x)| - 1] == CodeName(y)[|CodeName(y)| - 1];
  }

  lemma DistinctCodesForgetOrder(x: seq<Issue>, y: seq<Issue>)
    requires multiset(x) == multiset(y)
    ensures DistinctCodes(x) == DistinctCodes(y)
  {
    hide CodesSeen, CodeLe;
    SameElements(x, y);
    forall c ensures c in CodesSeen([], x) <==> c in CodesSeen([], y) {
      CodesSeenExact(x, c);
      CodesSeenExact(y, c);
    }
    CodesSeenExact(x, DNSFailed);
    CodesSeenExact(y, DNSFailed);
    DistinctPermutation(CodesSeen([], x), CodesSeen([], y));
    CodeLeIsTotalOrder();
    SortForgetsOrder(CodeLe, CodesSeen([], x), CodesSeen([], y));
  }

  /** The gate of an input, as the plan builds it. */
  function GateOf(inp: PlanInput): seq<Issue> {
    GateIssues(DesiredOf(inp), AllDNSIssues(inp, SortedRules(inp)), MergedOf(inp).unsupported,
               ConflictsOf(inp), CoverageReadyOf(inp, DesiredOf(inp)))
  }

  lemma ReadyForgetsOrder(a: PlanInput, b: PlanInput, ds: seq<PlannedRule>)
    requires SameUpToOrder(a, b)
    ensures CoverageReadyOf(a, ds) <==> CoverageReadyOf(b, ds)
  {
    hide Covers;
    CoversForgetsOrder(a.snapshot.rules, b.snapshot.rules);
  }

  lemma GateForgetsOrder(a: PlanInput, b: PlanInput)
    requires SameUpToOrder(a, b) && Clean(a) && Clean(b)
    ensures GateOf(a) == GateOf(b)
  {
    hide DesiredOf, AllDNSIssues, ConflictsOf, CoverageReadyOf, Fold, AllItems, DistinctCodes, SameUpToOrder, Clean;
    DesiredForgetsOrder(a, b);
    CleanHasIDs(a);
    RulesForgetOrder(a, b);
    DNSIssuesForgetOrder(a, b, SortedRules(a));
    SameLength(AllDNSIssues(a, SortedRules(a)), AllDNSIssues(b, SortedRules(b)));
    UnsupportedForgetsOrder(a, b);
    ConflictsForgetOrder(a, b);
    DistinctCodesForgetOrder(MergedOf(a).unsupported, MergedOf(b).unsupported);
    DistinctCodesForgetOrder(ConflictsOf(a), ConflictsOf(b));
    ReadyForgetsOrder(a, b, DesiredOf(a));
  }

  // ---------------------------------------------------------- candidates and issues

  function LocatorIssueOf(ct: CloudType, rules: seq<RuleInfo>, tag: string, r: RuleInfo): Option<Issue> {
    match LocatorProblem(ct, rules, tag, r)
    case None => None
    case Some(code) => Some(LocatorIssue(code, r))
  }

  function IsLocatorIssue(ct: CloudType, rules: seq<RuleInfo>, tag: string, x: Issue): RuleInfo -> nat {
    (r: RuleInfo) => if LocatorIssueOf(ct, rules, tag, r) == Some(x) then 1 else 0
  }

  lemma {:induction false} LocatorIssuesCount(inp: PlanInput, cs: seq<RuleInfo>, x: Issue)
    ensures multiset(LocatorIssues(inp, cs))[x]
            == Total(IsLocatorIssue(inp.cloudType, inp.snapshot.rules, inp.tag, x), cs)
  {
    hide LocatorProblem, KeysOf;
    if cs != [] { LocatorIssuesCount(inp, cs[..|cs| - 1], x); }
  }

  lemma {:induction false} TotalOfSame<T>(f: T -> nat, g: T -> nat, s: seq<T>)
    requires forall x :: x in s ==> f(x) == g(x)
    ensures Total(f, s) == Total(g, s)
  {
    if s != [] { TotalOfSame(f, g, s[..|s| - 1]); }
  }

  lemma LocatorIssuesForgetOrder(a: PlanInput, b: PlanInput, cs: seq<RuleInfo>, ds: seq<RuleInfo>)
    requires SameUpToOrder(a, b) && multiset(cs) == multiset(ds)
    ensures multiset(LocatorIssues(a, cs)) == multiset(LocatorIssues(b, ds))
  {
    hide LocatorProblem, LocatorIssues, KeysOf;
    forall x ensures multiset(LocatorIssues(a, cs))[x] == multiset(LocatorIssues(b, ds))[x] {
      var f := IsLocatorIssue(a.cloudType, a.snapshot.rules, a.tag, x);
      var g := IsLocatorIssue(b.cloudType, b.snapshot.rules, b.tag, x);
      LocatorIssuesCount(a, cs, x);
      LocatorIssuesCount(b, ds, x);
      forall r | r in cs ensures f(r) == g(r) {
        LocatorForgetsOrder(a.cloudType, a.snapshot.rules, b.snapshot.rules, a.tag, r);
      }
      TotalOfSame(f, g, cs);
      TotalOfPermutation(g, cs, ds);
    }
  }

  lemma CandidatesForgetOrder(a: PlanInput, b: PlanInput, keys: set<Key>)
    requires SameUpToOrder(a, b)
    ensures multiset(CandidatesOf(a.snapshot.rules, a.tag, keys)) == multiset(CandidatesOf(b.snapshot.rules, b.tag, keys))
  {
    hide CandidatesOf, IsCandidate;
    var cs, ds := CandidatesOf(a.snapshot.rules, a.tag, keys), CandidatesOf(b.snapshot.rules, b.tag, keys);
    forall r ensures multiset(cs)[r] == multiset(ds)[r] {
      CandidatesExact(a.snapshot.rules, a.tag, keys, r);
      CandidatesExact(b.snapshot.rules, b.tag, keys, r);
    }
  }

  lemma LocatableForgetsOrder(a: PlanInput, b: PlanInput, cs: seq<RuleInfo>, ds: seq<RuleInfo>)
    requires SameUpToOrder(a, b) && multiset(cs) == multiset(ds)
    ensures multiset(Locatable(a, cs)) == multiset(Locatable(b, ds))
  {
    hide LocatorProblem, Locatable;
    forall r ensures multiset(Locatable(a, cs))[r] == multiset(Locatable(b, ds))[r] {
      LocatableExact(a, cs, r);
      LocatableExact(b, ds, r);
      LocatorForgetsOrder(a.cloudType, a.snapshot.rules, b.snapshot.rules, a.tag, r);
    }
  }

  /** Permuting rules, resolved addresses or snapshot entries changes nothing that matters: the same
      expectations, the same additions, the same coverage verdict, and the same candidates, deletable
      rules and issues up to order. */
  lemma PlanForgetsOrder(a: PlanInput, b: PlanInput)
    requires SameUpToOrder(a, b) && Clean(a) && Clean(b)
    ensures var p, q := PlanSpec(a), PlanSpec(b);
            && p.desired == q.desired && p.toAdd == q.toAdd && p.coverageReady == q.coverageReady
            && multiset(p.cleanupCandidates) == multiset(q.cleanupCandidates)
            && multiset(p.cleanupDeletable) == multiset(q.cleanupDeletable)
            && multiset(p.cleanupDeferred) == multiset(q.cleanupDeferred)
            && multiset(p.dnsErrors) == multiset(q.dnsErrors)
            && multiset(p.unsupported) == multiset(q.unsupported)
            && multiset(p.conflicts) == multiset(q.conflicts)
  {
    hide DesiredOf, AllDNSIssues, ConflictsOf, CoverageReadyOf, AllItems, SameUpToOrder, Clean, Fold,
         GateIssues, CandidatesOf, Locatable, LocatorIssues, ToAddOf, MatchesOf, DesiredKeys, Sort;
    DesiredForgetsOrder(a, b);
    GateForgetsOrder(a, b);
    CleanHasIDs(a);
    RulesForgetOrder(a, b);
    DNSIssuesForgetOrder(a, b, SortedRules(a));
    UnsupportedForgetsOrder(a, b);
    ConflictsForgetOrder(a, b);
    ReadyForgetsOrder(a, b, DesiredOf(a));
    SnapshotsAgree(a, b);
    ToAddSame(a.snapshot.rules, b.snapshot.rules, DesiredOf(a));
    var keys := DesiredKeys(DesiredOf(a));
    CandidatesForgetOrder(a, b, keys);
    var cs, ds := CandidatesOf(a.snapshot.rules, a.tag, keys), CandidatesOf(b.snapshot.rules, b.tag, keys);
    LocatableForgetsOrder(a, b, cs, ds);
    LocatorIssuesForgetOrder(a, b, cs, ds);
    SortsAgree(GateOf(a) + LocatorIssues(a, cs), GateOf(b) + LocatorIssues(b, ds));
    SortsAgree(AllDNSIssues(a, SortedRules(a)), AllDNSIssues(b, SortedRules(b)));
    SortsAgree(MergedOf(a).unsupported, MergedOf(b).unsupported);
    SortsAgree(ConflictsOf(a), ConflictsOf(b));
  }

  lemma SortsAgree(x: seq<Issue>, y: seq<Issue>)
    requires multiset(x) == multiset(y)
    ensures multiset(Sort(IssueLe, x)) == multiset(Sort(IssueLe, y))
  {
    hide Sort, IssueLe;
    SortKeeps(IssueLe, x);
    SortKeeps(IssueLe, y);
  }

  lemma SnapshotsAgree(a: PlanInput, b: PlanInput)
    requires SameUpToOrder(a, b)
    ensures forall k :: Covers(a.snapshot.rules, k) <==> Covers(b.snapshot.rules, k)
  {
    hide Covers;
    CoversForgetsOrder(a.snapshot.rules, b.snapshot.rules);
  }
}
