/** What the planner guarantees: nothing present is added again, only stale rules of the own TAG are
    deletable, and deleting them by any platform's addressing hits exactly them. */
module PlanTheorems {
  import opened Text
  import opened Tag
  import opened Ports
  import opened Keys
  import opened Plan
  import opened PlanFacts
  import opened Validate

  // ------------------------------------------------------------------ additions

  lemma {:induction false} ToAddExact(rules: seq<RuleInfo>, ds: seq<PlannedRule>, a: RuleAction)
    ensures a in ToAddOf(rules, ds)
            <==> exists d :: d in ds && d.implementable && !Covers(rules, d.key) && d.action == a
  {
    hide Covers;
    if ds != [] {
      var init, last := ds[..|ds| - 1], ds[|ds| - 1];
      assert forall d :: d in ds <==> d in init || d == last;
      ToAddExact(rules, init, a);
    }
  }

  lemma SlashShape(p: string)
    requires p != "" && Trimmed(p) && ',' !in p
    ensures var w := ToSlash(p); w != "" && Trimmed(w) && ',' !in w
  {
    hide EqualFold;
  }

  lemma WireItemShape(ct: CloudType, proto: string, item: string)
    requires item != "" && Trimmed(item) && ',' !in item
    ensures var w := WireItem(ct, proto, item); w != "" && Trimmed(w) && ',' !in w
  {
    hide EqualFold, PortedProtocol, Trim, ToSlash, Trimmed;
    TrimOfTrimmed(item);
    PlainIsFixed("1-65535");
    PlainIsFixed("ALL");
    SlashShape(item);
    SlashShape("1-65535");
    SlashShape("ALL");
  }

  /** Splitting a port field that is one clean part gives back that part. */
  lemma OnePartField(p: string)
    requires p != "" && Trimmed(p) && ',' !in p
    ensures SplitPortFieldSpec(p) == [p]
  {
    IndexOfNone(p, ',');
    TrimOfTrimmed(p);
    var parts := Split(p, ',');
    assert parts == [p];
    assert parts[..0] == [];
    assert DistinctParts(parts) == [p];
    assert [p][..0] == [];
    assert Sort(StringLe, [p]) == Insert(StringLe, p, Sort(StringLe, []));
  }

  lemma BlankField(ports: string)
    requires Trimmed(ports) && ports != "" && ParseSpec(ports) == []
    ensures SplitPortFieldSpec(ports) == []
  {
    hide EqualFold, Trim;
    TrimOfTrimmed(ports);
    NoPartsEitherWay(Split(ports, ','));
  }

  lemma EmptyField()
    ensures SplitPortFieldSpec("") == []
  {
    assert Split("", ',') == [""];
    assert [""][..0] == [];
    assert DistinctParts([""]) == [];
  }

  lemma {:induction false} NoPartsEitherWay(parts: seq<string>)
    requires NonBlankParts(parts) == []
    ensures DistinctParts(parts) == []
  {
    hide Trim;
    if parts != [] { NoPartsEitherWay(parts[..|parts| - 1]); }
  }

  lemma SingleKey(family: Family, cidr: string, proto: string, port: string, act: string)
    ensures SortedPortKeys(family, cidr, proto, [port], act) == [Key(family, cidr, proto, CanonicalPort(proto, port), act)]
  {
    var keys := SortedPortKeys(family, cidr, proto, [port], act);
    assert keys[0] in keys;
  }

  lemma ItemProtocol(ct: CloudType, r: DomainRule, proto: string)
    requires Normal(r) && proto in ProtocolsOf(ct, r)
    ensures proto in {"TCP", "UDP", "TCP+UDP", "ICMP"} && CanonicalProtocol(proto) == proto
    ensures r.protocol == "ICMP" <==> proto == "ICMP"
    ensures proto == "TCP+UDP" ==> ct == AliSWAS
  {
    hide Upper, Trim;
    NormalWordsAreFixed(r);
    PlainIsFixed(proto);
    PlainIsFixed("TCP+UDP");
  }

  /** The action of an item holds its own key and nothing else, exactly when its port list has an
      item at all; a list such as "," makes an expectation no rule can ever meet. */
  lemma ActionHoldsItsKey(ct: CloudType, it: Item, description: string)
    requires WellMade(ct, it) && Normal(it.rule)
    ensures var keys := PlannedActionKeys(it.action.(description := description));
            keys == if ParseSpec(it.rule.ports) == [] then [] else [it.key]
  {
    hide Trim, Upper, CanonicalPort, CanonicalProtocol, ParseSpec, WireItem, ProtocolsOf, SplitPortFieldSpec, RuleAddress, BuildKeysSpec;
    var a := it.action;
    var r := it.rule;
    ItemProtocol(ct, r, a.protocol);
    NormalWordsAreFixed(r);
    ActionWord(a.action);
    if ParseSpec(r.ports) == [] {
      NoItemsNoICMP(r);
      BlankField(r.ports);
      PortlessKeys(it.key.family, it.key.cidr, a.protocol, a.port, a.action);
    } else {
      var items := ParseSpec(r.ports);
      var wire := PlannedPortsSpec(ct, a.protocol, r.ports);
      var i :| 0 <= i < |wire| && wire[i] == a.port;
      ItemsAre(r.ports, items[i]);
      WireItemShape(ct, a.protocol, items[i]);
      OnePartField(a.port);
      OnePortKeys(it.key.family, it.key.cidr, a.protocol, a.port, a.action);
    }
  }

  lemma OnePortKeys(family: Family, cidr: string, protocol: string, port: string, action: string)
    requires SplitPortFieldSpec(port) == [port] && CanonicalProtocol(protocol) != ""
    requires Upper(Trim(action)) == action && (action == "ACCEPT" || action == "DROP")
    ensures BuildKeysSpec(family, cidr, protocol, port, action)
            == Some([Key(family, cidr, CanonicalProtocol(protocol), CanonicalPort(CanonicalProtocol(protocol), port), action)])
  {
    hide Trim, Upper, CanonicalPort, CanonicalProtocol, SplitPortFieldSpec;
    SingleKey(family, cidr, CanonicalProtocol(protocol), port, action);
  }

  lemma PortlessKeys(family: Family, cidr: string, protocol: string, port: string, action: string)
    requires SplitPortFieldSpec(port) == [] && CanonicalProtocol(protocol) !in {"ICMP", "ALL"}
    ensures BuildKeysSpec(family, cidr, protocol, port, action) == None
  {
    hide Trim, Upper, CanonicalProtocol, SplitPortFieldSpec;
  }

  lemma NoItemsNoICMP(r: DomainRule)
    requires Normal(r) && ParseSpec(r.ports) == []
    ensures r.protocol != "ICMP"
  {
    hide Upper, Trim, EqualFold;
    AllIsPlain();
  }

  lemma ActionWord(action: string)
    requires action in {"ACCEPT", "DROP"}
    ensures Upper(Trim(action)) == action
  {
    hide Upper, Trim;
    PlainIsFixed(action);
  }

  lemma PlanParts(inp: PlanInput)
    ensures PlanSpec(inp).desired == DesiredOf(inp)
    ensures PlanSpec(inp).toAdd == ToAddOf(inp.snapshot.rules, DesiredOf(inp))
    ensures PlanSpec(inp).coverageReady == CoverageReadyOf(inp, DesiredOf(inp))
    ensures PlanSpec(inp).cleanupCandidates
            == CandidatesOf(inp.snapshot.rules, inp.tag, DesiredKeys(DesiredOf(inp)))
  {
    hide DesiredOf, ToAddOf, CoverageReadyOf, CandidatesOf;
  }

  ghost predicate NormalInput(inp: PlanInput) {
    forall r :: r in inp.rules ==> Normal(r)
  }

  /** What is added is missing: no key of a planned addition is held by any rule of the snapshot, and
      every expectation that can be met and is missing is added. */
  lemma AdditionsAreMissingOnes(inp: PlanInput, a: RuleAction)
    requires NormalInput(inp)
    ensures a in PlanSpec(inp).toAdd ==> forall k :: k in PlannedActionKeys(a) ==> !Covers(inp.snapshot.rules, k)
    ensures a in PlanSpec(inp).toAdd
            <==> exists d :: d in DesiredOf(inp) && d.implementable && !Covers(inp.snapshot.rules, d.key) && d.action == a
  {
    hide Covers, DesiredOf, PlannedActionKeys, WellMade, AllItems, PlanSpec, Normal;
    PlanParts(inp);
    ToAddExact(inp.snapshot.rules, DesiredOf(inp), a);
    if a in PlanSpec(inp).toAdd {
      var d :| d in DesiredOf(inp) && d.implementable && !Covers(inp.snapshot.rules, d.key) && d.action == a;
      DesiredEntryFits(inp, d);
      var it :| it in AllItems(inp, SortedRules(inp)) && it.key == d.key && WellMade(inp.cloudType, it)
                && d.implementable == it.reason.None?
                && d.action == it.action.(description := d.description);
      AllItemsWellMade(inp, SortedRules(inp));
      SortedElements(RuleIDLe, inp.rules);
      ActionHoldsItsKey(inp.cloudType, it, d.description);
    }
  }

  // ------------------------------------------------------------------- removals

  lemma {:induction false} CandidatesExact(rules: seq<RuleInfo>, tag: string, keys: set<Key>, r: RuleInfo)
    ensures multiset(CandidatesOf(rules, tag, keys))[r] == if IsCandidate(tag, keys, r) then multiset(rules)[r] else 0
    ensures r in CandidatesOf(rules, tag, keys) <==> r in rules && IsCandidate(tag, keys, r)
  {
    hide IsCandidate;
    if rules != [] {
      var init, last := rules[..|rules| - 1], rules[|rules| - 1];
      assert rules == init + [last];
      CandidatesExact(init, tag, keys, r);
    }
  }

  lemma {:induction false} LocatableExact(inp: PlanInput, cs: seq<RuleInfo>, r: RuleInfo)
    ensures multiset(Locatable(inp, cs))[r]
            == if LocatorProblem(inp.cloudType, inp.snapshot.rules, inp.tag, r).None? then multiset(cs)[r] else 0
    ensures r in Locatable(inp, cs)
            <==> r in cs && LocatorProblem(inp.cloudType, inp.snapshot.rules, inp.tag, r).None?
  {
    hide LocatorProblem;
    if cs != [] {
      var init, last := cs[..|cs| - 1], cs[|cs| - 1];
      assert cs == init + [last];
      LocatableExact(inp, init, r);
    }
  }

  lemma {:induction false} InvalidExact(rules: seq<RuleInfo>)
    ensures InvalidIssues(rules) == [] <==> forall r :: r in rules ==> Judged(r)
  {
    hide Judged;
    if rules != [] {
      var init, last := rules[..|rules| - 1], rules[|rules| - 1];
      assert forall r :: r in rules <==> r in init || r == last;
      InvalidExact(init);
    }
  }

  lemma {:induction false} OpposedExact(rules: seq<RuleInfo>, tuples: seq<string>)
    ensures OpposedIssues(rules, tuples) == [] <==> forall t :: t in tuples ==> !Opposed(rules, t)
  {
    hide Opposed;
    if tuples != [] {
      var init, last := tuples[..|tuples| - 1], tuples[|tuples| - 1];
      assert forall t :: t in tuples <==> t in init || t == last;
      OpposedExact(rules, init);
    }
  }

  lemma {:induction false} KeyTuplesExact(seen: seq<string>, keys: seq<Key>, t: string)
    ensures t in KeyTuples(seen, keys) <==> t in seen || exists k :: k in keys && TupleOf(k) == t
  {
    hide TupleOf;
    if keys != [] {
      var init, last := keys[..|keys| - 1], keys[|keys| - 1];
      assert forall k :: k in keys <==> k in init || k == last;
      KeyTuplesExact(seen, init, t);
    }
  }

  lemma {:induction false} TuplesExact(rules: seq<RuleInfo>, t: string)
    ensures t in Tuples(rules) <==> exists r :: r in rules && exists k :: k in KeysOf(r) && TupleOf(k) == t
  {
    hide TupleOf, KeysOf;
    if rules != [] {
      var init, last := rules[..|rules| - 1], rules[|rules| - 1];
      assert forall r :: r in rules <==> r in init || r == last;
      TuplesExact(init, t);
      KeyTuplesExact(Tuples(init), KeysOf(last), t);
    }
  }

  /** Two rules contradict each other: same family, CIDR, protocol and port, opposite actions. */
  ghost predicate Contradiction(rules: seq<RuleInfo>) {
    exists t :: Opposed(rules, t)
  }

  lemma ConflictsExact(inp: PlanInput)
    ensures ConflictsOf(inp) == [] <==>
              && (forall r :: r in inp.snapshot.rules ==> Judged(r))
              && !Contradiction(inp.snapshot.rules)
              && !(Tencent(inp.cloudType) && Trim(inp.snapshot.revision) == "")
  {
    hide Judged, Trim, TupleOf, KeysOf, Sort, Tuples;
    var rules := inp.snapshot.rules;
    var tuples := Sort(StringLe, Tuples(rules));
    InvalidExact(rules);
    OpposedExact(rules, tuples);
    SortedElements(StringLe, Tuples(rules));
    forall t | Opposed(rules, t) ensures t in tuples {
      TuplesExact(rules, t);
    }
  }

  /** The cleanup gate in the words of its documentation. */
  ghost predicate GateOpen(inp: PlanInput) {
    && DesiredOf(inp) != []
    && AllDNSIssues(inp, SortedRules(inp)) == []
    && (forall it :: it in AllItems(inp, SortedRules(inp)) ==> it.reason.None?)
    && (forall r :: r in inp.snapshot.rules ==> Judged(r))
    && !Contradiction(inp.snapshot.rules)
    && !(Tencent(inp.cloudType) && Trim(inp.snapshot.revision) == "")
    && CoverageReadyOf(inp, DesiredOf(inp))
  }

  lemma NoCodesNoIssues(issues: seq<Issue>)
    ensures DistinctCodes(issues) == [] <==> issues == []
  {
    if issues != [] {
      var rest := CodesSeen([], issues[..|issues| - 1]);
      assert issues[|issues| - 1].code in CodesSeen([], issues);
    }
  }

  lemma GateExact(inp: PlanInput)
    ensures GateIssues(DesiredOf(inp), AllDNSIssues(inp, SortedRules(inp)), MergedOf(inp).unsupported,
                       ConflictsOf(inp), CoverageReadyOf(inp, DesiredOf(inp))) == []
            <==> GateOpen(inp)
  {
    hide DesiredOf, AllDNSIssues, CoverageReadyOf, ConflictsOf, Fold, AllItems, DistinctCodes, Contradiction, Judged, Trim;
    NoCodesNoIssues(MergedOf(inp).unsupported);
    NoCodesNoIssues(ConflictsOf(inp));
    NotedIsExact(AllItems(inp, SortedRules(inp)));
    ConflictsExact(inp);
  }

  /** A rule the plan allows to be deleted. */
  ghost predicate Deletable(inp: PlanInput, r: RuleInfo) {
    && GateOpen(inp)
    && IsCandidate(inp.tag, DesiredKeys(DesiredOf(inp)), r)
    && LocatorProblem(inp.cloudType, inp.snapshot.rules, inp.tag, r).None?
  }

  /** The deletable list is exactly the deletable rules of the snapshot, each as often as it occurs. */
  lemma DeletableExact(inp: PlanInput, r: RuleInfo)
    ensures multiset(PlanSpec(inp).cleanupDeletable)[r] == if Deletable(inp, r) then multiset(inp.snapshot.rules)[r] else 0
    ensures r in PlanSpec(inp).cleanupDeletable <==> r in inp.snapshot.rules && Deletable(inp, r)
  {
    hide GateOpen, GateIssues, DesiredOf, IsCandidate, LocatorProblem;
    GateExact(inp);
    CandidatesExact(inp.snapshot.rules, inp.tag, DesiredKeys(DesiredOf(inp)), r);
    LocatableExact(inp, CandidatesOf(inp.snapshot.rules, inp.tag, DesiredKeys(DesiredOf(inp))), r);
  }

  /** Only rules of the own TAG, none of whose keys is expected, are ever deletable, and only while
      every expectation that can be met is covered by this same snapshot. */
  lemma DeletableIsStale(inp: PlanInput, r: RuleInfo)
    requires r in PlanSpec(inp).cleanupDeletable
    ensures IsOwned(r.description, inp.tag)
    ensures forall k :: k in KeysOf(r) ==> k !in DesiredKeys(DesiredOf(inp))
    ensures forall d :: d in DesiredOf(inp) ==> d.implementable && Covers(inp.snapshot.rules, d.key)
  {
    hide DesiredOf, LocatorProblem, AllItems, WellMade, Covers, Contradiction;
    DeletableExact(inp, r);
    forall d | d in DesiredOf(inp) ensures d.implementable && Covers(inp.snapshot.rules, d.key) {
      DesiredEntryFits(inp, d);
    }
  }
}
