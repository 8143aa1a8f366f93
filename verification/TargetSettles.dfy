/** Why an undisturbed attempt settles its target: locators address exactly the deletable rules, created
    rules cover their keys, and what is left plans neither additions nor deletions. */
module TargetSettles {
  import opened Text
  import opened Tag
  import opened Ports
  import opened Keys
  import opened Plan
  import opened PlanFacts
  import opened PlanTheorems
  import opened PlanCleanup
  import opened Validate
  import opened Wire
  import opened CloudAPI
  import opened Providers
  import opened TargetSafety

  // ------------------------------------------------------------------- locators

  lemma UniqueIDs(ct: CloudType, rs: seq<RuleInfo>, x: RuleInfo, q: RuleInfo)
    requires UniqueLocators(ct, rs) && x in rs && q in rs
    requires (Alibaba(ct) && HasID(x) && x.ruleID == q.ruleID)
             || (ct == TCCVM && ParseInt64(Trim(x.policyIndex)).Some?
                 && ParseInt64(Trim(x.policyIndex)) == ParseInt64(Trim(q.policyIndex)))
    ensures x == q && multiset(rs)[x] == 1
  {
    hide ParseInt64, Trim;
    var i :| 0 <= i < |rs| && rs[i] == x;
    var j :| 0 <= j < |rs| && rs[j] == q;
    assert !(i < j) && !(j < i);
    forall k | 0 <= k < |rs| && k != i ensures rs[k] != x {
      assert i < k || k < i;
    }
    OccursOnce(rs, i);
  }

  lemma {:induction false} OccursOnce<T>(s: seq<T>, i: nat)
    requires i < |s| && forall k :: 0 <= k < |s| && k != i ==> s[k] != s[i]
    ensures multiset(s)[s[i]] == 1
  {
    assert s == s[..i] + [s[i]] + s[i + 1..];
    assert s[i] !in s[..i] && s[i] !in s[i + 1..];
    assert s[i] !in multiset(s[..i]) && s[i] !in multiset(s[i + 1..]);
  }

  /** The list a cleanup sends is fit to be sent whenever the snapshot's own locators are unique. */
  lemma DeletablesHaveLocators(inp: PlanInput)
    requires UniqueLocators(inp.cloudType, inp.snapshot.rules)
    ensures Locators(inp.cloudType, PlanSpec(inp).cleanupDeletable)
  {
    hide PlanSpec, ParseInt64, Trim, GateOpen, IsCandidate, KeysOf, DesiredOf, UniqueLocators;
    var ct, ds := inp.cloudType, PlanSpec(inp).cleanupDeletable;
    forall r | r in ds
      ensures (ct == TCCVM ==> ParseInt64(Trim(r.policyIndex)).Some?) && (Alibaba(ct) ==> HasID(r))
    {
      DeletableExact(inp, r);
    }
    assert UniqueLocators(ct, ds) by {
      forall i, j | 0 <= i < j < |ds| ensures UniquePair(ct, ds[i], ds[j]) {
        if !UniquePair(ct, ds[i], ds[j]) {
          DeletableExact(inp, ds[i]);
          DeletableExact(inp, ds[j]);
          UniqueIDs(ct, inp.snapshot.rules, ds[i], ds[j]);
          TwiceInMultiset(ds, i, j);
        }
      }
      PairsAreUnique(ct, ds);
    }
  }

  ghost predicate UniquePair(ct: CloudType, x: RuleInfo, q: RuleInfo) {
    && (Alibaba(ct) && HasID(x) ==> x.ruleID != q.ruleID)
    && (ct == TCCVM && ParseInt64(Trim(x.policyIndex)).Some? ==> ParseInt64(Trim(x.policyIndex)) != ParseInt64(Trim(q.policyIndex)))
  }

  lemma PairsAreUnique(ct: CloudType, rs: seq<RuleInfo>)
    requires forall i, j :: 0 <= i < j < |rs| ==> UniquePair(ct, rs[i], rs[j])
    ensures UniqueLocators(ct, rs)
  {
    hide ParseInt64, Trim;
    forall i, j | 0 <= i < j < |rs| ensures UniquePair(ct, rs[i], rs[j]) {}
  }

  lemma IndexNamed(rs: seq<RuleInfo>, i: int)
    requires i in Indexes(rs) && forall r :: r in rs ==> ParseInt64(Trim(r.policyIndex)).Some?
    ensures exists x :: x in rs && ParseInt64(Trim(x.policyIndex)) == Some(i)
  {
    hide ParseInt64, Trim;
    var k :| 0 <= k < |rs| && Indexes(rs)[k] == i;
    assert rs[k] in rs;
  }

  /** The locators of a cleanup name, among the rules of its own snapshot, exactly the deletable ones. */
  lemma LocatorsNameDeletables(inp: PlanInput, q: RuleInfo)
    requires UniqueLocators(inp.cloudType, inp.snapshot.rules) && q in inp.snapshot.rules
    ensures Hits(LocatorFor(inp.cloudType, PlanSpec(inp).cleanupDeletable), q) <==> Deletable(inp, q)
  {
    hide PlanSpec, ParseInt64, Trim, Deletable, UniqueLocators, ValueMatches;
    var (ct, rules, ds) := (inp.cloudType, inp.snapshot.rules, PlanSpec(inp).cleanupDeletable);
    DeletablesHaveLocators(inp);
    DeletableExact(inp, q);
    if Deletable(inp, q) {
      DeletableIsNamed(ct, ds, q);
    }
    if Hits(LocatorFor(ct, ds), q) {
      match ct
      case TCLighthouse =>
        var x :| x in ds && ValueMatches(x, q);
        DeletableExact(inp, x);
        var i :| 0 <= i < |rules| && rules[i] == x;
        var j :| 0 <= j < |rules| && rules[j] == q;
        ValueDeletionIsIdentityDeletion(inp, i, j);
      case TCCVM =>
        var i :| i in Indexes(ds) && ParseInt64(Trim(q.policyIndex)) == Some(i);
        IndexNamed(ds, i);
        var x :| x in ds && ParseInt64(Trim(x.policyIndex)) == Some(i);
        DeletableExact(inp, x);
        UniqueIDs(ct, rules, x, q);
      case _ =>
        IDsOf(ds, q.ruleID);
        var x :| x in ds && x.ruleID == q.ruleID;
        DeletableExact(inp, x);
        UniqueIDs(ct, rules, x, q);
    }
  }

  lemma DeletableIsNamed(ct: CloudType, ds: seq<RuleInfo>, q: RuleInfo)
    requires Locators(ct, ds) && q in ds
    ensures Hits(LocatorFor(ct, ds), q)
  {
    hide ParseInt64, Trim, UniqueLocators;
    var i :| 0 <= i < |ds| && ds[i] == q;
    match ct
    case TCLighthouse =>
      assert ValueMatches(q, q);
    case TCCVM =>
      assert Indexes(ds)[i] == IndexOfRule(q);
      assert IndexOfRule(q) in Indexes(ds);
    case _ => IDsOf(ds, q.ruleID);
  }

  lemma {:induction false} UnhitIsRemaining(inp: PlanInput, rules: seq<RuleInfo>)
    requires UniqueLocators(inp.cloudType, inp.snapshot.rules)
    requires forall r :: r in rules ==> r in inp.snapshot.rules
    ensures Unhit(LocatorFor(inp.cloudType, PlanSpec(inp).cleanupDeletable), rules) == Remaining(inp, rules)
  {
    hide PlanSpec, Deletable, UniqueLocators, Hits, LocatorFor;
    if rules != [] {
      var init, last := rules[..|rules| - 1], rules[|rules| - 1];
      assert last in rules && forall r :: r in init ==> r in rules;
      LocatorsNameDeletables(inp, last);
      UnhitIsRemaining(inp, init);
    }
  }

  /** Deleting what the plan allows, addressed the platform's way, takes nothing else: under a version guard
      no other rule, by ID nothing under any other ID. */
  lemma NamedIsStale(inp: PlanInput, a: Moment, b: Moment)
    requires OnlyNamed(inp.cloudType, a, b, inp.snapshot, PlanSpec(inp).cleanupDeletable)
    requires Tencent(inp.cloudType) && Taken(a, b) != multiset{} ==> UniqueLocators(inp.cloudType, inp.snapshot.rules)
    ensures TakesOnly(inp.cloudType, a, b, PlanSpec(inp).cleanupDeletable)
  {
    hide PlanSpec, Deletable, UniqueLocators, Hits, LocatorFor, Body, Taken, TookStruck;
    var ds := PlanSpec(inp).cleanupDeletable;
    if Tencent(inp.cloudType) {
      forall x | x in Taken(a, b) ensures exists r :: r in ds && Body(r) == x {
        var r :| r in inp.snapshot.rules && Hits(LocatorFor(inp.cloudType, ds), r) && Body(r) == x;
        LocatorsNameDeletables(inp, r);
        DeletableExact(inp, r);
      }
    }
  }

  // -------------------------------------------------------------------- settling

  function SnapshotAt(ct: CloudType, m: Moment): RuleSnapshot { RuleSnapshot(m.view, RevisionText(ct, m.revision)) }

  /** Planning against the cloud as it is would neither add nor delete anything. */
  ghost predicate Settled(wanted: PlanInput, m: Moment) {
    var plan := PlanSpec(At(wanted, SnapshotAt(wanted.cloudType, m)));
    plan.toAdd == [] && plan.cleanupDeletable == []
  }

  lemma CleanedIsSettled(wanted: PlanInput, s: RuleSnapshot, b: Moment)
    requires PlanSpec(At(wanted, s)).cleanupDeletable != []
    requires RelocatedAll(wanted.cloudType, Remaining(At(wanted, s), s.rules), b.view)
    ensures Settled(wanted, b)
  {
    hide PlanSpec, RelocatedAll, Remaining, GateOpen, DesiredOf, IsCandidate, LocatorProblem, RevisionText;
    var inp := At(wanted, s);
    DeletableExact(inp, PlanSpec(inp).cleanupDeletable[0]);
    CleanupIsFinal(inp, At(wanted, SnapshotAt(wanted.cloudType, b)));
  }

  ghost predicate WellFormed(wanted: PlanInput) {
    NormalInput(wanted) && forall r :: r in wanted.rules ==> PortsComeBack(wanted.cloudType, r.ports)
  }

  lemma ExpressibleIsNotSkipped(inp: PlanInput, d: PlannedRule)
    requires NormalInput(inp) && d in DesiredOf(inp) && d.implementable
    ensures !Skipped(inp.cloudType, d.action)
  {
    hide DesiredOf, AllItems, Trim, Upper, ProtocolsOf, PlannedPortsSpec, CanonicalPort, CanonicalProtocol, RuleAddress;
    DesiredEntryFits(inp, d);
    var it :| it in AllItems(inp, SortedRules(inp)) && it.key == d.key && WellMade(inp.cloudType, it)
              && d.implementable == it.reason.None? && d.action == it.action.(description := d.description);
    AllItemsWellMade(inp, SortedRules(inp));
    SortedElements(RuleIDLe, inp.rules);
    assert Normal(it.rule);
    NormalWordsAreFixed(it.rule);
    WordsDiffer();
  }

  lemma WordsDiffer()
    ensures !EqualFold("ACCEPT", "DROP")
  {
    PlainIsFixed("ACCEPT");
    PlainIsFixed("DROP");
  }

  lemma AddedCovers(inp: PlanInput, d: PlannedRule, put: multiset<RuleInfo>)
    requires WellFormed(inp) && d in DesiredOf(inp) && d.implementable && !Covers(inp.snapshot.rules, d.key)
    requires AllIn(inp.cloudType, PlanSpec(inp).toAdd, put)
    ensures StoredFor(inp.cloudType, d.action) in put && d.key in KeysOf(StoredFor(inp.cloudType, d.action))
  {
    hide PlanSpec, DesiredOf, KeysOf, Covers, StoredFor, Skipped, PortsComeBack, Normal;
    PlanParts(inp);
    ToAddExact(inp.snapshot.rules, DesiredOf(inp), d.action);
    ExpressibleIsNotSkipped(inp, d);
    StoredForFits(inp, d);
  }

  lemma KeptOrAdded(inp: PlanInput, a: Moment, b: Moment, d: PlannedRule)
    requires WellFormed(inp) && inp.snapshot.rules == a.view && d in DesiredOf(inp) && d.implementable
    requires Later(a, b) && b.foreign == a.foreign && b.removed == a.removed
    requires AllIn(inp.cloudType, PlanSpec(inp).toAdd, Put(a, b))
    ensures Covers(b.view, d.key)
  {
    hide PlanSpec, DesiredOf, KeysOf, Covers, WellFormed, StoredFor, Skipped, Later, Put, Contents;
    ContentsGrew(a, b);
    CoveredByContents(b, d.key);
    if Covers(a.view, d.key) {
      CoveredByContents(a, d.key);
    } else {
      AddedCovers(inp, d, Put(a, b));
    }
  }

  /** After an undisturbed create every expectation the platform can express is covered. */
  lemma CreatedCovers(wanted: PlanInput, s: RuleSnapshot, a: Moment, b: Moment, after: RuleSnapshot)
    requires WellFormed(wanted) && s.rules == a.view && after.rules == b.view
    requires Later(a, b) && b.foreign == a.foreign && b.removed == a.removed
    requires AllIn(wanted.cloudType, PlanSpec(At(wanted, s)).toAdd, Put(a, b))
    ensures PlanSpec(At(wanted, after)).toAdd == []
  {
    hide PlanSpec, DesiredOf, Covers, WellFormed, Later, Put, AllIn;
    var (inp, next) := (At(wanted, s), At(wanted, after));
    PlanParts(next);
    DesiredIgnoresSnapshot(inp, next);
    SameRules(wanted, inp);
    forall d | d in DesiredOf(inp) && d.implementable ensures Covers(b.view, d.key) {
      KeptOrAdded(inp, a, b, d);
    }
    NothingToAdd(after.rules, DesiredOf(next));
  }

  lemma NothingToAdd(rules: seq<RuleInfo>, ds: seq<PlannedRule>)
    requires forall d :: d in ds && d.implementable ==> Covers(rules, d.key)
    ensures ToAddOf(rules, ds) == []
  {
    hide Covers;
    var add := ToAddOf(rules, ds);
    if add != [] { ToAddExact(rules, ds, add[0]); }
  }

  lemma SameRules(a: PlanInput, b: PlanInput)
    requires WellFormed(a) && b.rules == a.rules && b.cloudType == a.cloudType
    ensures WellFormed(b)
  {
    hide Normal, PortsComeBack;
  }

  lemma ContentsGrew(a: Moment, b: Moment)
    requires Later(a, b) && b.foreign == a.foreign && b.removed == a.removed
    ensures forall x :: x in Contents(a) || x in Put(a, b) ==> x in Contents(b)
  {
    hide Contents;
    forall x | x in Contents(a) || x in Put(a, b) ensures x in Contents(b) {
      assert (Contents(b) + b.removed + a.added)[x] == (Contents(a) + a.removed + b.added)[x];
      assert a.added[x] <= b.added[x];
    }
  }
}
