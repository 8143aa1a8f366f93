/** Where every expectation and every candidate of a plan ends up: nothing is left out and nothing is counted
    twice. */
module PlanAccounts {
  import opened Text
  import opened Tag
  import opened Keys
  import opened Plan
  import opened PlanFacts
  import opened PlanTheorems
  import opened PlanCleanup

  // ------------------------------------------------------------------ expectations

  lemma {:induction false} HoldersExact(rules: seq<RuleInfo>, tag: string, owned: bool, k: Key, r: RuleInfo)
    ensures r in Holders(rules, tag, owned, k) <==> r in rules && Holds(tag, owned, k, r)
  {
    hide KeysOf, IsOwned;
    if rules != [] {
      var (init, last) := (rules[..|rules| - 1], rules[|rules| - 1]);
      HoldersExact(init, tag, owned, k, r);
      var copies := Copies(KeysOf(last), k, last);
      CopiesExact(KeysOf(last), k, last);
      assert copies != [] ==> copies[0] in copies;
      assert rules == init + [last];
      InConcat(Holders(init, tag, owned, k),
               if IsOwned(last.description, tag) == owned then Copies(KeysOf(last), k, last) else [], r);
    }
  }

  /** What a match says: the key and all its holders, owned ones first. */
  ghost predicate MatchFits(rules: seq<RuleInfo>, tag: string, owned: bool, m: PlanMatch) {
    && m.rules == Holders(rules, tag, owned, m.key) && m.rules != [] && m.description == m.rules[0].description
    && (owned || Holders(rules, tag, true, m.key) == [])
  }

  lemma {:induction false} MatchesExact(rules: seq<RuleInfo>, tag: string, ds: seq<PlannedRule>, owned: bool, m: PlanMatch)
    ensures m in MatchesOf(rules, tag, ds, owned) <==> MatchFits(rules, tag, owned, m) && exists d :: d in ds && d.key == m.key
  {
    hide Holders;
    if ds != [] {
      var (init, last) := (ds[..|ds| - 1], ds[|ds| - 1]);
      MatchesExact(rules, tag, init, owned, m);
      assert ds == init + [last];
    }
  }

  ghost predicate MatchedIn(ms: seq<PlanMatch>, k: Key) { exists m :: m in ms && m.key == k }

  lemma MatchedExactly(rules: seq<RuleInfo>, tag: string, ds: seq<PlannedRule>, owned: bool, k: Key)
    requires exists d :: d in ds && d.key == k
    ensures MatchedIn(MatchesOf(rules, tag, ds, owned), k)
            <==> Holders(rules, tag, owned, k) != [] && (owned || Holders(rules, tag, true, k) == [])
  {
    hide Holders, MatchesOf;
    var holders := Holders(rules, tag, owned, k);
    if holders != [] && (owned || Holders(rules, tag, true, k) == []) {
      var m := PlanMatch(k, holders[0].description, holders);
      MatchesExact(rules, tag, ds, owned, m);
      assert m.key == k;
    }
    if MatchedIn(MatchesOf(rules, tag, ds, owned), k) {
      var m :| m in MatchesOf(rules, tag, ds, owned) && m.key == k;
      MatchesExact(rules, tag, ds, owned, m);
    }
  }

  lemma SomeHolder(rules: seq<RuleInfo>, tag: string, owned: bool, k: Key)
    ensures Holders(rules, tag, owned, k) != [] <==> exists r :: r in rules && Holds(tag, owned, k, r)
  {
    hide Holders, KeysOf, IsOwned;
    var holders := Holders(rules, tag, owned, k);
    if holders != [] { HoldersExact(rules, tag, owned, k, holders[0]); }
    if exists r :: r in rules && Holds(tag, owned, k, r) {
      var r :| r in rules && Holds(tag, owned, k, r);
      HoldersExact(rules, tag, owned, k, r);
    }
  }

  /** The action of a desired entry tells its key, so no two entries send the same one. */
  lemma OneEntryPerAction(inp: PlanInput, d: PlannedRule, e: PlannedRule)
    requires d in DesiredOf(inp) && e in DesiredOf(inp) && d.action == e.action
    ensures d == e
  {
    hide DesiredOf, AllItems, CanonicalPort, CanonicalProtocol, ProtocolsOf, Upper, Trim, SortedBy, DesiredFrom;
    DesiredIsExact(inp);
    DesiredEntryFits(inp, d);
    DesiredEntryFits(inp, e);
  }

  /** Every desired key is met by owned rules, else by external ones, else it is added, else the platform
      cannot express it: exactly one of the four. */
  lemma DesiredHasOnePlace(inp: PlanInput, d: PlannedRule)
    requires d in DesiredOf(inp)
    ensures var (p, rules) := (PlanSpec(inp), inp.snapshot.rules);
            && (MatchedIn(p.satisfiedByOwned, d.key) <==> exists r :: r in rules && Holds(inp.tag, true, d.key, r))
            && (MatchedIn(p.satisfiedByExternal, d.key)
                <==> !MatchedIn(p.satisfiedByOwned, d.key) && exists r :: r in rules && Holds(inp.tag, false, d.key, r))
            && (Covers(rules, d.key) <==> MatchedIn(p.satisfiedByOwned, d.key) || MatchedIn(p.satisfiedByExternal, d.key))
            && (d.action in p.toAdd <==> d.implementable && !Covers(rules, d.key))
  {
    hide DesiredOf, MatchesOf, Holders, KeysOf, IsOwned, ToAddOf, Sort, CandidatesOf, Locatable, LocatorIssues, GateIssues,
         CoverageReadyOf, ConflictsOf, Fold, AllItems, AllDNSIssues;
    var (ds, rules) := (DesiredOf(inp), inp.snapshot.rules);
    MatchedExactly(rules, inp.tag, ds, true, d.key);
    MatchedExactly(rules, inp.tag, ds, false, d.key);
    SomeHolder(rules, inp.tag, true, d.key);
    SomeHolder(rules, inp.tag, false, d.key);
    if Covers(rules, d.key) {
      var r :| r in rules && d.key in KeysOf(r);
      assert Holds(inp.tag, IsOwned(r.description, inp.tag), d.key, r);
    }
    ToAddExact(rules, ds, d.action);
    if d.action in ToAddOf(rules, ds) {
      var e :| e in ds && e.implementable && !Covers(rules, e.key) && e.action == d.action;
      OneEntryPerAction(inp, d, e);
    }
  }

  // -------------------------------------------------------------------- candidates

  lemma {:induction false} LocatedOrNot(inp: PlanInput, cs: seq<RuleInfo>)
    ensures |Locatable(inp, cs)| + |LocatorIssues(inp, cs)| == |cs|
  {
    hide LocatorProblem, KeysOf;
    if cs != [] { LocatedOrNot(inp, cs[..|cs| - 1]); }
  }

  /** Behind an open gate every cleanup candidate is either deletable or has its reason among the deferred
      issues; behind a shut one nothing is deletable. */
  lemma CandidatesAreAccounted(inp: PlanInput)
    ensures var p := PlanSpec(inp);
            if GateOpen(inp) then |p.cleanupDeletable| + |p.cleanupDeferred| == |p.cleanupCandidates|
            else p.cleanupDeletable == [] && p.cleanupDeferred != []
  {
    hide DesiredOf, MatchesOf, ToAddOf, CandidatesOf, Locatable, LocatorIssues, GateIssues, CoverageReadyOf, ConflictsOf, Fold,
         AllItems, AllDNSIssues, GateOpen, Sort;
    GateExact(inp);
    LocatedOrNot(inp, CandidatesOf(inp.snapshot.rules, inp.tag, DesiredKeys(DesiredOf(inp))));
  }

  // ------------------------------------------------------------------- order of issues

  /** By code, then by key, then by domain, then by rule. */
  predicate Before(a: Issue, b: Issue) {
    && StringLe(CodeName(a.code), CodeName(b.code))
    && (CodeName(a.code) == CodeName(b.code) ==> StringLe(IssueKeyText(a), IssueKeyText(b)))
    && (CodeName(a.code) == CodeName(b.code) && IssueKeyText(a) == IssueKeyText(b) ==> StringLe(a.domain, b.domain))
    && (CodeName(a.code) == CodeName(b.code) && IssueKeyText(a) == IssueKeyText(b) && a.domain == b.domain ==> a.ruleID <= b.ruleID)
  }

  lemma IssueOrder()
    ensures TotalPreorder(IssueLe) && forall a, b :: IssueLe(a, b) <==> Before(a, b)
  {
    hide StringLe, CodeName, IssueKeyText;
    StringLeIsTotalOrder();
    forall a, b ensures IssueLe(a, b) <==> Before(a, b) { Reflexive(a, b); }
    forall a, b ensures IssueLe(a, b) || IssueLe(b, a) { Reflexive(a, b); }
    forall a, b, c | IssueLe(a, b) && IssueLe(b, c) ensures IssueLe(a, c) { Reflexive(a, c); }
  }

  lemma Reflexive(a: Issue, b: Issue)
    ensures StringLe(CodeName(a.code), CodeName(a.code)) && StringLe(IssueKeyText(a), IssueKeyText(a)) && StringLe(a.domain, a.domain)
    ensures StringLe(CodeName(b.code), CodeName(b.code)) && StringLe(IssueKeyText(b), IssueKeyText(b)) && StringLe(b.domain, b.domain)
  {
    hide StringLe, CodeName, IssueKeyText;
    StringLeIsTotalOrder();
  }

  /** All four issue lists of a plan are in that order. */
  lemma IssuesAreInOrder(inp: PlanInput)
    ensures var p := PlanSpec(inp);
            && SortedBy(Before, p.cleanupDeferred) && SortedBy(Before, p.dnsErrors)
            && SortedBy(Before, p.unsupported) && SortedBy(Before, p.conflicts)
  {
    hide DesiredOf, MatchesOf, ToAddOf, CandidatesOf, Locatable, LocatorIssues, GateIssues, CoverageReadyOf, ConflictsOf, MergedOf,
         AllDNSIssues, Sort, IssueLe, Before;
    IssueOrder();
    forall us ensures SortedBy(Before, Sort(IssueLe, us)) { SortSorts(IssueLe, us); }
  }
}
