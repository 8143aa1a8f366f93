/** Why a deletion by ID needs its condition: Alibaba lets anybody edit a rule in place under its ID
    (PlatformAPIDocs/AliyunECSAPIGuide/ModifySecurityGroupRule.md), and the request that deletes by ID carries no
    version (provider/ali_ecs.go). */
module EditedRule {
  import opened Text
  import opened Tag
  import opened Ports
  import opened PortRoundTrip
  import opened Keys
  import opened Bindings
  import opened Plan
  import opened PlanFacts
  import opened PlanTheorems
  import opened PlanCleanup
  import opened Validate
  import opened Wire
  import opened CloudAPI
  import opened Providers
  import opened TargetSafety
  import opened Target

  // --------------------------------------------------------- any deletable, any edit

  /** Every rule under the ID it carries, in order. */
  ghost function BindAll(rs: seq<RuleInfo>): seq<Binding> {
    if rs == [] then [] else BindAll(rs[..|rs| - 1]) + [Binding(rs[|rs| - 1].ruleID, Body(rs[|rs| - 1]))]
  }

  lemma {:induction false} BindAllKnows(ct: CloudType, rs: seq<RuleInfo>)
    requires Alibaba(ct) && UniqueLocators(ct, rs)
    ensures KnownIDs(BindAll(rs), rs)
  {
    hide Body, HasID, ParseInt64, Trim;
    if rs != [] {
      var (init, last) := (rs[..|rs| - 1], rs[|rs| - 1]);
      BindAllKnows(ct, init);
      var all := BindAll(rs);
      assert all[..|all| - 1] == BindAll(init) && all[|all| - 1] == Binding(last.ruleID, Body(last));
      forall r | r in rs && HasID(r) ensures Bound(all, r.ruleID) == Some(Body(r)) {
        if r in init {
          var i :| 0 <= i < |init| && init[i] == r;
          assert rs[i] == r && rs[|rs| - 1] == last;
        } else {
          assert r == last;
        }
      }
    }
  }

  /** The cloud as S1 shows it, and as it is after rule `id` was edited into `live` and then struck. */
  ghost function BeforeEdit(rules: seq<RuleInfo>): Moment {
    Moment(rules, 0, BindAll(rules), [], multiset{}, multiset{}, 0, 0, 0, 0)
  }

  ghost function AfterStrike(rules: seq<RuleInfo>, id: string, live: RuleInfo): Moment {
    var bs := BindAll(rules);
    Moment(Unhit(ByID([id]), rules), 1, bs + [Binding(id, live)], [Strike(id, live, |bs| + 1)], multiset{}, multiset{live}, 0, 1, 1, 0)
  }

  lemma EditAndStrike(rules: seq<RuleInfo>, id: string, live: RuleInfo)
    ensures Later(BeforeEdit(rules), AfterStrike(rules, id, live))
  {
    hide StrikesFit, Unhit, BindAll;
    StrikeMeetsEdit(BindAll(rules), id, live);
  }

  /** Whatever rule a plan allows to be deleted, and whatever live rule somebody makes of it between S1 and the
      request: there is a run of the attempt in which the live rule is taken out. */
  lemma AnEditIsDeleted(wanted: PlanInput, s1: RuleSnapshot, r: RuleInfo, live: RuleInfo) returns (a: Moment, b: Moment, log: AttemptLog)
    requires Alibaba(wanted.cloudType) && UniqueLocators(wanted.cloudType, s1.rules) && s1.revision == ""
    requires r in PlanSpec(At(wanted, s1)).cleanupDeletable
    requires Body(live) == live && !StaleFor(wanted, live)
    ensures Sound(wanted.cloudType, a) && AttemptStep(wanted.cloudType, a, b, log) && Sound(wanted.cloudType, b)
    ensures log.wanted == wanted && log.s1.Some? && log.s1.value.snapshot == s1
    ensures live in Taken(a, b) && !NoneRebound(a, b, log)
  {
    hide PlanSpec, UniqueLocators, KnownIDs, StaleFor, StrikesFit, Unhit, Later, Seen, TookStruck, Body, NoneRebound, BindAll, Taken, StruckBodies;
    var ct := wanted.cloudType;
    BindAllKnows(ct, s1.rules);
    UnhitIsSound(ct, s1.rules, r.ruleID, live);
    a, b := BeforeEdit(s1.rules), AfterStrike(s1.rules, r.ruleID, live);
    var reading := Reading(s1, Stamp(0, |a.bindings|), a);
    log := AttemptLog(wanted, Some(reading), Some(reading), None);
    EditAndStrike(s1.rules, r.ruleID, live);
    LaterSelf(a);
    SeenAsBound(ct, a, s1);
    IDsOf(PlannedDeletions(log), r.ruleID);
    OneStruck(a, b, b.strikes[0], NamedIDs(PlannedDeletions(log)));
    assert OnlyFrom(ct, Put(a, b), PlannedAdditions(log)) by { assert Put(a, b) == multiset{}; }
    assert AttemptStep(ct, a, b, log);
    StaleExactly(ct, a, b, log);
    assert !AllStale(a, b, log);
  }

  /** What the strike leaves behind is in order. */
  lemma UnhitIsSound(ct: CloudType, rules: seq<RuleInfo>, id: string, live: RuleInfo)
    requires Alibaba(ct) && UniqueLocators(ct, rules) && KnownIDs(BindAll(rules), rules)
    ensures UniqueLocators(ct, Unhit(ByID([id]), rules)) && KnownIDs(BindAll(rules) + [Binding(id, live)], Unhit(ByID([id]), rules))
  {
    hide BindAll, Body, HasID;
    var (bs, left) := (BindAll(rules), Unhit(ByID([id]), rules));
    UnhitIsUnique(ct, rules, id);
    var all := bs + [Binding(id, live)];
    assert all[..|all| - 1] == bs;
    forall r | r in left && HasID(r) ensures Bound(all, r.ruleID) == Some(Body(r)) {
      assert r in rules && r.ruleID != id;
    }
  }

  lemma {:induction false} UnhitIsUnique(ct: CloudType, rules: seq<RuleInfo>, id: string)
    requires Alibaba(ct) && UniqueLocators(ct, rules)
    ensures UniqueLocators(ct, Unhit(ByID([id]), rules))
    ensures forall r :: r in Unhit(ByID([id]), rules) ==> r in rules && r.ruleID != id
  {
    hide HasID, UniqueLocators;
    if rules == [] {
      assert UniqueLocators(ct, []);
    } else {
      var (init, last) := (rules[..|rules| - 1], rules[|rules| - 1]);
      assert rules == init + [last];
      FewerAreUnique(ct, init, last);
      UnhitIsUnique(ct, init, id);
      assert last.ruleID in [id] <==> last.ruleID == id;
      var left := Unhit(ByID([id]), init);
      OneMoreIsUnique(ct, left, init, last);
      assert Unhit(ByID([id]), rules) == if last.ruleID == id then left else left + [last];
    }
  }


  lemma FewerAreUnique(ct: CloudType, init: seq<RuleInfo>, last: RuleInfo)
    requires UniqueLocators(ct, init + [last])
    ensures UniqueLocators(ct, init)
  {
    var rules := init + [last];
    assert forall i :: 0 <= i < |init| ==> init[i] == rules[i];
  }

  lemma OneMoreIsUnique(ct: CloudType, left: seq<RuleInfo>, init: seq<RuleInfo>, last: RuleInfo)
    requires Alibaba(ct) && UniqueLocators(ct, left) && UniqueLocators(ct, init + [last]) && forall r :: r in left ==> r in init
    ensures UniqueLocators(ct, left + [last])
  {
    hide HasID;
    var rules := init + [last];
    forall i | 0 <= i < |left| && HasID(left[i]) ensures left[i].ruleID != last.ruleID {
      assert left[i] in left;
      var j :| 0 <= j < |init| && init[j] == left[i];
      assert rules[j] == init[j] && rules[|init|] == last;
    }
  }

  lemma StrikeMeetsEdit(bs: seq<Binding>, id: string, live: RuleInfo)
    ensures StrikesFit([Strike(id, live, |bs| + 1)], 0, bs + [Binding(id, live)], |bs|)
  {
    var all := bs + [Binding(id, live)];
    assert all[..|bs| + 1] == all;
  }

  lemma SeenAsBound(ct: CloudType, m: Moment, s: RuleSnapshot)
    requires Alibaba(ct) && KnownIDs(m.bindings, s.rules) && m.view == s.rules && s.revision == ""
    ensures Seen(ct, m, s, Stamp(m.revision, |m.bindings|))
  {
    hide Body, HasID;
    assert m.bindings[..|m.bindings|] == m.bindings;
    forall r | r in s.rules && HasID(r) ensures BoundAt(m.bindings, |m.bindings|, r.ruleID, Body(r)) {}
  }

  lemma OneStruck(a: Moment, b: Moment, x: Strike, ids: seq<string>)
    requires a.strikes == [] && b.strikes == [x] && a.removed == multiset{} && b.removed == multiset{x.body} && x.id in ids
    ensures TookStruck(a, b, ids) && x.body in Taken(a, b)
  {
    assert b.strikes[|a.strikes|..] == [x] && [x][..0] == [];
    assert StruckBodies([x]) == multiset{x.body};
  }

  // ------------------------------------------------------------------- one such run

  const CIDR: string := "10.0.0.1/32"
  const RULE := DomainRule(1, "h", "TCP", "80", "ACCEPT", [], "", false)
  const WANTED := PlanInput(AliECS, "me", [RULE], map[1 := [ResolvedIP(Some(CIDR), false)]], map[], RuleSnapshot([], ""), false)
  /** The rule that meets the wish, and one left over from an earlier wish. */
  const KEPT := RuleInfo("TCP", "80", Block(IPv4, CIDR), Blank, "ACCEPT", "[me]", "", "sgr-0")
  const OLD := RuleInfo("TCP", "22", Block(IPv4, CIDR), Blank, "ACCEPT", "[me] old", "", "sgr-1")
  /** What an operator makes of the latter. */
  const OPS := RuleInfo("TCP", "443", Block(IPv4, CIDR), Blank, "ACCEPT", "ops", "", "")
  const S1 := RuleSnapshot([KEPT, OLD], "")

  function PortKey(port: string): Key { Key(IPv4, CIDR, "TCP", port, "ACCEPT") }

  lemma OnePortRule(port: string, description: string, id: string)
    requires Digits(port)
    ensures var r := RuleInfo("TCP", port, Block(IPv4, CIDR), Blank, "ACCEPT", description, "", id);
            SnapshotRuleKeys(r) == Some([PortKey(port)])
  {
    hide CanonicalPort, CanonicalProtocol, Upper, SnapshotRuleKeys;
    var r := RuleInfo("TCP", port, Block(IPv4, CIDR), Blank, "ACCEPT", description, "", id);
    PlannedWords("TCP");
    DigitsUpper(port);
    assert Trimmed(port) && ',' !in port && port != "" by { assert port[0] in port && port[|port| - 1] in port; }
    assert port[0] in port && "ALL"[0] == 'A' && "-1"[0] == '-';
    CanonicalWhole("TCP", port);
    OnePortBack(r, PortKey(port));
  }


  lemma WishOfRule() returns (it: Item)
    ensures AllItems(At(WANTED, S1), SortedRules(At(WANTED, S1))) == [it] && AllDNSIssues(At(WANTED, S1), SortedRules(At(WANTED, S1))) == []
    ensures it.key == PortKey("80") && it.reason.None?
  {
    hide CanonicalPort, CanonicalProtocol, Upper, Trim, EqualFold, ToSlash;
    var inp := At(WANTED, S1);
    assert [RULE][..0] == [] && SortedRules(inp) == [RULE];
    it := ItemOf(AliECS, RULE, IPv4, CIDR, "TCP", "80/80");
    WireOf80();
    var ip := ResolvedIP(Some(CIDR), false);
    assert ProtocolsOf(AliECS, RULE) == ["TCP"] by { FoldLengths("TCP", "TCP+UDP"); }
    OneItem(it);
    assert AddressItems(AliECS, RULE, ip) == [it];
    assert [ip][..0] == [];
    assert AddressesItems(AliECS, RULE, [ip]) == [it] && AddressesIssues(RULE, [ip]) == [];
    assert RuleItems(inp, RULE) == [it] && RuleIssues(inp, RULE) == [];
    PlannedWords("TCP");
    ActionWord("ACCEPT");
  }

  lemma OneItem(it: Item)
    requires it == ItemOf(AliECS, RULE, IPv4, CIDR, "TCP", "80/80") && PlannedPortsSpec(AliECS, "TCP", "80") == ["80/80"]
    ensures ProtocolItems(AliECS, RULE, IPv4, CIDR, ["TCP"]) == [it]
  {
    hide ItemOf, PlannedPortsSpec;
    assert ["80/80"][..0] == [] && ["TCP"][..0] == [];
    assert PortItems(AliECS, RULE, IPv4, CIDR, "TCP", ["80/80"]) == [it];
  }

  lemma WireOf80()
    ensures PlannedPortsSpec(AliECS, "TCP", "80") == ["80/80"] && CanonicalPort("TCP", "80/80") == "80"
  {
    hide Trim, Upper, CanonicalPort;
    PlainIsFixed("80");
    FoldLengths("80", "ALL");
    IndexOfNone("80", ',');
    IndexOfNone("80", '-');
    assert Split("80", ',') == ["80"] && ["80"][..0] == [] && NonBlankParts([]) == [];
    assert ParseSpec("80") == ["80"];
    WireOfItem(AliECS, "TCP", "80");
    assert ToSlash("80") == "80/80" && "80" + "/" + "80" == "80/80";
    PlainIsFixed("80/80");
    assert "80/80"[0] == '8';
    CanonicalCut("TCP", "80", "80");
  }

  lemma WishIsMet()
    ensures var (inp, ds) := (At(WANTED, S1), DesiredOf(At(WANTED, S1)));
            ds != [] && DesiredKeys(ds) == {PortKey("80")} && CoverageReadyOf(inp, ds)
  {
    hide DesiredOf, AllItems, Covers, DistinctKeys, SortedBy, DesiredFrom, SortedRules;
    var inp := At(WANTED, S1);
    var it := WishOfRule();
    var ds := DesiredOf(inp);
    DesiredIsExact(inp);
    assert it in [it] && HasItem([it], it.key);
    forall d | d in ds ensures d.key == PortKey("80") && d.implementable { TheOneWish(d); }
    assert PortKey("80") in DesiredKeys(ds);
    var d :| d in ds && d.key == PortKey("80");
    KeptCovers();
  }

  lemma TheOneWish(d: PlannedRule)
    requires d in DesiredOf(At(WANTED, S1))
    ensures d.key == PortKey("80") && d.implementable
  {
    hide DesiredOf, AllItems, SortedRules, WellMade;
    var it := WishOfRule();
    DesiredEntryFits(At(WANTED, S1), d);
  }

  lemma KeptCovers()
    ensures Covers(S1.rules, PortKey("80"))
  {
    OnePortRule("80", "[me]", "sgr-0");
    assert KEPT in S1.rules;
  }

  lemma NoOpposites()
    ensures !Contradiction(S1.rules) && forall r :: r in S1.rules ==> Judged(r)
  {
    hide SnapshotRuleKeys;
    OnePortRule("80", "[me]", "sgr-0");
    OnePortRule("22", "[me] old", "sgr-1");
    forall r, k | r in S1.rules && k in KeysOf(r) ensures k.action == "ACCEPT" {}
    assert "ACCEPT" != "DROP";
  }

  lemma OldIsDeletable()
    ensures OLD in PlanSpec(At(WANTED, S1)).cleanupDeletable
  {
    hide PlanSpec, DesiredOf, AllItems, AllDNSIssues, SnapshotRuleKeys, CoverageReadyOf, DesiredKeys, SortedRules, Contradiction;
    var inp := At(WANTED, S1);
    var it := WishOfRule();
    WishIsMet();
    NoOpposites();
    OnePortRule("22", "[me] old", "sgr-1");
    assert "22" != "80" by { assert "22"[0] == '2' && "80"[0] == '8'; }
    assert Prefix("me") + " " <= "[me] old";
    TrimOfTrimmed("sgr-1");
    assert OLD in S1.rules;
    DeletableExact(inp, OLD);
  }

  /** S1 shows "[me] old" as deletable; an operator edits it, in place, into a rule of the operators; the
      request that was meant for the former takes the latter out. */
  lemma OperatorsRuleDisappears() returns (a: Moment, b: Moment, log: AttemptLog)
    ensures AttemptStep(AliECS, a, b, log) && log.wanted == WANTED && log.s1.Some? && log.s1.value.snapshot == S1
    ensures OPS in Taken(a, b) && OPS.description == "ops" && !IsOwned(OPS.description, WANTED.tag)
  {
    hide PlanSpec, AttemptStep, DesiredOf, KeysOf, NoneRebound, StaleFor, UniqueLocators, IsOwned, Taken, Sound;
    OldIsDeletable();
    assert !StaleFor(WANTED, OPS) && !IsOwned("ops", "me") by { OpsIsLive(); }
    assert UniqueLocators(AliECS, S1.rules) by { TwoIDs(); }
    a, b, log := AnEditIsDeleted(WANTED, S1, OLD, OPS);
  }

  lemma OpsIsLive()
    ensures !StaleFor(WANTED, OPS) && !IsOwned("ops", "me")
  {
    hide DesiredOf, KeysOf;
    assert "ops"[0] == 'o' && Prefix("me")[0] == '[';
  }

  lemma TwoIDs()
    ensures UniqueLocators(AliECS, S1.rules)
  {
    hide Trim, ParseInt64;
    assert "sgr-0"[4] == '0' && "sgr-1"[4] == '1';
  }
}
