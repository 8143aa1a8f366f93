/** Expectations whose port list has no items: their key holds a comma, which no key of any rule does. */
module CommaPorts {
  import opened Text
  import opened Tag
  import opened Ports
  import opened PortRoundTrip
  import opened Keys
  import opened Plan
  import opened PlanFacts
  import opened PlanTheorems
  import opened Validate
  import opened Wire

  lemma UpperComma(p: string)
    ensures ',' in Upper(p) <==> ',' in p
  {
    hide UpperChar;
    var u := Upper(p);
    forall i | 0 <= i < |p| ensures u[i] == ',' <==> p[i] == ',' { CommaIsFixed(p[i]); }
    if ',' in p { var i :| 0 <= i < |p| && p[i] == ','; assert u[i] == ','; }
  }

  lemma CommaIsFixed(c: char)
    ensures UpperChar(c) == ',' <==> c == ','
  {
  }

  lemma CanonicalAddsNoComma(proto: string, p: string)
    requires ',' !in p
    ensures ',' !in CanonicalPort(proto, p)
  {
    hide Trim, Upper, IndexOf;
    TrimKeepsOut(p, ',');
    UpperComma(Trim(p));
  }

  /** A port field is cut at its commas before anything else. */
  lemma KeysHoldNoComma(r: RuleInfo, k: Key)
    requires k in KeysOf(r)
    ensures ',' !in k.port
  {
    hide CanonicalPort, CanonicalProtocol, Trim, Upper, RuleAddress, Sort, Split;
    var parts := Split(r.port, ',');
    SortedElements(StringLe, DistinctParts(parts));
    forall p | p in SplitPortFieldSpec(r.port) ensures ',' !in p {
      var q :| q in parts && p == Trim(q);
      TrimKeepsOut(q, ',');
    }
    assert ',' !in "ALL";
    var p :| (p == "ALL" || p in SplitPortFieldSpec(r.port)) && k.port == CanonicalPort(k.protocol, p);
    CanonicalAddsNoComma(k.protocol, p);
  }

  lemma OneItemAtLeast(ports: string)
    requires Trimmed(ports) && ports != "" && ',' !in ports
    ensures ParseSpec(ports) != []
  {
    hide Trim, EqualFold;
    TrimOfTrimmed(ports);
    IndexOfNone(ports, ',');
    assert Split(ports, ',') == [ports] && [ports][..0] == [];
    assert NonBlankParts([]) == [] && NonBlankParts([ports]) == [ports];
  }

  lemma NoItemMeansComma(ports: string)
    requires Trimmed(ports) && ports != "" && ParseSpec(ports) == []
    ensures ',' in ports && '/' !in ports
  {
    hide Trim, EqualFold;
    TrimOfTrimmed(ports);
    if ',' !in ports { OneItemAtLeast(ports); }
    if '/' in ports {
      SplitKeeps(ports, ',', '/');
      var p :| p in Split(ports, ',') && '/' in p;
      SlashMakesItem(Split(ports, ','), p);
    }
  }

  lemma CommaStaysInKey(ct: CloudType, it: Item)
    requires Sendable(ct, it) && ParseSpec(it.rule.ports) == []
    ensures ',' in it.key.port
  {
    hide Trim, Upper, IndexOf, ParseSpec, ProtocolsOf, CanonicalProtocol;
    var ports := it.rule.ports;
    SendableWords(ct, it);
    NoItemsNoICMP(it.rule);
    NoItemMeansComma(ports);
    assert it.action.port == ports;
    TrimOfTrimmed(ports);
    UpperComma(ports);
    NoSlashUpper(ports);
    IndexOfNone(Upper(ports), '/');
    assert ',' !in "" && ',' !in "ALL" && ',' !in "-1" && ',' !in "-1/-1";
  }

  lemma SameReason(ct: CloudType, x: Item, y: Item)
    requires WellMade(ct, x) && WellMade(ct, y) && x.key == y.key
    ensures x.reason == y.reason
  {
    hide CanonicalPort, CanonicalProtocol, ProtocolsOf, PlannedPortsSpec, Upper, Trim;
  }

  /** A rule whose port list has no items, with an address and within the platform's limits, is an
      expectation that no snapshot whatever covers: its target never reaches coverage, and cleans nothing up. */
  lemma NoItemsNoCoverage(inp: PlanInput, it: Item)
    requires NormalInput(inp) && it in AllItems(inp, SortedRules(inp))
    requires it.reason.None? && ParseSpec(it.rule.ports) == []
    ensures it.key in DesiredKeys(DesiredOf(inp)) && !Covers(inp.snapshot.rules, it.key)
    ensures !PlanSpec(inp).coverageReady && PlanSpec(inp).cleanupDeletable == []
  {
    hide DesiredOf, AllItems, ParseSpec, WellMade, Normal, KeysOf, DesiredFrom, DistinctKeys, SortedBy;
    DesiredIsExact(inp);
    assert HasItem(AllItems(inp, SortedRules(inp)), it.key);
    var d :| d in DesiredOf(inp) && d.key == it.key;
    AllItemsWellMade(inp, SortedRules(inp));
    SortedElements(RuleIDLe, inp.rules);
    CommaStaysInKey(inp.cloudType, it);
    forall r | r in inp.snapshot.rules ensures it.key !in KeysOf(r) {
      if it.key in KeysOf(r) { KeysHoldNoComma(r, it.key); }
    }
    DesiredEntryFits(inp, d);
    var first :| first in AllItems(inp, SortedRules(inp)) && first.key == d.key && WellMade(inp.cloudType, first)
                 && d.implementable == first.reason.None?;
    SameReason(inp.cloudType, it, first);
  }
}
