/** `PlanTarget` of provider/plan.go in its own form: slices and index maps filled in loops, proved to
    compute the specification `Plan.PlanSpec`. */
module Planner {
  import opened Text
  import opened Tag
  import opened Ports
  import opened Keys
  import opened Plan

  // ------------------------------------------------ 1) merging the expectations

  /** The running lists and the maps that index them. */
  datatype State = State(desired: seq<PlannedRule>, index: map<Key, nat>,
                         unsupported: seq<Issue>, seen: set<(IssueCode, string)>)

  ghost predicate Consistent(st: State, m: Merged) {
    && st.desired == m.desired && st.unsupported == m.unsupported
    && IndexFor(st.index, m.desired) && SeenFor(st.seen, m.unsupported)
  }

  lemma FindKeyAfterUpdate(ps: seq<PlannedRule>, i: nat, p: PlannedRule, k: Key)
    requires i < |ps| && p.key == ps[i].key
    ensures FindKey(ps[i := p], k) == FindKey(ps, k)
  {
    hide FindKey;
    var q := ps[i := p];
    assert forall n :: 0 <= n < |ps| ==> q[n].key == ps[n].key;
    assert FindKey(q, k) >= FindKey(ps, k);
    assert FindKey(ps, k) >= FindKey(q, k);
  }

  lemma FindKeyAfterAppend(ps: seq<PlannedRule>, p: PlannedRule, k: Key)
    ensures FindKey(ps + [p], k)
            == if FindKey(ps, k) < |ps| then FindKey(ps, k) else if p.key == k then |ps| else |ps| + 1
  {
    assert (ps + [p])[..|ps|] == ps;
  }

  lemma NotedAfterAppend(us: seq<Issue>, u: Issue, c: IssueCode, k: Key)
    ensures Noted(us + [u], c, k) <==> Noted(us, c, k) || (u.code == c && IssueKeyText(u) == KeyString(k))
  {
    assert forall x :: x in us + [u] <==> x in us || x == u;
  }

  ghost predicate IndexFor(index: map<Key, nat>, ps: seq<PlannedRule>) {
    && (forall k :: k in index <==> FindKey(ps, k) < |ps|)
    && (forall k :: k in index ==> index[k] == FindKey(ps, k))
  }

  ghost predicate SeenFor(seen: set<(IssueCode, string)>, us: seq<Issue>) {
    forall c, k :: (c, KeyString(k)) in seen <==> Noted(us, c, k)
  }

  method MergeItem(ps: seq<PlannedRule>, index: map<Key, nat>, it: Item)
    returns (ps': seq<PlannedRule>, index': map<Key, nat>)
    requires IndexFor(index, ps)
    ensures ps' == Merge(ps, it) && IndexFor(index', ps')
  {
    hide FindKey, MergedEntry, FreshEntry;
    if it.key in index {
      var i := index[it.key];
      ps', index' := ps[i := MergedEntry(ps[i], it)], index;
      assert MergedEntry(ps[i], it).key == ps[i].key by { MergingKeepsKey(ps[i], it); }
      forall k ensures FindKey(ps', k) == FindKey(ps, k) { FindKeyAfterUpdate(ps, i, ps'[i], k); }
    } else {
      ps', index' := ps + [FreshEntry(it)], index[it.key := |ps|];
      assert FreshEntry(it).key == it.key by { MergingKeepsKey(FreshEntry(it), it); }
      forall k ensures FindKey(ps', k) == if FindKey(ps, k) < |ps| then FindKey(ps, k)
                                          else if it.key == k then |ps| else |ps| + 1
      {
        FindKeyAfterAppend(ps, FreshEntry(it), k);
      }
    }
  }

  lemma MergingKeepsKey(p: PlannedRule, it: Item)
    ensures MergedEntry(p, it).key == p.key && FreshEntry(it).key == it.key
  {
    hide Trim;
  }

  method NoteItem(us: seq<Issue>, seen: set<(IssueCode, string)>, it: Item)
    returns (us': seq<Issue>, seen': set<(IssueCode, string)>)
    requires SeenFor(seen, us)
    ensures us' == Note(us, it) && SeenFor(seen', us')
  {
    hide KeyString, Noted;
    us', seen' := us, seen;
    if it.reason.Some? {
      assert (it.reason.value, KeyString(it.key)) in seen <==> Noted(us, it.reason.value, it.key);
      if (it.reason.value, KeyString(it.key)) !in seen {
        var issue := Issue(it.reason.value, Some(it.key), it.rule.host, it.rule.id, NoSubject);
        us', seen' := us + [issue], seen + {(it.reason.value, KeyString(it.key))};
        forall c, k ensures (c, KeyString(k)) in seen' <==> Noted(us', c, k) {
          NotedAfterAppend(us, issue, c, k);
        }
      }
    }
  }

  method AddItem(st: State, it: Item, ghost m: Merged) returns (r: State)
    requires Consistent(st, m)
    ensures Consistent(r, Step(m, it))
  {
    hide Merge, Note, IndexFor, SeenFor;
    var desired, index := MergeItem(st.desired, st.index, it);
    var unsupported, seen := NoteItem(st.unsupported, st.seen, it);
    r := State(desired, index, unsupported, seen);
  }

  lemma FoldOne(m: Merged, a: seq<Item>, x: Item)
    ensures Fold(m, a + [x]) == Step(Fold(m, a), x)
  {
    assert (a + [x])[..|a|] == a;
  }

  lemma {:induction false} FoldConcat(m: Merged, a: seq<Item>, b: seq<Item>)
    ensures Fold(m, a + b) == Fold(Fold(m, a), b)
  {
    hide Step;
    if b == [] {
      assert a + b == a;
    } else {
      var init := b[..|b| - 1];
      assert (a + b)[..|a + b| - 1] == a + init;
      FoldConcat(m, a, init);
    }
  }

  method AddPorts(ct: CloudType, r: DomainRule, family: Family, cidr: string, proto: string, st: State, ghost m: Merged)
    returns (out: State)
    requires Consistent(st, m)
    ensures Consistent(out, Fold(m, PortItems(ct, r, family, cidr, proto, PlannedPortsSpec(ct, proto, r.ports))))
  {
    hide Consistent, Step, PlannedPortsSpec, ItemOf, Fold;
    FoldNothing(m);
    var wire := ExpandPlannedPorts(ct, proto, r.ports);
    out := st;
    for i := 0 to |wire|
      invariant Consistent(out, Fold(m, PortItems(ct, r, family, cidr, proto, wire[..i])))
    {
      ghost var before := PortItems(ct, r, family, cidr, proto, wire[..i]);
      var it := ItemOf(ct, r, family, cidr, proto, wire[i]);
      assert wire[..i + 1][..i] == wire[..i];
      out := AddItem(out, it, Fold(m, before));
      FoldOne(m, before, it);
    }
    assert wire[..|wire|] == wire;
  }

  method AddAddress(ct: CloudType, r: DomainRule, ip: ResolvedIP, cidr: string, st: State, ghost m: Merged)
    returns (out: State)
    requires ip.prefix == Some(cidr) && Consistent(st, m)
    ensures Consistent(out, Fold(m, AddressItems(ct, r, ip)))
  {
    hide Consistent, Fold, PlannedPortsSpec, PortItems, EqualFold;
    var protos := [r.protocol];
    if EqualFold(r.protocol, "TCP+UDP") && !Capabilities(ct).tcpUDP {
      protos := ["TCP", "UDP"];
    }
    out := st;
    assert Fold(m, []) == m by { FoldNothing(m); }
    for i := 0 to |protos|
      invariant Consistent(out, Fold(m, ProtocolItems(ct, r, FamilyOf(ip), cidr, protos[..i])))
    {
      ghost var before := ProtocolItems(ct, r, FamilyOf(ip), cidr, protos[..i]);
      ghost var more := PortItems(ct, r, FamilyOf(ip), cidr, protos[i], PlannedPortsSpec(ct, protos[i], r.ports));
      assert protos[..i + 1][..i] == protos[..i];
      out := AddPorts(ct, r, FamilyOf(ip), cidr, protos[i], out, Fold(m, before));
      FoldConcat(m, before, more);
    }
    assert protos[..|protos|] == protos;
  }

  lemma FoldNothing(m: Merged)
    ensures Fold(m, []) == m
  {
  }

  method AddAddresses(ct: CloudType, r: DomainRule, resolved: seq<ResolvedIP>, st: State, ghost m: Merged)
    returns (out: State, issues: seq<Issue>)
    requires Consistent(st, m)
    ensures Consistent(out, Fold(m, AddressesItems(ct, r, resolved)))
    ensures issues == AddressesIssues(r, resolved)
  {
    hide Consistent, Fold, AddressItems;
    FoldNothing(m);
    out, issues := st, [];
    for j := 0 to |resolved|
      invariant Consistent(out, Fold(m, AddressesItems(ct, r, resolved[..j])))
      invariant issues == AddressesIssues(r, resolved[..j])
    {
      var ip := resolved[j];
      assert resolved[..j + 1][..j] == resolved[..j];
      ghost var done := AddressesItems(ct, r, resolved[..j]);
      if ip.prefix.None? {
        issues := issues + [Issue(DNSFailed, None, r.host, r.id, NoSubject)];
        NoPrefixNoItems(ct, r, ip);
        assert done + [] == done;
      } else {
        out := AddAddress(ct, r, ip, ip.prefix.value, out, Fold(m, done));
        FoldConcat(m, done, AddressItems(ct, r, ip));
      }
    }
    assert resolved[..|resolved|] == resolved;
  }

  method AddRules(inp: PlanInput, rules: seq<DomainRule>) returns (st: State, dnsErrors: seq<Issue>)
    ensures Consistent(st, Fold(NOTHING, AllItems(inp, rules)))
    ensures dnsErrors == AllDNSIssues(inp, rules)
  {
    hide Consistent, Fold, AddressesItems, AddressesIssues, Trim;
    st, dnsErrors := State([], map[], [], {}), [];
    assert Consistent(st, Fold(NOTHING, [])) by { EmptyIsConsistent(); }
    for i := 0 to |rules|
      invariant Consistent(st, Fold(NOTHING, AllItems(inp, rules[..i])))
      invariant dnsErrors == AllDNSIssues(inp, rules[..i])
    {
      var r := rules[i];
      assert rules[..i + 1][..i] == rules[..i];
      ghost var before := AllItems(inp, rules[..i]);
      var message := DNSErrorOf(inp, r);
      if message != "" {
        dnsErrors := dnsErrors + [Issue(DNSFailed, None, r.host, r.id, Says(message))];
        assert before + [] == before;
        continue;
      }
      var resolved := ResolvedOf(inp, r);
      if |resolved| == 0 {
        dnsErrors := dnsErrors + [Issue(DNSEmpty, None, r.host, r.id, NoSubject)];
        NoAddressesNoItems(inp.cloudType, r);
        assert before + [] == before;
        continue;
      }
      var more;
      st, more := AddAddresses(inp.cloudType, r, resolved, st, Fold(NOTHING, before));
      dnsErrors := dnsErrors + more;
      FoldConcat(NOTHING, before, AddressesItems(inp.cloudType, r, resolved));
    }
    assert rules[..|rules|] == rules;
  }

  lemma EmptyIsConsistent()
    ensures Consistent(State([], map[], [], {}), Fold(NOTHING, []))
  {
  }

  lemma NoAddressesNoItems(ct: CloudType, r: DomainRule)
    ensures AddressesItems(ct, r, []) == []
  {
  }

  lemma NoPrefixNoItems(ct: CloudType, r: DomainRule, ip: ResolvedIP)
    requires ip.prefix.None?
    ensures AddressItems(ct, r, ip) == []
  {
  }

  /** Renders every entry in place, then sorts by key text. */
  method RenderAndSort(inp: PlanInput, merged: seq<PlannedRule>) returns (desired: seq<PlannedRule>)
    ensures desired == Sort(PlannedLe, RenderedAll(inp, merged))
  {
    hide RenderDescription;
    desired := merged;
    for i := 0 to |desired|
      invariant |desired| == |merged|
      invariant forall j :: 0 <= j < i ==> desired[j] == Rendered(inp, merged[j])
      invariant forall j :: i <= j < |merged| ==> desired[j] == merged[j]
    {
      var p := desired[i];
      var description := RenderDescription(inp.cloudType, inp.tag, p.comment);
      p := p.(description := description);
      p := p.(action := p.action.(description := p.description));
      p := p.(ruleIDs := Sort(IntLe, p.ruleIDs));
      p := p.(domains := Sort(StringLe, p.domains));
      desired := desired[i := p];
    }
    assert desired == RenderedAll(inp, merged);
    desired := Sort(PlannedLe, desired);
  }

  // ------------------------------------------------------ 2) the snapshot index

  function At(index: map<Key, seq<RuleInfo>>, k: Key): seq<RuleInfo> {
    if k in index then index[k] else []
  }

  lemma CopiesStep(keys: seq<Key>, i: nat, k: Key, r: RuleInfo)
    requires i < |keys|
    ensures Copies(keys[..i + 1], k, r) == Copies(keys[..i], k, r) + (if keys[i] == k then [r] else [])
  {
    assert keys[..i + 1][..i] == keys[..i];
  }

  ghost predicate Extended(out: map<Key, seq<RuleInfo>>, index: map<Key, seq<RuleInfo>>, keys: seq<Key>, r: RuleInfo) {
    forall k :: At(out, k) == At(index, k) + Copies(keys, k, r)
  }

  lemma ExtendedAt(out: map<Key, seq<RuleInfo>>, index: map<Key, seq<RuleInfo>>, keys: seq<Key>, r: RuleInfo, k: Key)
    requires Extended(out, index, keys, r)
    ensures At(out, k) == At(index, k) + Copies(keys, k, r)
  {
    hide Copies;
  }


  lemma ExtendedStepAt(out: map<Key, seq<RuleInfo>>, index: map<Key, seq<RuleInfo>>, keys: seq<Key>, i: nat, r: RuleInfo, k: Key)
    requires i < |keys| && At(out, k) == At(index, k) + Copies(keys[..i], k, r)
    ensures At(out[keys[i] := At(out, keys[i]) + [r]], k) == At(index, k) + Copies(keys[..i + 1], k, r)
  {
    hide Copies;
    CopiesStep(keys, i, k, r);
    if keys[i] == k { assert (At(index, k) + Copies(keys[..i], k, r)) + [r] == At(index, k) + (Copies(keys[..i], k, r) + [r]); }
  }

  lemma ExtendedStep(out: map<Key, seq<RuleInfo>>, index: map<Key, seq<RuleInfo>>, keys: seq<Key>, i: nat, r: RuleInfo)
    requires i < |keys| && Extended(out, index, keys[..i], r)
    ensures Extended(out[keys[i] := At(out, keys[i]) + [r]], index, keys[..i + 1], r)
  {
    hide Copies, At;
    forall k ensures At(out[keys[i] := At(out, keys[i]) + [r]], k) == At(index, k) + Copies(keys[..i + 1], k, r) {
      ExtendedAt(out, index, keys[..i], r, k);
      ExtendedStepAt(out, index, keys, i, r, k);
    }
  }

  method AddToIndex(index: map<Key, seq<RuleInfo>>, keys: seq<Key>, r: RuleInfo) returns (out: map<Key, seq<RuleInfo>>)
    ensures Extended(out, index, keys, r)
  {
    out := index;
    assert Extended(out, index, keys[..0], r);
    hide Extended;
    for i := 0 to |keys|
      invariant Extended(out, index, keys[..i], r)
    {
      ExtendedStep(out, index, keys, i, r);
      out := out[keys[i] := At(out, keys[i]) + [r]];
    }
    assert keys[..|keys|] == keys;
  }

  ghost predicate KeysHave(keys: seq<Key>, tuple: string, action: string) {
    exists k :: k in keys && TupleOf(k) == tuple && k.action == action
  }

  /** The tuple map after the rules `done` and the keys `keys` of the next one. */
  ghost predicate TupleMap(tuples: seq<string>, actions: map<string, set<string>>, done: seq<RuleInfo>, keys: seq<Key>) {
    && (forall t :: t in actions <==> t in tuples)
    && (forall t, a :: t in actions ==> (a in actions[t] <==> TupleHas(done, t, a) || KeysHave(keys, t, a)))
    && (forall t, a :: TupleHas(done, t, a) || KeysHave(keys, t, a) ==> t in tuples)
  }

  method AddTuple(tuples: seq<string>, actions: map<string, set<string>>, k: Key, ghost done: seq<RuleInfo>, ghost keys: seq<Key>)
    returns (tuples': seq<string>, actions': map<string, set<string>>)
    requires TupleMap(tuples, actions, done, keys)
    ensures tuples' == AppendUnique(tuples, TupleOf(k))
    ensures TupleMap(tuples', actions', done, keys + [k])
  {
    hide TupleOf, TupleHas, KeysHave;
    forall t, a ensures KeysHave(keys + [k], t, a) <==> KeysHave(keys, t, a) || (TupleOf(k) == t && k.action == a) {
      OneMoreKey(keys, k, t, a);
    }
    tuples', actions' := tuples, actions;
    var t := TupleOf(k);
    if t !in actions' {
      tuples' := tuples' + [t];
      actions' := actions'[t := {}];
    }
    actions' := actions'[t := actions'[t] + {k.action}];
    assert forall u :: u in tuples ==> u in tuples';
  }

  lemma OneMoreKey(keys: seq<Key>, k: Key, t: string, a: string)
    ensures KeysHave(keys + [k], t, a) <==> KeysHave(keys, t, a) || (TupleOf(k) == t && k.action == a)
  {
    hide TupleOf;
    assert forall x :: x in keys + [k] <==> x in keys || x == k;
  }

  method AddTuples(tuples: seq<string>, actions: map<string, set<string>>, keys: seq<Key>, ghost done: seq<RuleInfo>)
    returns (tuples': seq<string>, actions': map<string, set<string>>)
    requires TupleMap(tuples, actions, done, [])
    ensures tuples' == KeyTuples(tuples, keys)
    ensures TupleMap(tuples', actions', done, keys)
  {
    hide TupleOf, TupleMap;
    tuples', actions' := tuples, actions;
    for i := 0 to |keys|
      invariant tuples' == KeyTuples(tuples, keys[..i])
      invariant TupleMap(tuples', actions', done, keys[..i])
    {
      assert keys[..i + 1] == keys[..i] + [keys[i]];
      assert keys[..i + 1][..i] == keys[..i];
      tuples', actions' := AddTuple(tuples', actions', keys[i], done, keys[..i]);
    }
    assert keys[..|keys|] == keys;
  }

  datatype SnapshotIndex = SnapshotIndex(keys: seq<seq<Key>>, owned: seq<bool>,
                                         ownedIndex: map<Key, seq<RuleInfo>>, externalIndex: map<Key, seq<RuleInfo>>,
                                         tuples: seq<string>, actions: map<string, set<string>>, invalid: seq<Issue>)

  ghost predicate Indexed(ix: SnapshotIndex, rules: seq<RuleInfo>, tag: string) {
    && |ix.keys| == |ix.owned| == |rules|
    && (forall i :: 0 <= i < |rules| ==> ix.keys[i] == KeysOf(rules[i]) && ix.owned[i] == OwnedEntry(tag, rules[i]))
    && (forall k :: At(ix.ownedIndex, k) == Holders(rules, tag, true, k))
    && (forall k :: At(ix.externalIndex, k) == Holders(rules, tag, false, k))
    && ix.tuples == Tuples(rules)
    && TupleMap(ix.tuples, ix.actions, rules, [])
    && ix.invalid == InvalidIssues(rules)
  }

  /** The specification functions of one more rule, in terms of the rules before it. */
  lemma OneMoreRule(done: seq<RuleInfo>, r: RuleInfo, tag: string)
    ensures var rules := done + [r];
            && (forall o, k :: Holders(rules, tag, o, k)
                  == Holders(done, tag, o, k) + (if IsOwned(r.description, tag) == o then Copies(KeysOf(r), k, r) else []))
            && Tuples(rules) == KeyTuples(Tuples(done), KeysOf(r))
            && InvalidIssues(rules)
               == InvalidIssues(done) + (if Judged(r) then [] else [InvalidIssue(r)])
  {
    hide SnapshotRuleKeys, IsOwned, TupleOf, KeysOf;
    var rules := done + [r];
    assert rules[..|done|] == done && rules[|rules| - 1] == r;
    assert forall x :: x in rules <==> x in done || x == r;
  }

  method IndexOne(ix: SnapshotIndex, r: RuleInfo, tag: string, ghost done: seq<RuleInfo>) returns (out: SnapshotIndex)
    requires Indexed(ix, done, tag)
    ensures Indexed(out, done + [r], tag)
  {
    hide SnapshotRuleKeys, IsOwned, TupleMap, Holders, Tuples, InvalidIssues;
    OneMoreRule(done, r, tag);
    var judged := SnapshotRuleKeys(r);
    var keys := KeysOf(r);
    if judged.None? {
      NextRuleTuples(ix.tuples, ix.actions, done, r);
      out := ix.(keys := ix.keys + [[]], owned := ix.owned + [false],
                 invalid := ix.invalid + [InvalidIssue(r)]);
      return;
    }
    var owned := IsOwned(r.description, tag);
    var ownedIndex, externalIndex := ix.ownedIndex, ix.externalIndex;
    if owned {
      ownedIndex := AddToIndex(ownedIndex, keys, r);
    } else {
      externalIndex := AddToIndex(externalIndex, keys, r);
    }
    var tuples, actions := AddTuples(ix.tuples, ix.actions, keys, done);
    NextRuleTuples(tuples, actions, done, r);
    out := SnapshotIndex(ix.keys + [keys], ix.owned + [owned], ownedIndex, externalIndex, tuples, actions, ix.invalid);
  }

  lemma NextRuleTuples(tuples: seq<string>, actions: map<string, set<string>>, done: seq<RuleInfo>, r: RuleInfo)
    ensures TupleMap(tuples, actions, done, KeysOf(r)) ==> TupleMap(tuples, actions, done + [r], [])
  {
    hide TupleOf, KeysOf;
    assert forall x :: x in done + [r] <==> x in done || x == r;
    assert forall t, a :: TupleHas(done + [r], t, a) <==> TupleHas(done, t, a) || KeysHave(KeysOf(r), t, a);
    assert forall t, a :: !KeysHave([], t, a);
  }

  method IndexSnapshot(rules: seq<RuleInfo>, tag: string) returns (ix: SnapshotIndex)
    ensures Indexed(ix, rules, tag)
  {
    hide SnapshotRuleKeys, IsOwned, TupleOf;
    ix := SnapshotIndex([], [], map[], map[], [], map[], []);
    assert Indexed(ix, [], tag);
    hide Indexed;
    for i := 0 to |rules|
      invariant Indexed(ix, rules[..i], tag)
    {
      ix := IndexOne(ix, rules[i], tag, rules[..i]);
      assert rules[..i] + [rules[i]] == rules[..i + 1];
    }
    assert rules[..|rules|] == rules;
  }

  lemma IndexedTuple(ix: SnapshotIndex, rules: seq<RuleInfo>, tag: string, t: string)
    requires Indexed(ix, rules, tag) && t in Sort(StringLe, ix.tuples)
    ensures t in ix.actions && forall a :: a in ix.actions[t] <==> TupleHas(rules, t, a)
  {
    hide SnapshotRuleKeys, IsOwned, TupleOf, Holders, KeysOf, Tuples, InvalidIssues, Sort;
    SortedElements(StringLe, ix.tuples);
    assert forall a :: !KeysHave([], t, a);
  }

  method FindOpposites(tuples: seq<string>, actions: map<string, set<string>>, ghost rules: seq<RuleInfo>)
    returns (issues: seq<Issue>)
    requires forall t :: t in tuples ==> t in actions && forall a :: a in actions[t] <==> TupleHas(rules, t, a)
    ensures issues == OpposedIssues(rules, tuples)
  {
    hide TupleHas;
    issues := [];
    for i := 0 to |tuples|
      invariant issues == OpposedIssues(rules, tuples[..i])
    {
      assert tuples[..i + 1][..i] == tuples[..i];
      var t := tuples[i];
      assert t in tuples;
      if "ACCEPT" in actions[t] && "DROP" in actions[t] {
        issues := issues + [Issue(OppositeAction, None, "", 0, Says(t))];
      }
    }
    assert tuples[..|tuples|] == tuples;
  }

  method FindConflicts(inp: PlanInput, ix: SnapshotIndex) returns (conflicts: seq<Issue>)
    requires Indexed(ix, inp.snapshot.rules, inp.tag)
    ensures conflicts == ConflictsOf(inp)
  {
    var tuples := Sort(StringLe, ix.tuples);
    assert ix.tuples == Tuples(inp.snapshot.rules) && ix.invalid == InvalidIssues(inp.snapshot.rules);
    hide *;
    forall t | t in tuples ensures t in ix.actions && forall a :: a in ix.actions[t] <==> TupleHas(inp.snapshot.rules, t, a) {
      IndexedTuple(ix, inp.snapshot.rules, inp.tag, t);
    }
    var opposites := FindOpposites(tuples, ix.actions, inp.snapshot.rules);
    var revision := RevisionIssue(inp);
    conflicts := ix.invalid + opposites + revision;
    ConflictsInParts(inp);
  }

  lemma ConflictsInParts(inp: PlanInput)
    ensures ConflictsOf(inp) == InvalidIssues(inp.snapshot.rules)
                                + OpposedIssues(inp.snapshot.rules, Sort(StringLe, Tuples(inp.snapshot.rules)))
                                + RevisionIssues(inp)
  {
    hide Sort, Tuples, InvalidIssues, OpposedIssues, RevisionIssues;
  }

  method RevisionIssue(inp: PlanInput) returns (issues: seq<Issue>)
    ensures issues == RevisionIssues(inp)
  {
    hide Trim;
    issues := [];
    if Tencent(inp.cloudType) && Trim(inp.snapshot.revision) == "" {
      issues := [Issue(SnapshotIncomplete, None, "", 0, NoSubject)];
    }
  }

  // ---------------------------------------------------------------- 3) coverage

  lemma {:induction false} HoldersCover(rules: seq<RuleInfo>, tag: string, k: Key)
    ensures (Holders(rules, tag, true, k) != [] || Holders(rules, tag, false, k) != []) <==> Covers(rules, k)
  {
    hide SnapshotRuleKeys, IsOwned, KeysOf;
    if rules != [] {
      var init, last := rules[..|rules| - 1], rules[|rules| - 1];
      assert forall r :: r in rules <==> r in init || r == last;
      HoldersCover(init, tag, k);
      CopiesExact(KeysOf(last), k, last);
    }
  }

  lemma IndexedHolders(ix: SnapshotIndex, rules: seq<RuleInfo>, tag: string, k: Key)
    requires Indexed(ix, rules, tag)
    ensures At(ix.ownedIndex, k) == Holders(rules, tag, true, k) && At(ix.externalIndex, k) == Holders(rules, tag, false, k)
  {
    hide Holders, SnapshotRuleKeys;
  }

  method Coverage(inp: PlanInput, ix: SnapshotIndex, desired: seq<PlannedRule>)
    returns (byOwned: seq<PlanMatch>, byExternal: seq<PlanMatch>, toAdd: seq<RuleAction>, ready: bool)
    requires Indexed(ix, inp.snapshot.rules, inp.tag)
    ensures byOwned == MatchesOf(inp.snapshot.rules, inp.tag, desired, true)
    ensures byExternal == MatchesOf(inp.snapshot.rules, inp.tag, desired, false)
    ensures toAdd == ToAddOf(inp.snapshot.rules, desired)
    ensures ready == CoverageReadyOf(inp, desired)
  {
    hide SnapshotRuleKeys, IsOwned, TupleOf, Holders, Covers, Indexed, At;
    var rules := inp.snapshot.rules;
    byOwned, byExternal, toAdd := [], [], [];
    var implementable, covered := 0, 0;
    for i := 0 to |desired|
      invariant byOwned == MatchesOf(rules, inp.tag, desired[..i], true)
      invariant byExternal == MatchesOf(rules, inp.tag, desired[..i], false)
      invariant toAdd == ToAddOf(rules, desired[..i])
      invariant 0 <= covered <= implementable
      invariant implementable > 0 <==> exists d :: d in desired[..i] && d.implementable
      invariant covered == implementable <==> forall d :: d in desired[..i] && d.implementable ==> Covers(rules, d.key)
    {
      var d := desired[i];
      assert desired[..i + 1][..i] == desired[..i];
      assert forall x :: x in desired[..i + 1] <==> x in desired[..i] || x == d;
      HoldersCover(rules, inp.tag, d.key);
      IndexedHolders(ix, rules, inp.tag, d.key);
      if d.implementable {
        implementable := implementable + 1;
      }
      var holders := At(ix.ownedIndex, d.key);
      if |holders| > 0 {
        byOwned := byOwned + [PlanMatch(d.key, holders[0].description, holders)];
        if d.implementable {
          covered := covered + 1;
        }
        continue;
      }
      holders := At(ix.externalIndex, d.key);
      if |holders| > 0 {
        byExternal := byExternal + [PlanMatch(d.key, holders[0].description, holders)];
        if d.implementable {
          covered := covered + 1;
        }
        continue;
      }
      if d.implementable {
        toAdd := toAdd + [d.action];
      }
    }
    assert desired[..|desired|] == desired;
    ready := implementable > 0 && covered == implementable && !inp.addStateUnknown;
  }

  // ---------------------------------------------------------------- 4) candidates

  method FindCandidates(inp: PlanInput, ix: SnapshotIndex, desired: seq<PlannedRule>) returns (candidates: seq<RuleInfo>)
    requires Indexed(ix, inp.snapshot.rules, inp.tag)
    ensures candidates == CandidatesOf(inp.snapshot.rules, inp.tag, DesiredKeys(desired))
  {
    hide SnapshotRuleKeys, IsOwned, TupleOf, Holders;
    var rules := inp.snapshot.rules;
    var desiredKeys: set<Key> := {};
    for i := 0 to |desired|
      invariant desiredKeys == DesiredKeys(desired[..i])
    {
      assert forall x :: x in desired[..i + 1] <==> x in desired[..i] || x == desired[i];
      desiredKeys := desiredKeys + {desired[i].key};
    }
    assert desired[..|desired|] == desired;
    candidates := [];
    for i := 0 to |rules|
      invariant candidates == CandidatesOf(rules[..i], inp.tag, desiredKeys)
    {
      assert rules[..i + 1][..i] == rules[..i];
      if ix.owned[i] && |ix.keys[i]| > 0 {
        var allAbsent := true;
        var j := 0;
        while j < |ix.keys[i]| && allAbsent
          invariant 0 <= j <= |ix.keys[i]|
          invariant allAbsent <==> forall k :: k in ix.keys[i][..j] ==> k !in desiredKeys
        {
          assert forall x :: x in ix.keys[i][..j + 1] <==> x in ix.keys[i][..j] || x == ix.keys[i][j];
          if ix.keys[i][j] in desiredKeys {
            allAbsent := false;
          }
          j := j + 1;
        }
        assert ix.keys[i][..|ix.keys[i]|] == ix.keys[i];
        assert allAbsent <==> forall k :: k in ix.keys[i] ==> k !in desiredKeys by {
          if !allAbsent {
            var k :| k in ix.keys[i][..j] && k in desiredKeys;
            assert k in ix.keys[i];
          }
        }
        if allAbsent {
          candidates := candidates + [rules[i]];
        }
      }
    }
    assert rules[..|rules|] == rules;
  }

  // ------------------------------------------------------------- 5) cleanup gate

  method DistinctIssueCodes(issues: seq<Issue>) returns (codes: seq<IssueCode>)
    ensures codes == DistinctCodes(issues)
  {
    codes := [];
    var seen: set<IssueCode> := {};
    for i := 0 to |issues|
      invariant codes == CodesSeen([], issues[..i])
      invariant forall c :: c in seen <==> c in codes
    {
      assert issues[..i + 1][..i] == issues[..i];
      if issues[i].code !in seen {
        seen := seen + {issues[i].code};
        codes := codes + [issues[i].code];
      }
    }
    assert issues[..|issues|] == issues;
    codes := Sort(CodeLe, codes);
  }

  method AppendCodes(issues: seq<Issue>, from: seq<Issue>) returns (out: seq<Issue>)
    ensures out == issues + CodeIssues(DistinctCodes(from))
  {
    hide DistinctCodes;
    var codes := DistinctIssueCodes(from);
    out := issues;
    for i := 0 to |codes|
      invariant out == issues + CodeIssues(codes)[..i]
    {
      out := out + [Issue(codes[i], None, "", 0, NoSubject)];
    }
  }

  method Gate(desired: seq<PlannedRule>, dnsErrors: seq<Issue>, unsupported: seq<Issue>, conflicts: seq<Issue>, ready: bool)
    returns (issues: seq<Issue>)
    ensures issues == GateIssues(desired, dnsErrors, unsupported, conflicts, ready)
  {
    hide DistinctCodes, CodeIssues;
    issues := [];
    if |desired| == 0 {
      issues := issues + [Issue(DesiredEmpty, None, "", 0, NoSubject)];
    }
    if |dnsErrors| > 0 {
      issues := issues + [Issue(DNSFailed, None, "", 0, Counts(|dnsErrors|))];
    }
    issues := AppendCodes(issues, unsupported);
    issues := AppendCodes(issues, conflicts);
    if !ready {
      issues := issues + [Issue(CoverageNotReady, None, "", 0, NoSubject)];
    }
  }

  method CleanupLocatorIssue(inp: PlanInput, ix: SnapshotIndex, r: RuleInfo, keys: seq<Key>)
    returns (problem: Option<IssueCode>)
    requires Indexed(ix, inp.snapshot.rules, inp.tag) && keys == KeysOf(r)
    ensures problem == LocatorProblem(inp.cloudType, inp.snapshot.rules, inp.tag, r)
  {
    hide SnapshotRuleKeys, IsOwned, TupleOf, Holders, ParseInt64, Trim;
    match inp.cloudType
    case TCLighthouse =>
      for i := 0 to |keys|
        invariant forall j :: 0 <= j < i ==> |At(ix.ownedIndex, keys[j])| == 1 && |At(ix.externalIndex, keys[j])| == 0
      {
        if |At(ix.ownedIndex, keys[i])| != 1 || |At(ix.externalIndex, keys[i])| != 0 {
          assert keys[i] in KeysOf(r);
          return Some(OwnedKeyAmbiguous);
        }
      }
      return None;
    case TCCVM =>
      if ParseInt64(Trim(r.policyIndex)).None? {
        return Some(OwnedLocatorMissing);
      }
      return None;
    case _ =>
      if Trim(r.ruleID) == "" {
        return Some(OwnedLocatorMissing);
      }
      return None;
  }

  method LocateCandidates(inp: PlanInput, ix: SnapshotIndex, candidates: seq<RuleInfo>, gate: seq<Issue>)
    returns (deletable: seq<RuleInfo>, deferred: seq<Issue>)
    requires Indexed(ix, inp.snapshot.rules, inp.tag)
    ensures deletable == if gate == [] then Locatable(inp, candidates) else []
    ensures deferred == gate + LocatorIssues(inp, candidates)
  {
    hide KeysOf, SnapshotRuleKeys, Indexed, LocatorProblem;
    deletable, deferred := [], gate;
    for i := 0 to |candidates|
      invariant deletable == if gate == [] then Locatable(inp, candidates[..i]) else []
      invariant deferred == gate + LocatorIssues(inp, candidates[..i])
    {
      assert candidates[..i + 1][..i] == candidates[..i];
      var r := candidates[i];
      var keys := KeysOf(r);
      var problem := CleanupLocatorIssue(inp, ix, r, keys);
      if problem.Some? {
        deferred := deferred + [LocatorIssue(problem.value, r)];
      } else if |gate| == 0 {
        deletable := deletable + [r];
      }
    }
    assert candidates[..|candidates|] == candidates;
  }

  /** The planner. */
  method PlanTarget(inp: PlanInput) returns (plan: TargetPlan)
    ensures plan == PlanSpec(inp)
  {
    hide Consistent, AllItems, AllDNSIssues, RenderedAll, ConflictsOf, CandidatesOf, GateIssues, LocatorIssues, Locatable,
         MatchesOf, ToAddOf, CoverageReadyOf, Fold;
    var rules := Sort(RuleIDLe, inp.rules);
    var st, dnsErrors := AddRules(inp, rules);
    assert st.desired == MergedOf(inp).desired && st.unsupported == MergedOf(inp).unsupported by {
      ConsistentLists(st, MergedOf(inp));
    }
    var desired := RenderAndSort(inp, st.desired);
    var ix := IndexSnapshot(inp.snapshot.rules, inp.tag);
    var conflicts := FindConflicts(inp, ix);
    var byOwned, byExternal, toAdd, ready := Coverage(inp, ix, desired);
    var candidates := FindCandidates(inp, ix, desired);
    var gate := Gate(desired, dnsErrors, st.unsupported, conflicts, ready);
    var deletable, deferred := LocateCandidates(inp, ix, candidates, gate);
    plan := TargetPlan(desired, byOwned, byExternal, toAdd, candidates, deletable, Sort(IssueLe, deferred),
                       Sort(IssueLe, dnsErrors), Sort(IssueLe, st.unsupported), Sort(IssueLe, conflicts), ready);
  }

  lemma ConsistentLists(st: State, m: Merged)
    requires Consistent(st, m)
    ensures st.desired == m.desired && st.unsupported == m.unsupported
  {
  }
}
