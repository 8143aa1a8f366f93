/** What one attempt of a target sync may do to a cloud, and what follows from it: nothing but stale rules
    of the own TAG disappears, unless somebody edits a rule under the ID it is about to be deleted by, access
    is never lost, and a settled cloud is left alone. `Target` proves that the sync of syncer/target.go takes
    only such steps. */
module TargetSafety {
  import opened Text
  import opened Tag
  import opened Ports
  import opened PortRoundTrip
  import opened Keys
  import opened Bindings
  import opened Plan
  import opened PlanFacts
  import opened PlanTheorems
  import opened PlanCleanup
  import opened Validate
  import opened Wire
  import opened CloudAPI
  import opened Providers

  /** One reading of the cloud: the snapshot, the revision it was taken at, and the instant it arrived. */
  datatype Reading = Reading(snapshot: RuleSnapshot, v: Stamp, at: Moment)

  /** One attempt: what was wanted, and the readings as far as the attempt got. */
  datatype AttemptLog = AttemptLog(wanted: PlanInput, s0: Option<Reading>, s1: Option<Reading>, s2: Option<Reading>)

  function At(wanted: PlanInput, s: RuleSnapshot): PlanInput { wanted.(snapshot := s) }

  function PlannedAdditions(log: AttemptLog): seq<RuleAction> {
    if log.s0.None? then [] else PlanSpec(At(log.wanted, log.s0.value.snapshot)).toAdd
  }

  function PlannedDeletions(log: AttemptLog): seq<RuleInfo> {
    if log.s1.None? then [] else PlanSpec(At(log.wanted, log.s1.value.snapshot)).cleanupDeletable
  }

  ghost predicate OnlyStale(taken: multiset<RuleInfo>, stale: seq<RuleInfo>) {
    forall b :: b in taken ==> exists r :: r in stale && Body(r) == b
  }

  /** Under a version guard only rules of the list disappear; by ID, whatever the IDs of the list name. */
  ghost predicate TakesOnly(ct: CloudType, a: Moment, b: Moment, stale: seq<RuleInfo>) {
    if Tencent(ct) then b.strikes == a.strikes && OnlyStale(Taken(a, b), stale) else TookStruck(a, b, NamedIDs(stale))
  }

  ghost predicate ReadBetween(ct: CloudType, a: Moment, r: Reading, b: Moment) {
    Later(a, r.at) && Later(r.at, b) && Seen(ct, r.at, r.snapshot, r.v) && |a.bindings| <= r.v.since
  }

  /** Nothing was taken out between two instants. */
  predicate SameRemovals(a: Moment, b: Moment) { b.removed == a.removed && b.strikes == a.strikes }

  /** From `a` to `b` the attempt added only what its plan on S0 asks for, then read S1, then removed only
      what its plan on S1 names. */
  ghost predicate AttemptStep(ct: CloudType, a: Moment, b: Moment, log: AttemptLog) {
    && ct == log.wanted.cloudType
    && Later(a, b)
    && OnlyFrom(ct, Put(a, b), PlannedAdditions(log))
    && TakesOnly(ct, a, b, PlannedDeletions(log))
    && (log.s0.Some? ==> ReadBetween(ct, a, log.s0.value, b)
                         && log.s0.value.at.added == a.added && SameRemovals(a, log.s0.value.at))
    && (log.s1.Some? ==> log.s0.Some? && ReadBetween(ct, log.s0.value.at, log.s1.value, b)
                         && log.s1.value.at.added == b.added && SameRemovals(a, log.s1.value.at))
    && (log.s2.Some? ==> log.s1.Some? && ReadBetween(ct, log.s1.value.at, log.s2.value, b)
                         && log.s2.value.at.added == b.added && SameRemovals(log.s2.value.at, b))
  }

  // ------------------------------------------------------------------ what is removed

  lemma BodyKeepsKeys(r: RuleInfo)
    ensures KeysOf(Body(r)) == KeysOf(r) && Body(r).description == r.description && Body(Body(r)) == Body(r)
  {
    KeysIgnoreIdentity(Body(r), r);
  }

  /** A rule of the own TAG that serves no wish. */
  ghost predicate StaleFor(wanted: PlanInput, x: RuleInfo) {
    IsOwned(x.description, wanted.tag) && forall k :: k in KeysOf(x) ==> k !in DesiredKeys(DesiredOf(wanted))
  }

  lemma PlannedIsStale(log: AttemptLog, r: RuleInfo)
    requires r in PlannedDeletions(log)
    ensures log.s1.Some? && r in log.s1.value.snapshot.rules && StaleFor(log.wanted, Body(r))
    ensures Alibaba(log.wanted.cloudType) ==> HasID(r)
    ensures forall d :: d in DesiredOf(log.wanted) ==> d.implementable && Covers(log.s1.value.snapshot.rules, d.key)
  {
    hide PlanSpec, DesiredOf, KeysOf, IsOwned, Covers, Body, GateOpen, IsCandidate;
    var inp := At(log.wanted, log.s1.value.snapshot);
    DeletableIsStale(inp, r);
    DeletableExact(inp, r);
    DesiredIgnoresSnapshot(log.wanted, inp);
    BodyKeepsKeys(r);
  }

  /** Before strike `i`, but after the reading of S1 began, somebody edited the rule behind its ID, and what
      the last such edit made of it is not stale. What a caller can rely on is the first half: where no ID was
      rebound since S1 nothing is rebound to a live rule, and `UndisturbedIDs` says when that is sure. */
  ghost predicate ReboundToLive(wanted: PlanInput, since: nat, m: Moment, i: nat)
    requires i < |m.strikes|
  {
    var x := m.strikes[i];
    exists e: nat :: since <= e && LastBinding(m.bindings, x.at, x.id, e) && !StaleFor(wanted, m.bindings[e].body)
  }

  ghost predicate NoneRebound(a: Moment, b: Moment, log: AttemptLog) {
    log.s1.Some? ==>
      forall i :: |a.strikes| <= i < |b.strikes| ==> !ReboundToLive(log.wanted, log.s1.value.v.since, b, i)
  }

  /** What a strike of an attempt is about: a planned deletion, seen on S1 under the ID, and the binding the
      strike met. */
  lemma StrikeFacts(ct: CloudType, a: Moment, b: Moment, log: AttemptLog, i: nat) returns (r: RuleInfo, n: nat, e: nat)
    requires Alibaba(ct) && AttemptStep(ct, a, b, log) && |a.strikes| <= i < |b.strikes|
    ensures log.s1.Some? && r in PlannedDeletions(log)
    ensures var (x, since) := (b.strikes[i], log.s1.value.v.since);
            && LastBinding(b.bindings, x.at, x.id, e) && b.bindings[e].body == x.body
            && |a.bindings| <= since <= n <= x.at && BoundAt(b.bindings, n, x.id, Body(r))
  {
    hide PlanSpec, DesiredOf, OnlyFrom, Balanced, Body, PlannedDeletions, PlannedAdditions, StruckBodies, StaleFor, HasID, RevisionText;
    var x := b.strikes[i];
    IDsOf(PlannedDeletions(log), x.id);
    r :| r in PlannedDeletions(log) && r.ruleID == x.id;
    PlannedIsStale(log, r);
    var s1 := log.s1.value;
    assert SeenIDs(s1.at.bindings, s1.v.since, s1.snapshot.rules);
    n :| s1.v.since <= n && BoundAt(s1.at.bindings, n, r.ruleID, Body(r));
    assert b.bindings[..n] == s1.at.bindings[..n];
    assert |s1.at.bindings| <= x.at && BoundAt(b.bindings, x.at, x.id, x.body);
    BoundIsLast(b.bindings, x.at, x.id);
    e :| LastBinding(b.bindings, x.at, x.id, e);
  }

  /** What an attempt takes out by ID is stale, unless its ID was rebound to a live rule, and only then. */
  lemma StruckIsStale(ct: CloudType, a: Moment, b: Moment, log: AttemptLog, i: nat)
    requires Alibaba(ct) && AttemptStep(ct, a, b, log) && |a.strikes| <= i < |b.strikes|
    ensures log.s1.Some?
    ensures StaleFor(log.wanted, b.strikes[i].body) <==> !ReboundToLive(log.wanted, log.s1.value.v.since, b, i)
  {
    hide AttemptStep, PlannedDeletions, StaleFor, Body;
    var r, n, e := StrikeFacts(ct, a, b, log, i);
    var x := b.strikes[i];
    PlannedIsStale(log, r);
    BoundIsLast(b.bindings, x.at, x.id);
    if e < log.s1.value.v.since {
      assert LastBinding(b.bindings, n, x.id, e);
      BoundIsLast(b.bindings, n, x.id);
      assert x.body == Body(r);
    }
  }

  /** While nobody else changes the cloud no ID is rebound. */
  lemma UndisturbedIDs(ct: CloudType, a: Moment, b: Moment, log: AttemptLog)
    requires Alibaba(ct) && AttemptStep(ct, a, b, log) && b.foreign == a.foreign
    ensures NoneRebound(a, b, log)
  {
    hide AttemptStep, PlannedDeletions, StaleFor, Body, Balanced;
    forall i | log.s1.Some? && |a.strikes| <= i < |b.strikes| ensures !ReboundToLive(log.wanted, log.s1.value.v.since, b, i) {
      var r, n, _ := StrikeFacts(ct, a, b, log, i);
      var x := b.strikes[i];
      PlannedIsStale(log, r);
      assert OnlyNewIDs(a.bindings, b.bindings) by { AttemptKeepsBooks(ct, a, b, log); }
      assert b.bindings[..|a.bindings|] == a.bindings;
      if ReboundToLive(log.wanted, log.s1.value.v.since, b, i) {
        var e: nat :| log.s1.value.v.since <= e && LastBinding(b.bindings, x.at, x.id, e) && !StaleFor(log.wanted, b.bindings[e].body);
        if e < n {
          assert LastBinding(b.bindings, n, x.id, e);
          BoundIsLast(b.bindings, n, x.id);
        } else {
          BoundForGood(b.bindings, |a.bindings|, n, e, x.id);
        }
      }
    }
  }

  lemma AttemptKeepsBooks(ct: CloudType, a: Moment, b: Moment, log: AttemptLog)
    requires AttemptStep(ct, a, b, log)
    ensures Booked(a, b)
  {
    hide OnlyFrom, TakesOnly, ReadBetween, Booked, Balanced;
  }

  lemma TakenWasStruck(a: Moment, b: Moment, ids: seq<string>, x: RuleInfo)
    requires TookStruck(a, b, ids)
    ensures x in Taken(a, b) <==> exists i :: |a.strikes| <= i < |b.strikes| && b.strikes[i].body == x
  {
    hide Taken;
    var news := b.strikes[|a.strikes|..];
    StruckIs(news, x);
    if x in Taken(a, b) {
      var j :| 0 <= j < |news| && news[j].body == x;
      assert b.strikes[|a.strikes| + j].body == x;
    }
    if i :| |a.strikes| <= i < |b.strikes| && b.strikes[i].body == x {
      assert news[i - |a.strikes|].body == x;
    }
  }

  lemma AttemptTakes(ct: CloudType, a: Moment, b: Moment, log: AttemptLog)
    requires AttemptStep(ct, a, b, log)
    ensures TakesOnly(ct, a, b, PlannedDeletions(log))
  {
    hide Later, OnlyFrom, TakesOnly, ReadBetween;
  }

  ghost predicate AllStale(a: Moment, b: Moment, log: AttemptLog) {
    forall x :: x in Taken(a, b) ==> StaleFor(log.wanted, x)
  }

  /** On Alibaba everything an attempt removes is stale for it if and only if none of the IDs it struck had
      been rebound to a live rule since the reading of S1 began. */
  lemma StaleExactly(ct: CloudType, a: Moment, b: Moment, log: AttemptLog)
    requires Alibaba(ct) && AttemptStep(ct, a, b, log)
    ensures AllStale(a, b, log) <==> NoneRebound(a, b, log)
  {
    hide AttemptStep, PlannedDeletions, StaleFor, ReboundToLive, Taken, StruckBodies;
    AttemptTakes(ct, a, b, log);
    forall x ensures x in Taken(a, b) <==> exists i :: |a.strikes| <= i < |b.strikes| && b.strikes[i].body == x {
      TakenWasStruck(a, b, NamedIDs(PlannedDeletions(log)), x);
    }
    forall i | |a.strikes| <= i < |b.strikes|
      ensures log.s1.Some?
              && (StaleFor(log.wanted, b.strikes[i].body) <==> !ReboundToLive(log.wanted, log.s1.value.v.since, b, i))
              && b.strikes[i].body in Taken(a, b)
    {
      StruckIsStale(ct, a, b, log, i);
    }
    if !NoneRebound(a, b, log) {
      var i :| |a.strikes| <= i < |b.strikes| && ReboundToLive(log.wanted, log.s1.value.v.since, b, i);
      assert b.strikes[i].body in Taken(a, b) && !StaleFor(log.wanted, b.strikes[i].body);
    }
  }

  /** Whatever fails or interferes, an attempt removes only stale rules: always where a version guards the
      request, and on Alibaba as long as nobody rebinds the IDs it is deleting by. */
  lemma OnlyStaleIsRemoved(ct: CloudType, a: Moment, b: Moment, log: AttemptLog, x: RuleInfo)
    requires AttemptStep(ct, a, b, log) && x in Taken(a, b)
    requires Tencent(ct) || NoneRebound(a, b, log)
    ensures IsOwned(x.description, log.wanted.tag)
    ensures forall k :: k in KeysOf(x) ==> k !in DesiredKeys(DesiredOf(log.wanted))
  {
    hide AttemptStep, PlanSpec, DesiredOf, KeysOf, IsOwned, Taken, Body, NoneRebound;
    AttemptTakes(ct, a, b, log);
    if Tencent(ct) {
      var r :| r in PlannedDeletions(log) && Body(r) == x;
      PlannedIsStale(log, r);
    } else {
      StaleExactly(ct, a, b, log);
      assert StaleFor(log.wanted, x);
    }
  }

  /** Nothing at all is removed before an S1 in which every expectation can be met and is met. */
  lemma RemovalNeedsCoverage(ct: CloudType, a: Moment, b: Moment, log: AttemptLog, x: RuleInfo)
    requires AttemptStep(ct, a, b, log) && x in Taken(a, b)
    ensures log.s1.Some?
    ensures forall d :: d in DesiredOf(log.wanted) ==> d.implementable && Covers(log.s1.value.snapshot.rules, d.key)
  {
    hide AttemptStep, PlanSpec, DesiredOf, Taken, Body, Covers, PlannedDeletions, StaleFor, StruckBodies;
    AttemptTakes(ct, a, b, log);
    if Tencent(ct) {
      var r :| r in PlannedDeletions(log) && Body(r) == x;
      PlannedIsStale(log, r);
    } else {
      TakenWasStruck(a, b, NamedIDs(PlannedDeletions(log)), x);
      var i :| |a.strikes| <= i < |b.strikes| && b.strikes[i].body == x;
      var r, _, _ := StrikeFacts(ct, a, b, log, i);
      PlannedIsStale(log, r);
    }
  }

  lemma CoveredByBody(rules: seq<RuleInfo>, k: Key)
    ensures Covers(rules, k) <==> exists x :: x in multiset(Bodies(rules)) && k in KeysOf(x)
  {
    hide KeysOf, Body;
    var bs := Bodies(rules);
    forall i | 0 <= i < |rules| ensures KeysOf(bs[i]) == KeysOf(rules[i]) { BodyKeepsKeys(rules[i]); }
    if Covers(rules, k) {
      var r :| r in rules && k in KeysOf(r);
      var i :| 0 <= i < |rules| && rules[i] == r;
      assert bs[i] in multiset(bs);
    }
    if exists x :: x in multiset(bs) && k in KeysOf(x) {
      var x :| x in multiset(bs) && k in KeysOf(x);
      var i :| 0 <= i < |bs| && bs[i] == x;
      assert rules[i] in rules;
    }
  }

  lemma CoveredByContents(m: Moment, k: Key)
    ensures Covers(m.view, k) <==> exists x :: x in Contents(m) && k in KeysOf(x)
  {
    hide KeysOf, Covers, Bodies;
    CoveredByBody(m.view, k);
  }

  /** A rule that is not stale for this attempt is never fewer afterwards, as long as nobody else removes
      rules. */
  lemma OthersStay(ct: CloudType, a: Moment, b: Moment, log: AttemptLog, x: RuleInfo)
    requires AttemptStep(ct, a, b, log) && b.foreign == a.foreign
    requires !IsOwned(x.description, log.wanted.tag) || exists k :: k in KeysOf(x) && k in DesiredKeys(DesiredOf(log.wanted))
    ensures Contents(b)[x] >= Contents(a)[x] && b.removed[x] == a.removed[x]
  {
    hide DesiredOf, KeysOf, IsOwned, OnlyFrom, TakesOnly, Contents, PlannedAdditions, PlannedDeletions, ReadBetween, NoneRebound, Booked;
    if Alibaba(ct) { UndisturbedIDs(ct, a, b, log); }
    if x in Taken(a, b) { OnlyStaleIsRemoved(ct, a, b, log, x); }
    assert Later(a, b) && a.removed[x] <= b.removed[x] && a.added[x] <= b.added[x];
    assert (Contents(b) + b.removed + a.added)[x] == (Contents(a) + a.removed + b.added)[x];
  }

  /** Access is never lost: on a cloud that only this tool changes, an expected key that is covered when
      an attempt starts is covered when it ends, whatever failed or half-applied in between. */
  lemma AccessIsKept(ct: CloudType, a: Moment, b: Moment, log: AttemptLog, k: Key)
    requires AttemptStep(ct, a, b, log) && b.foreign == a.foreign
    requires k in DesiredKeys(DesiredOf(log.wanted)) && Covers(a.view, k)
    ensures Covers(b.view, k)
  {
    hide DesiredOf, KeysOf, IsOwned, AttemptStep, Covers, Contents;
    CoveredByContents(a, k);
    var x :| x in Contents(a) && k in KeysOf(x);
    OthersStay(ct, a, b, log, x);
    assert x in Contents(b);
    CoveredByContents(b, k);
  }

  // -------------------------------------------------------------------- what is added

  lemma StoredForFits(inp: PlanInput, d: PlannedRule)
    requires NormalInput(inp) && d in DesiredOf(inp) && d.implementable
    requires forall r :: r in inp.rules ==> PortsComeBack(inp.cloudType, r.ports)
    ensures KeysOf(StoredFor(inp.cloudType, d.action)) == [d.key]
    ensures StoredFor(inp.cloudType, d.action).description == d.action.description
  {
    hide DesiredOf, SnapshotRuleKeys, PortsComeBack, Normal, Encode, Decode, Stored;
    WireRoundTrip(inp, d);
    var r := Decode(inp.cloudType, CloudRule(Stored(Encode(inp.cloudType, d.action)), "", None));
    assert SnapshotRuleKeys(r) == Some([d.key]) && r.description == d.action.description;
    BodyKeepsKeys(r);
  }

  lemma StoredDescription(ct: CloudType, a: RuleAction)
    ensures StoredFor(ct, a).description == a.description
  {
    hide EqualFold, Upper, Lower, NormalizeAliPort;
  }

  /** What an attempt adds carries the own TAG. */
  lemma AddedIsOwned(ct: CloudType, a: Moment, b: Moment, log: AttemptLog, x: RuleInfo)
    requires AttemptStep(ct, a, b, log) && x in Put(a, b) && ']' !in log.wanted.tag
    ensures IsOwned(x.description, log.wanted.tag)
  {
    hide PlanSpec, DesiredOf, IsOwned, Later, Put, Taken, TakesOnly, ReadBetween, StoredFor, WellMade, AllItems, Covers;
    assert OnlyFrom(ct, Put(a, b), PlannedAdditions(log));
    var act :| act in PlannedAdditions(log) && StoredFor(ct, act) == x;
    var inp := At(log.wanted, log.s0.value.snapshot);
    PlanParts(inp);
    ToAddExact(inp.snapshot.rules, DesiredOf(inp), act);
    var d :| d in DesiredOf(inp) && d.implementable && !Covers(inp.snapshot.rules, d.key) && d.action == act;
    DesiredEntryFits(inp, d);
    StoredDescription(ct, act);
  }

  /** Two syncers with different accepted TAGs on one cloud, in any interleaving: an attempt of one removes a
      rule the other added only where no version guards its request, and there exactly if somebody rebinds an
      ID it is deleting by to that very rule. */
  lemma SyncersLeaveEachOtherAlone(ct: CloudType, a: Moment, b: Moment, mine: AttemptLog, ct': CloudType, a': Moment,
                                   b': Moment, other: AttemptLog, x: RuleInfo)
    requires AttemptStep(ct, a, b, mine) && AttemptStep(ct', a', b', other)
    requires NormalizeTag(mine.wanted.tag) == Some(mine.wanted.tag) && NormalizeTag(other.wanted.tag) == Some(other.wanted.tag)
    requires mine.wanted.tag != other.wanted.tag
    requires x in Put(a, b)
    ensures Tencent(ct') ==> x !in Taken(a', b')
    ensures Alibaba(ct') ==>
              (x in Taken(a', b')
               <==> other.s1.Some? && exists i :: |a'.strikes| <= i < |b'.strikes| && b'.strikes[i].body == x
                                                  && ReboundToLive(other.wanted, other.s1.value.v.since, b', i))
  {
    hide AttemptStep, IsOwned, Put, Taken, ReboundToLive, NoneRebound, PlannedDeletions, StruckBodies, KeysOf, DesiredOf;
    AcceptedTagsHaveNoBracket(mine.wanted.tag);
    AcceptedTagsHaveNoBracket(other.wanted.tag);
    AddedIsOwned(ct, a, b, mine, x);
    if IsOwned(x.description, other.wanted.tag) {
      OwnerIsUnique(x.description, mine.wanted.tag, other.wanted.tag);
    }
    assert !StaleFor(other.wanted, x);
    if Tencent(ct') {
      if x in Taken(a', b') { OnlyStaleIsRemoved(ct', a', b', other, x); }
    } else {
      AttemptTakes(ct', a', b', other);
      TakenWasStruck(a', b', NamedIDs(PlannedDeletions(other)), x);
      forall i | |a'.strikes| <= i < |b'.strikes| && b'.strikes[i].body == x
        ensures other.s1.Some? && ReboundToLive(other.wanted, other.s1.value.v.since, b', i)
      {
        StruckIsStale(ct', a', b', other, i);
      }
    }
  }

  lemma AcceptedTagsHaveNoBracket(tag: string)
    requires NormalizeTag(tag) == Some(tag)
    ensures ']' !in tag
  {
  }
}
