/** `CreateRules` and `DeleteRules` of the four providers over the cloud's API: version guards, batches
    with partial progress, local refusals (provider/tc_lighthouse.go, tc_cvm.go, ali_ecs.go,
    ali_swas.go). */
module Providers {
  import opened Text
  import opened Tag
  import opened Ports
  import opened Keys
  import opened Bindings
  import opened Plan
  import opened PlanCleanup
  import opened Wire
  import opened CloudAPI

  datatype CreateResult = CreateResult(written: nat, skipped: nat)
  datatype DeleteResult = DeleteResult(deleted: nat, resolved: nat)

  /** The errors a provider call can return. */
  datatype ProviderError = API(failure: Failure) | Incomplete | Refused | PartialDelete(deleted: nat, cause: Failure)

  ghost predicate WellClassified(e: ProviderError) {
    (e.API? ==> Classified(e.failure)) && (e.PartialDelete? ==> Classified(e.cause) && e.deleted > 0)
  }

  const CVM_LIMIT: nat := 100

  function EncodeAll(ct: CloudType, actions: seq<RuleAction>): (ws: seq<WireRule>)
    ensures |ws| == |actions| && forall i :: 0 <= i < |ws| ==> ws[i] == Encode(ct, actions[i])
  {
    seq(|actions|, i requires 0 <= i < |actions| => Encode(ct, actions[i]))
  }

  /** What a platform stores for a planned rule. */
  function StoredFor(ct: CloudType, a: RuleAction): RuleInfo { StoredBody(ct, Encode(ct, a)) }

  /** SWAS has no way to say DROP; the planner never plans one there. */
  predicate Skipped(ct: CloudType, a: RuleAction) { ct == AliSWAS && EqualFold(a.action, "DROP") }

  /** How many rules a create call leaves out. */
  function SkippedCount(ct: CloudType, actions: seq<RuleAction>): (n: nat)
    ensures n <= |actions|
  {
    if actions == [] then 0
    else SkippedCount(ct, actions[..|actions| - 1]) + if Skipped(ct, actions[|actions| - 1]) then 1 else 0
  }

  // --------------------------------------------------------------------- creating

  ghost predicate OnlyFrom(ct: CloudType, put: multiset<RuleInfo>, actions: seq<RuleAction>) {
    forall b :: b in put ==> exists a :: a in actions && !Skipped(ct, a) && StoredFor(ct, a) == b
  }

  ghost predicate AllIn(ct: CloudType, actions: seq<RuleAction>, put: multiset<RuleInfo>) {
    forall a :: a in actions && !Skipped(ct, a) ==> StoredFor(ct, a) in put
  }

  /** What any create call, complete or not, may have done. */
  ghost predicate CreateStep(ct: CloudType, a: Moment, b: Moment, actions: seq<RuleAction>) {
    Later(a, b) && b.removed == a.removed && b.strikes == a.strikes && b.deletes == a.deletes && OnlyFrom(ct, Put(a, b), actions)
  }

  lemma PutSplits(a: Moment, b: Moment, c: Moment)
    requires Later(a, b) && Later(b, c)
    ensures Put(a, c) == Put(a, b) + Put(b, c) && Taken(a, c) == Taken(a, b) + Taken(b, c)
  {
    hide Balanced;
    forall x ensures Put(a, c)[x] == (Put(a, b) + Put(b, c))[x] && Taken(a, c)[x] == (Taken(a, b) + Taken(b, c))[x] {
      assert a.added[x] <= b.added[x] <= c.added[x] && a.removed[x] <= b.removed[x] <= c.removed[x];
    }
  }

  lemma CreateStepThen(ct: CloudType, a: Moment, b: Moment, c: Moment, actions: seq<RuleAction>)
    requires CreateStep(ct, a, b, actions) && CreateStep(ct, b, c, actions)
    ensures CreateStep(ct, a, c, actions)
  {
    hide StoredFor, Skipped, Balanced, Put;
    assert Later(a, c) by { LaterTransitive(a, b, c); }
    PutSplits(a, b, c);
  }

  lemma AllInJoined(ct: CloudType, a: Moment, b: Moment, c: Moment, done: seq<RuleAction>, batch: seq<RuleAction>)
    requires Later(a, b) && Later(b, c) && AllIn(ct, done, Put(a, b)) && AllIn(ct, batch, Put(b, c))
    ensures AllIn(ct, done + batch, Put(a, c))
  {
    hide StoredFor, Skipped, Later, Put;
    PutSplits(a, b, c);
  }

  lemma StoredElements(ct: CloudType, actions: seq<RuleAction>)
    ensures forall b :: b in multiset(StoredBodies(ct, EncodeAll(ct, actions)))
              <==> exists a :: a in actions && StoredFor(ct, a) == b
  {
    hide Encode, StoredBody;
    var bs := StoredBodies(ct, EncodeAll(ct, actions));
    forall b ensures b in multiset(bs) <==> exists a :: a in actions && StoredFor(ct, a) == b {
      assert b in multiset(bs) <==> b in bs;
      if b in bs {
        var i :| 0 <= i < |bs| && bs[i] == b;
        assert StoredFor(ct, actions[i]) == b;
      }
      if exists a :: a in actions && StoredFor(ct, a) == b {
        var a :| a in actions && StoredFor(ct, a) == b;
        var i :| 0 <= i < |actions| && actions[i] == a;
        assert bs[i] == b;
      }
    }
  }

  /** Sends one create request for `actions`. */
  method CreateBatch(cloud: Cloud, guard: string, actions: seq<RuleAction>) returns (err: Option<Failure>)
    requires cloud.Valid() && forall a :: a in actions ==> !Skipped(cloud.ct, a)
    requires cloud.ct == AliECS ==> |actions| <= ECS_BATCH
    modifies cloud
    ensures cloud.Valid() && CreateStep(cloud.ct, old(cloud.Now()), cloud.Now(), actions)
    ensures cloud.creates == old(cloud.creates) + 1
    ensures err.Some? ==> Classified(err.value)
    ensures Quiet(old(cloud.Now()), cloud.Now()) && (Tencent(cloud.ct) ==> guard == Decimal(old(cloud.revision)))
            ==> err.None? && AllIn(cloud.ct, actions, Put(old(cloud.Now()), cloud.Now()))
  {
    hide Encode, StoredBody, Sound, Skipped, Later, Put, StoredBodies, EncodeAll;
    err := cloud.Create(guard, EncodeAll(cloud.ct, actions));
    StoredElements(cloud.ct, actions);
  }

  lemma NothingCreated(ct: CloudType, a: Moment, actions: seq<RuleAction>)
    ensures CreateStep(ct, a, a, actions) && AllIn(ct, [], Put(a, a))
  {
    hide StoredFor, Skipped, Contents;
  }

  lemma BatchIsPart(ct: CloudType, a: Moment, b: Moment, batch: seq<RuleAction>, actions: seq<RuleAction>)
    requires CreateStep(ct, a, b, batch) && forall x :: x in batch ==> x in actions
    ensures CreateStep(ct, a, b, actions)
  {
    hide StoredFor, Skipped, Put, Later;
  }

  /** How many requests it takes to send `n` entries. */
  function Requests(n: nat): (k: nat)
    ensures n <= k * ECS_BATCH < n + ECS_BATCH
  {
    (n + ECS_BATCH - 1) / ECS_BATCH
  }

  /** The batches of `ali_ecs.go`: what was written is counted even when a later batch fails, whose request was
      the last one. */
  method ECSCreate(cloud: Cloud, actions: seq<RuleAction>) returns (written: nat, err: Option<Failure>)
    requires cloud.ct == AliECS && cloud.Valid()
    modifies cloud
    ensures cloud.Valid() && CreateStep(AliECS, old(cloud.Now()), cloud.Now(), actions)
    ensures err.Some? ==> Classified(err.value)
    ensures written <= |actions|
    ensures var sent := cloud.creates - old(cloud.creates);
            if err.None? then written == |actions| && sent == Requests(|actions|)
            else sent > 0 && written == ECS_BATCH * (sent - 1)
    ensures Quiet(old(cloud.Now()), cloud.Now()) ==> err.None? && AllIn(AliECS, actions, Put(old(cloud.Now()), cloud.Now()))
  {
    hide StoredFor, Sound, Balanced, Booked, Put, OnlyFrom, AllIn, Skipped, EqualFold;
    ghost var start := cloud.Now();
    written, err := 0, None;
    NothingCreated(AliECS, start, actions);
    assert actions[..0] == [];
    while written < |actions|
      invariant written <= |actions| && err.None? && cloud.creates - start.creates == Requests(written)
      invariant written < |actions| ==> written == ECS_BATCH * Requests(written)
      invariant cloud.Valid() && CreateStep(AliECS, start, cloud.Now(), actions)
      invariant Quiet(start, cloud.Now()) ==> AllIn(AliECS, actions[..written], Put(start, cloud.Now()))
    {
      var end := if written + ECS_BATCH > |actions| then |actions| else written + ECS_BATCH;
      var batch := actions[written..end];
      assert forall a :: a in batch ==> a in actions && !Skipped(AliECS, a) by { AllCanBeSent(batch); }
      ghost var before := cloud.Now();
      err := CreateBatch(cloud, "", batch);
      BatchIsPart(AliECS, before, cloud.Now(), batch, actions);
      CreateStepThen(AliECS, start, before, cloud.Now(), actions);
      if err.Some? {
        return;
      }
      if Quiet(start, cloud.Now()) {
        AllInJoined(AliECS, start, before, cloud.Now(), actions[..written], batch);
      }
      assert actions[..end] == actions[..written] + batch;
      written := end;
    }
    assert actions[..written] == actions;
  }

  lemma AllCanBeSent(actions: seq<RuleAction>)
    ensures forall a :: a in actions ==> !Skipped(AliECS, a) && !Skipped(TCCVM, a) && !Skipped(TCLighthouse, a)
  {
  }

  lemma {:induction false} NoneSkipped(ct: CloudType, actions: seq<RuleAction>)
    requires ct != AliSWAS
    ensures SkippedCount(ct, actions) == 0
  {
    if actions != [] { NoneSkipped(ct, actions[..|actions| - 1]); }
  }

  /** SWAS writes one request and reports what it left out. */
  method SWASCreate(cloud: Cloud, actions: seq<RuleAction>) returns (res: CreateResult, err: Option<Failure>)
    requires cloud.ct == AliSWAS && cloud.Valid()
    modifies cloud
    ensures cloud.Valid() && CreateStep(AliSWAS, old(cloud.Now()), cloud.Now(), actions)
    ensures err.Some? ==> Classified(err.value)
    ensures res == if err.None? then CreateResult(|actions| - SkippedCount(AliSWAS, actions), SkippedCount(AliSWAS, actions))
                   else CreateResult(0, 0)
    ensures Quiet(old(cloud.Now()), cloud.Now()) ==> err.None? && AllIn(AliSWAS, actions, Put(old(cloud.Now()), cloud.Now()))
  {
    hide StoredFor, Sound, Later, Put, Skipped, SkippedCount;
    err := None;
    var kept, skipped := KeepSupported(actions);
    NothingCreated(AliSWAS, cloud.Now(), actions);
    if |kept| == 0 {
      return CreateResult(0, skipped), None;
    }
    ghost var before := cloud.Now();
    err := CreateBatch(cloud, "", kept);
    BatchIsPart(AliSWAS, before, cloud.Now(), kept, actions);
    res := if err.Some? then CreateResult(0, 0) else CreateResult(|kept|, skipped);
  }

  /** Drops what SWAS cannot express, and counts it. */
  method KeepSupported(actions: seq<RuleAction>) returns (kept: seq<RuleAction>, skipped: nat)
    ensures |kept| + skipped == |actions| && skipped == SkippedCount(AliSWAS, actions)
    ensures forall a :: a in kept <==> a in actions && !Skipped(AliSWAS, a)
  {
    hide EqualFold;
    kept, skipped := [], 0;
    for i := 0 to |actions|
      invariant |kept| + skipped == i && skipped == SkippedCount(AliSWAS, actions[..i])
      invariant forall a :: a in kept <==> a in actions[..i] && !Skipped(AliSWAS, a)
    {
      assert forall a :: a in actions[..i + 1] <==> a in actions[..i] || a == actions[i];
      assert actions[..i + 1][..i] == actions[..i];
      if EqualFold(actions[i].action, "DROP") {
        skipped := skipped + 1;
      } else {
        kept := kept + [actions[i]];
      }
    }
    assert actions[..|actions|] == actions;
  }

  /** The rules of a security group by the larger of list length and stated statistics. */
  function Total(listed: nat, stated: Option<nat>): nat {
    if stated.Some? && stated.value > listed then stated.value else listed
  }

  /** The local protection limit of a CVM security group; it reads, never writes, and refuses exactly when the
      limit would be exceeded. `stated` are the statistics the cloud gave. */
  method CheckRuleLimit(cloud: Cloud, toAdd: nat) returns (err: Option<ProviderError>, ghost stated: Option<nat>)
    requires cloud.Valid()
    modifies cloud
    ensures cloud.Valid() && Later(old(cloud.Now()), cloud.Now())
    ensures unchanged(cloud`added, cloud`removed, cloud`strikes, cloud`creates, cloud`deletes)
    ensures cloud.foreign == old(cloud.foreign) ==> cloud.revision == old(cloud.revision)
    ensures err.Some? ==> WellClassified(err.value) && !err.value.PartialDelete?
    ensures err.Some? ==> cloud.faults > old(cloud.faults) || err.value.Refused?
    ensures Quiet(old(cloud.Now()), cloud.Now())
            ==> err == if Total(|old(cloud.Now().view)|, stated) + toAdd > CVM_LIMIT then Some(Refused) else None
  {
    hide Sound, Later, RevisionText, KnownIDs;
    ghost var v;
    var read;
    read, v := cloud.Describe();
    stated := None;
    if read.Unread? {
      return Some(API(read.failure)), None;
    }
    var total := |read.snapshot.rules|;
    var statistics := cloud.Statistics();
    stated := statistics;
    if statistics.Some? && statistics.value > total {
      total := statistics.value;
    }
    err := if total + toAdd > CVM_LIMIT then Some(Refused) else None;
  }

  lemma DecimalParses(v: nat)
    ensures Trim(Decimal(v)) == Decimal(v) && Decimal(v) != ""
    ensures ParseUint64(Decimal(v)) == if v <= MAX_UINT64 then Some(v) else None
  {
    hide Decimal, Trim;
    TrimOfTrimmed(Decimal(v));
  }

  lemma LookedOnly(ct: CloudType, a: Moment, b: Moment, actions: seq<RuleAction>)
    requires Later(a, b) && b.added == a.added && b.removed == a.removed && b.strikes == a.strikes && b.deletes == a.deletes
    ensures CreateStep(ct, a, b, actions)
  {
    hide Balanced, StoredFor, Skipped;
  }

  lemma SameAdded(a: Moment, b: Moment, c: Moment)
    requires b.added == a.added
    ensures Put(b, c) == Put(a, c)
  {
  }

  /** A CVM create: the limit check, then one request under the version of S0. */
  method CVMCreate(cloud: Cloud, snapshot: RuleSnapshot, ghost v: nat, actions: seq<RuleAction>)
    returns (res: CreateResult, err: Option<ProviderError>, ghost stated: Option<nat>)
    requires cloud.ct == TCCVM && cloud.Valid() && snapshot.revision == Decimal(v)
    modifies cloud
    ensures cloud.Valid() && CreateStep(TCCVM, old(cloud.Now()), cloud.Now(), actions)
    ensures err.Some? ==> WellClassified(err.value) && !err.value.PartialDelete?
    ensures res == CreateResult(if err.None? then |actions| else 0, 0)
    ensures Quiet(old(cloud.Now()), cloud.Now()) && v == old(cloud.revision) ==>
              if Total(|old(cloud.Now().view)|, stated) + |actions| > CVM_LIMIT
              then err == Some(Refused) && cloud.creates == old(cloud.creates)
              else err.None? && AllIn(TCCVM, actions, Put(old(cloud.Now()), cloud.Now()))
  {
    hide Sound, Balanced, Booked, Put, OnlyFrom, AllIn, Skipped, Decimal, Trim;
    ghost var start := cloud.Now();
    DecimalParses(v);
    AllCanBeSent(actions);
    res := CreateResult(0, 0);
    err, stated := CheckRuleLimit(cloud, |actions|);
    ghost var before := cloud.Now();
    LookedOnly(TCCVM, start, before, actions);
    if err.Some? {
      return;
    }
    if Trim(snapshot.revision) == "" {
      return res, Some(Incomplete), stated;
    }
    var failure := CreateBatch(cloud, Trim(snapshot.revision), actions);
    CreateStepThen(TCCVM, start, before, cloud.Now(), actions);
    SameAdded(start, before, cloud.Now());
    if failure.Some? {
      return res, Some(API(failure.value)), stated;
    }
    res := CreateResult(|actions|, 0);
  }

  /** Adds rules; `snapshot` is the S0 of this attempt, whose revision guards the write. */
  method CreateRules(cloud: Cloud, snapshot: RuleSnapshot, ghost v: Stamp, actions: seq<RuleAction>)
    returns (res: CreateResult, err: Option<ProviderError>)
    requires cloud.Valid() && Seen(cloud.ct, cloud.Now(), snapshot, v)
    modifies cloud
    ensures cloud.Valid() && CreateStep(cloud.ct, old(cloud.Now()), cloud.Now(), actions)
    ensures err.Some? ==> WellClassified(err.value) && !err.value.PartialDelete?
    ensures err.None? ==> res == CreateResult(|actions| - SkippedCount(cloud.ct, actions), SkippedCount(cloud.ct, actions))
    ensures res.written + res.skipped <= |actions|
    ensures actions == [] ==> cloud.Now() == old(cloud.Now()) && err.None?
    ensures cloud.ct == TCCVM && actions != [] && Quiet(old(cloud.Now()), cloud.Now()) && v.revision == old(cloud.revision)
            && |old(cloud.Now().view)| + |actions| > CVM_LIMIT
            ==> err == Some(Refused) && cloud.creates == old(cloud.creates)
    ensures Quiet(old(cloud.Now()), cloud.Now()) && v.revision == old(cloud.revision) && v.revision <= MAX_UINT64
            ==> (err.None? && AllIn(cloud.ct, actions, Put(old(cloud.Now()), cloud.Now())))
                || (cloud.ct == TCCVM && err == Some(Refused))
  {
    hide Sound, CreateStep, Put, AllIn, Skipped, Decimal, Trim, ParseUint64, KnownIDs;
    NothingCreated(cloud.ct, cloud.Now(), actions);
    res, err := CreateResult(0, 0), None;
    if |actions| == 0 {
      assert actions == [];
      return;
    }
    var failure: Option<Failure>;
    DecimalParses(v.revision);
    AllCanBeSent(actions);
    if cloud.ct != AliSWAS { NoneSkipped(cloud.ct, actions); }
    match cloud.ct
    case AliECS =>
      var written;
      written, failure := ECSCreate(cloud, actions);
      res := CreateResult(written, 0);
      err := if failure.Some? then Some(API(failure.value)) else None;
    case AliSWAS =>
      res, failure := SWASCreate(cloud, actions);
      err := if failure.Some? then Some(API(failure.value)) else None;
    case TCLighthouse =>
      var version := ParseUint64(Trim(snapshot.revision));
      if version.None? {
        return res, Some(Incomplete);
      }
      failure := CreateBatch(cloud, Decimal(version.value), actions);
      if failure.Some? {
        return res, Some(API(failure.value));
      }
      res := CreateResult(|actions|, 0);
    case TCCVM =>
      ghost var stated;
      res, err, stated := CVMCreate(cloud, snapshot, v.revision, actions);
  }

  // --------------------------------------------------------------------- deleting

  function NamedIDs(rs: seq<RuleInfo>): (ids: seq<string>)
    ensures |ids| == |rs| && forall i :: 0 <= i < |rs| ==> ids[i] == rs[i].ruleID
  {
    seq(|rs|, i requires 0 <= i < |rs| => rs[i].ruleID)
  }

  function IndexOfRule(r: RuleInfo): int {
    match ParseInt64(Trim(r.policyIndex)) case None => 0 case Some(i) => i
  }

  function Indexes(rs: seq<RuleInfo>): (ixs: seq<int>)
    ensures |ixs| == |rs| && forall i :: 0 <= i < |rs| ==> ixs[i] == IndexOfRule(rs[i])
  {
    seq(|rs|, i requires 0 <= i < |rs| => IndexOfRule(rs[i]))
  }

  /** How the platform names the rules of a delete call. */
  function LocatorFor(ct: CloudType, rs: seq<RuleInfo>): Locator {
    match ct
    case TCLighthouse => ByValue(rs)
    case TCCVM => ByIndex(Indexes(rs))
    case _ => ByID(NamedIDs(rs))
  }

  /** Every rule of a delete call carries the locator its platform needs. */
  ghost predicate Locators(ct: CloudType, rs: seq<RuleInfo>) {
    && (ct == TCCVM ==> forall r :: r in rs ==> ParseInt64(Trim(r.policyIndex)).Some?)
    && (Alibaba(ct) ==> forall r :: r in rs ==> HasID(r))
    && UniqueLocators(ct, rs)
  }

  /** What may have disappeared through a delete call: under a version guard only rules of the snapshot the
      call names, by ID whatever the named IDs were bound to when they were struck. */
  ghost predicate OnlyNamed(ct: CloudType, a: Moment, b: Moment, s: RuleSnapshot, rs: seq<RuleInfo>) {
    if Tencent(ct) then
      b.strikes == a.strikes
      && forall x :: x in Taken(a, b) ==> exists r :: r in s.rules && Hits(LocatorFor(ct, rs), r) && Body(r) == x
    else TookStruck(a, b, NamedIDs(rs))
  }

  lemma TookNothing(a: Moment, ids: seq<string>)
    ensures TookStruck(a, a, ids)
  {
    assert a.strikes[|a.strikes|..] == [];
  }

  lemma TookThen(a: Moment, b: Moment, c: Moment, ids: seq<string>)
    requires Later(a, b) && Later(b, c) && TookStruck(a, b, ids) && TookStruck(b, c, ids)
    ensures TookStruck(a, c, ids)
  {
    hide Booked, Balanced, StruckBodies;
    PutSplits(a, b, c);
    StruckConcat(b.strikes[|a.strikes|..], c.strikes[|b.strikes|..]);
    assert c.strikes[|a.strikes|..] == b.strikes[|a.strikes|..] + c.strikes[|b.strikes|..];
    forall i | |a.strikes| <= i < |c.strikes| ensures c.strikes[i].id in ids {
      if i < |b.strikes| { assert c.strikes[i] == b.strikes[i]; }
    }
  }

  lemma {:induction false} UnhitTwice(a: seq<RuleInfo>, b: seq<RuleInfo>, ids: seq<string>, more: seq<string>)
    requires RelocatedAll(AliECS, Unhit(ByID(ids), a), b)
    ensures RelocatedAll(AliECS, Unhit(ByID(ids + more), a), Unhit(ByID(more), b))
  {
    hide Relocated, SameBody;
    if a != [] {
      var init, last := a[..|a| - 1], a[|a| - 1];
      var left := Unhit(ByID(ids), init);
      if last.ruleID in ids {
        assert Unhit(ByID(ids), a) == left;
        UnhitTwice(init, b, ids, more);
      } else {
        assert Unhit(ByID(ids), a)[..|left|] == left && Unhit(ByID(ids), a)[|left|] == last;
        var b0 := b[..|b| - 1];
        assert Relocated(AliECS, last, b[|b| - 1]);
        assert last.ruleID == b[|b| - 1].ruleID by { RelocatedKeepsID(last, b[|b| - 1]); }
        assert forall i :: 0 <= i < |left| ==> Relocated(AliECS, left[i], b0[i]);
        UnhitTwice(init, b0, ids, more);
      }
    }
  }

  lemma RelocatedKeepsID(x: RuleInfo, y: RuleInfo)
    requires Relocated(AliECS, x, y)
    ensures x.ruleID == y.ruleID
  {
    hide ParseInt64, Trim;
  }

  lemma {:induction false} RelocatedTwice(ct: CloudType, a: seq<RuleInfo>, b: seq<RuleInfo>, c: seq<RuleInfo>)
    requires RelocatedAll(ct, a, b) && RelocatedAll(ct, b, c)
    ensures RelocatedAll(ct, a, c)
  {
    hide ParseInt64, Trim;
    forall i | 0 <= i < |a| ensures Relocated(ct, a[i], c[i]) {
      assert Relocated(ct, a[i], b[i]) && Relocated(ct, b[i], c[i]);
    }
  }

  lemma {:induction false} UnhitNothing(rs: seq<RuleInfo>)
    ensures Unhit(ByID([]), rs) == rs
  {
    if rs != [] { UnhitNothing(rs[..|rs| - 1]); }
  }

  /** What any delete call, complete or not, may have done. */
  ghost predicate DeleteStep(ct: CloudType, a: Moment, b: Moment, s: RuleSnapshot, rs: seq<RuleInfo>) {
    Later(a, b) && b.added == a.added && b.creates == a.creates && OnlyNamed(ct, a, b, s, rs)
  }

  lemma DeleteStepThen(ct: CloudType, a: Moment, b: Moment, c: Moment, s: RuleSnapshot, rs: seq<RuleInfo>)
    requires DeleteStep(ct, a, b, s, rs) && DeleteStep(ct, b, c, s, rs)
    ensures DeleteStep(ct, a, c, s, rs)
  {
    hide Hits, LocatorFor, Balanced, Taken, Body, TookStruck, Booked, NamedIDs;
    assert Later(a, c) by { LaterTransitive(a, b, c); }
    PutSplits(a, b, c);
    if !Tencent(ct) { TookThen(a, b, c, NamedIDs(rs)); }
  }

  lemma NothingDeleted(ct: CloudType, a: Moment, s: RuleSnapshot, rs: seq<RuleInfo>)
    ensures DeleteStep(ct, a, a, s, rs)
  {
    hide Hits, LocatorFor, Contents, Body, TookStruck;
    TookNothing(a, NamedIDs(rs));
  }

  lemma IDsOf(rs: seq<RuleInfo>, id: string)
    ensures id in NamedIDs(rs) <==> exists r :: r in rs && r.ruleID == id
  {
    var ids := NamedIDs(rs);
    if exists r :: r in rs && r.ruleID == id {
      var r :| r in rs && r.ruleID == id;
      var i :| 0 <= i < |rs| && rs[i] == r;
      assert ids[i] == id;
    }
  }

  /** One delete request by rule ID. */
  method DeleteByID(cloud: Cloud, ghost s: RuleSnapshot, rs: seq<RuleInfo>) returns (err: Option<Failure>)
    requires Alibaba(cloud.ct) && cloud.Valid() && (cloud.ct == AliECS ==> |rs| <= ECS_BATCH)
    modifies cloud
    ensures cloud.Valid() && DeleteStep(cloud.ct, old(cloud.Now()), cloud.Now(), s, rs)
    ensures cloud.deletes == old(cloud.deletes) + 1
    ensures err.Some? ==> Classified(err.value)
    ensures Quiet(old(cloud.Now()), cloud.Now())
            ==> err.None? && RelocatedAll(cloud.ct, Unhit(ByID(NamedIDs(rs)), old(cloud.Now().view)), cloud.Now().view)
  {
    hide Sound, Unhit, RelocatedAll, Body, Later, Taken, TookStruck;
    err := cloud.Delete("", ByID(NamedIDs(rs)));
  }


  /** Deleting one batch after another leaves what deleting both at once would. */
  lemma BatchesJoin(a: seq<RuleInfo>, b: seq<RuleInfo>, c: seq<RuleInfo>, rs: seq<RuleInfo>, lo: nat, hi: nat)
    requires lo <= hi <= |rs|
    requires RelocatedAll(AliECS, Unhit(ByID(NamedIDs(rs[..lo])), a), b)
    requires RelocatedAll(AliECS, Unhit(ByID(NamedIDs(rs[lo..hi])), b), c)
    ensures RelocatedAll(AliECS, Unhit(ByID(NamedIDs(rs[..hi])), a), c)
  {
    hide RelocatedAll, Unhit;
    var (ids, more) := (NamedIDs(rs[..lo]), NamedIDs(rs[lo..hi]));
    assert NamedIDs(rs[..hi]) == NamedIDs(rs[..lo]) + NamedIDs(rs[lo..hi]);
    UnhitTwice(a, b, ids, more);
    RelocatedTwice(AliECS, Unhit(ByID(ids + more), a), Unhit(ByID(more), b), c);
  }

  lemma NoneHit(ct: CloudType, view: seq<RuleInfo>)
    ensures RelocatedAll(ct, Unhit(ByID(NamedIDs([])), view), view)
  {
    hide RelocatedAll, Unhit;
    assert NamedIDs([]) == [];
    UnhitNothing(view);
    RelocatedSelf(ct, view);
  }

  lemma DeletePart(ct: CloudType, a: Moment, b: Moment, s: RuleSnapshot, part: seq<RuleInfo>, rs: seq<RuleInfo>)
    requires Alibaba(ct) && DeleteStep(ct, a, b, s, part) && forall r :: r in part ==> r in rs
    ensures DeleteStep(ct, a, b, s, rs)
  {
    hide Hits, LocatorFor, Later, Taken, Body;
    forall id | id in NamedIDs(part) ensures id in NamedIDs(rs) {
      IDsOf(part, id);
      IDsOf(rs, id);
    }
  }

  /** ECS revokes in batches of 100 and keeps the count of what was confirmed. */
  method ECSDelete(cloud: Cloud, ghost s: RuleSnapshot, rs: seq<RuleInfo>) returns (deleted: nat, err: Option<Failure>)
    requires cloud.ct == AliECS && cloud.Valid()
    modifies cloud
    ensures cloud.Valid() && DeleteStep(AliECS, old(cloud.Now()), cloud.Now(), s, rs)
    ensures err.Some? ==> Classified(err.value)
    ensures deleted <= |rs|
    ensures var sent := cloud.deletes - old(cloud.deletes);
            if err.None? then deleted == |rs| && sent == Requests(|rs|) else sent > 0 && deleted == ECS_BATCH * (sent - 1)
    ensures Quiet(old(cloud.Now()), cloud.Now())
            ==> err.None? && RelocatedAll(AliECS, Unhit(ByID(NamedIDs(rs)), old(cloud.Now().view)), cloud.Now().view)
  {
    hide Sound, Unhit, RelocatedAll, Balanced, Booked, OnlyNamed, Taken, NamedIDs;
    ghost var start := cloud.Now();
    deleted, err := 0, None;
    NothingDeleted(AliECS, start, s, rs);
    NoneHit(AliECS, start.view);
    assert rs[..0] == [];
    while deleted < |rs|
      invariant deleted <= |rs| && err.None? && cloud.deletes - start.deletes == Requests(deleted)
      invariant deleted < |rs| ==> deleted == ECS_BATCH * Requests(deleted)
      invariant cloud.Valid() && DeleteStep(AliECS, start, cloud.Now(), s, rs)
      invariant Quiet(start, cloud.Now())
                ==> RelocatedAll(AliECS, Unhit(ByID(NamedIDs(rs[..deleted])), start.view), cloud.Now().view)
    {
      var end := if deleted + ECS_BATCH > |rs| then |rs| else deleted + ECS_BATCH;
      var batch := rs[deleted..end];
      ghost var before := cloud.Now();
      err := DeleteByID(cloud, s, batch);
      DeletePart(AliECS, before, cloud.Now(), s, batch, rs);
      DeleteStepThen(AliECS, start, before, cloud.Now(), s, rs);
      if err.Some? {
        return;
      }
      if Quiet(start, cloud.Now()) {
        BatchesJoin(start.view, before.view, cloud.Now().view, rs, deleted, end);
      }
      deleted := end;
    }
    assert rs[..deleted] == rs;
  }

  /** Whether a call with these rules is refused before any request. */
  method FirstBlankID(rs: seq<RuleInfo>) returns (blank: bool)
    ensures blank <==> exists r :: r in rs && !HasID(r)
  {
    hide HasID;
    for i := 0 to |rs|
      invariant forall j :: 0 <= j < i ==> HasID(rs[j])
    {
      if !HasID(rs[i]) {
        return true;
      }
    }
    blank := false;
  }

  /** The policy indexes of a delete request; none when one is unusable or named twice. */
  method CollectIndexes(rs: seq<RuleInfo>) returns (indexes: Option<seq<int>>)
    ensures indexes.Some? ==> indexes.value == Indexes(rs)
    ensures indexes.Some? <==> (forall r :: r in rs ==> ParseInt64(Trim(r.policyIndex)).Some?)
                               && forall i, j :: 0 <= i < j < |rs| ==> Indexes(rs)[i] != Indexes(rs)[j]
  {
    hide ParseInt64, Trim;
    var seen: set<int> := {};
    var kept: seq<int> := [];
    for k := 0 to |rs|
      invariant kept == Indexes(rs)[..k]
      invariant forall j :: 0 <= j < k ==> ParseInt64(Trim(rs[j].policyIndex)).Some?
      invariant forall i, j :: 0 <= i < j < k ==> Indexes(rs)[i] != Indexes(rs)[j]
      invariant forall x :: x in seen <==> x in kept
    {
      var parsed := ParseInt64(Trim(rs[k].policyIndex));
      if parsed.None? {
        return None;
      }
      assert IndexOfRule(rs[k]) == parsed.value == Indexes(rs)[k];
      if parsed.value in seen {
        var i :| 0 <= i < |kept| && kept[i] == parsed.value;
        assert Indexes(rs)[i] == Indexes(rs)[k] && i < k;
        return None;
      }
      seen, kept := seen + {parsed.value}, kept + [parsed.value];
    }
    indexes := Some(kept);
  }

  lemma UniqueIndexes(rs: seq<RuleInfo>)
    requires Locators(TCCVM, rs)
    ensures forall i, j :: 0 <= i < j < |rs| ==> Indexes(rs)[i] != Indexes(rs)[j]
  {
    hide ParseInt64, Trim;
    forall i, j | 0 <= i < j < |rs| ensures Indexes(rs)[i] != Indexes(rs)[j] {
      assert rs[i] in rs && rs[j] in rs;
    }
  }


  /** One version-guarded delete request of a Tencent platform. */
  method DeleteGuarded(cloud: Cloud, guard: string, ghost s: RuleSnapshot, ghost v: Stamp, rs: seq<RuleInfo>) returns (err: Option<Failure>)
    requires Tencent(cloud.ct) && cloud.Valid() && Seen(cloud.ct, cloud.Now(), s, v) && guard == Decimal(v.revision)
    modifies cloud
    ensures cloud.Valid() && DeleteStep(cloud.ct, old(cloud.Now()), cloud.Now(), s, rs)
    ensures Taken(old(cloud.Now()), cloud.Now()) != multiset{} ==> v.revision == old(cloud.revision)
    ensures err.Some? ==> Classified(err.value)
    ensures Quiet(old(cloud.Now()), cloud.Now()) && v.revision == old(cloud.revision)
            ==> err.None? && RelocatedAll(cloud.ct, Unhit(LocatorFor(cloud.ct, rs), old(cloud.Now().view)), cloud.Now().view)
  {
    hide Sound, Unhit, RelocatedAll, Body, Later, Taken, Hits, Decimal, Indexes, TookStruck;
    assert Decimal(v.revision) == Decimal(cloud.revision) <==> v.revision == cloud.revision by { hide Decimal; }
    err := cloud.Delete(guard, LocatorFor(cloud.ct, rs));
    ghost var taken := Taken(old(cloud.Now()), cloud.Now());
    if taken != multiset{} {
      assert |taken| > 0;
      var b :| b in taken;
    }
  }

  /** A local refusal sends nothing and has bad locators for its reason; a success deleted all, unless CVM found
      them gone; partial progress is the batches before the last request. */
  ghost predicate ExactReport(ct: CloudType, a: Moment, b: Moment, rs: seq<RuleInfo>, deleted: nat, err: Option<ProviderError>) {
    && (err == Some(Refused) ==> b == a && !Locators(ct, rs))
    && (err.None? ==> deleted == |rs| || (ct == TCCVM && deleted == 0))
    && (err.Some? && err.value.PartialDelete? ==> ct == AliECS && err.value.deleted == ECS_BATCH * (b.deletes - a.deletes - 1) > 0)
  }

  /** Deletes rules of snapshot S1 and of no other, whose revision guards the request. */
  method DeleteRules(cloud: Cloud, s: RuleSnapshot, ghost v: Stamp, rs: seq<RuleInfo>)
    returns (res: DeleteResult, err: Option<ProviderError>)
    requires cloud.Valid() && Seen(cloud.ct, cloud.Now(), s, v)
    requires forall r :: r in rs ==> r in s.rules
    modifies cloud
    ensures cloud.Valid() && DeleteStep(cloud.ct, old(cloud.Now()), cloud.Now(), s, rs)
    ensures Tencent(cloud.ct) && Taken(old(cloud.Now()), cloud.Now()) != multiset{} ==> v.revision == old(cloud.revision)
    ensures err.Some? ==> WellClassified(err.value)
    ensures res.deleted <= res.resolved <= |rs| && (err.None? ==> res.resolved == |rs|)
    ensures ExactReport(cloud.ct, old(cloud.Now()), cloud.Now(), rs, res.deleted, err)
    ensures err.Some? ==> res.deleted == res.resolved == if err.value.PartialDelete? then err.value.deleted else 0
    ensures rs == [] ==> cloud.Now() == old(cloud.Now())
    ensures Quiet(old(cloud.Now()), cloud.Now()) && v.revision == old(cloud.revision) && v.revision <= MAX_UINT64 && Locators(cloud.ct, rs)
            ==> err.None? && res.deleted == |rs|
                && (rs == [] || RelocatedAll(cloud.ct, Unhit(LocatorFor(cloud.ct, rs), old(cloud.Now().view)), cloud.Now().view))
  {
    hide Sound, Unhit, RelocatedAll, DeleteStep, Decimal, Trim, ParseUint64, ParseInt64, KnownIDs, SeenIDs, HasID, NamedIDs, Indexes;
    NothingDeleted(cloud.ct, cloud.Now(), s, rs);
    res, err := DeleteResult(0, 0), None;
    if |rs| == 0 {
      assert rs == [];
      return;
    }
    var failure: Option<Failure>;
    DecimalParses(v.revision);
    match cloud.ct
    case AliECS =>
      var blank := FirstBlankID(rs);
      if blank {
        return res, Some(Refused);
      }
      var deleted;
      deleted, failure := ECSDelete(cloud, s, rs);
      res := DeleteResult(deleted, deleted);
      err := if failure.None? then None
             else if deleted > 0 then Some(PartialDelete(deleted, failure.value)) else Some(API(failure.value));
    case AliSWAS =>
      var blank := FirstBlankID(rs);
      if blank {
        return res, Some(Refused);
      }
      failure := DeleteByID(cloud, s, rs);
      if failure.Some? {
        return res, Some(API(failure.value));
      }
      res := DeleteResult(|rs|, |rs|);
    case TCLighthouse =>
      var version := ParseUint64(Trim(s.revision));
      if version.None? {
        return res, Some(Incomplete);
      }
      failure := DeleteGuarded(cloud, Decimal(version.value), s, v, rs);
      if failure.Some? {
        return res, Some(API(failure.value));
      }
      res := DeleteResult(|rs|, |rs|);
    case TCCVM =>
      if Trim(s.revision) == "" {
        return res, Some(Incomplete);
      }
      var indexes := CollectIndexes(rs);
      if indexes.None? {
        if Locators(TCCVM, rs) { UniqueIndexes(rs); }
        return res, Some(Refused);
      }
      failure := DeleteGuarded(cloud, Trim(s.revision), s, v, rs);
      if failure.Some? {
        if failure.value.notFound {
          return DeleteResult(0, |rs|), None;
        }
        return res, Some(API(failure.value));
      }
      res := DeleteResult(|rs|, |rs|);
  }
}
