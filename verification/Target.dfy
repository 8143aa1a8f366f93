/** The target sync of syncer/target.go: S0, plan, add, S1, prove coverage, gated cleanup, S2, and up to
    three attempts at all of it. */
module Target {
  import opened Text
  import opened Tag
  import opened Ports
  import opened Keys
  import opened Bindings
  import opened Plan
  import opened PlanFacts
  import opened PlanTheorems
  import opened PlanCleanup
  import opened Wishes
  import Clearance
  import Planner
  import opened CloudAPI
  import opened Providers
  import opened Resolution
  import opened Observation
  import opened TargetSafety
  import opened TargetSettles

  /** Why an attempt failed. */
  datatype TargetError =
    | SnapshotUnread(stage: nat, failure: Failure)
    | AddFailed(cause: ProviderError)
    | NotCovered
    | NoAddresses(retryable: bool)
    | CleanupRetryable(cause: ProviderError)
    | VersionMissing
    | CoverageLost

  function CauseOf(e: ProviderError): Option<Failure> {
    match e
    case API(f) => Some(f)
    case PartialDelete(_, f) => Some(f)
    case _ => None
  }

  predicate CauseRetryable(e: ProviderError) { CauseOf(e).Some? && CauseOf(e).value.retryable }

  /** Which errors are worth another attempt of the whole target. */
  predicate Retryable(e: TargetError) {
    match e
    case SnapshotUnread(_, f) => f.retryable
    case AddFailed(cause) => CauseRetryable(cause)
    case NoAddresses(retryable) => retryable
    case CleanupRetryable(cause) => CauseRetryable(cause)
    case _ => false
  }

  /** Nothing was written between two instants. */
  ghost predicate ReadOnly(a: Moment, b: Moment) {
    Later(a, b) && b.added == a.added && SameRemovals(a, b) && b.creates == a.creates && b.deletes == a.deletes
  }

  method ReadSnapshot(cloud: Cloud) returns (r: Snapshot, ghost v: Stamp)
    requires cloud.Valid()
    modifies cloud
    ensures cloud.Valid() && ReadOnly(old(cloud.Now()), cloud.Now())
    ensures r.Unread? ==> cloud.faults > old(cloud.faults) && Classified(r.failure)
    ensures r.Read? ==> Seen(cloud.ct, cloud.Now(), r.snapshot, v) && v.since >= |old(cloud.bindings)|
    ensures cloud.foreign == old(cloud.foreign) ==> cloud.Now().view == old(cloud.Now().view) && cloud.revision == old(cloud.revision)
    ensures r.Read? && cloud.foreign == old(cloud.foreign)
            ==> r.snapshot == SnapshotAt(cloud.ct, cloud.Now()) && v.revision == cloud.revision
  {
    hide Sound, Later, SeenIDs, RevisionText;
    r, v := cloud.Describe();
  }

  // -------------------------------------------------------------------- cleanup

  /** What a cleanup reports; `basis` is None when nothing was sent. */
  datatype CleanupResult = CleanupResult(deleted: nat, deferred: int, basis: Option<Basis>)

  /** Proves each candidate once more to be stale before anything is sent. */
  method Recheck(wanted: PlanInput, plan: TargetPlan) returns (deletable: seq<RuleInfo>)
    requires exists s :: plan == PlanSpec(At(wanted, s))
    ensures deletable == plan.cleanupDeletable
  {
    hide PlanSpec, DesiredOf, SnapshotRuleKeys, IsOwned;
    ghost var s :| plan == PlanSpec(At(wanted, s));
    PlanParts(At(wanted, s));
    var desired := set d | d in plan.desired :: d.key;
    deletable := [];
    for i := 0 to |plan.cleanupDeletable|
      invariant deletable == plan.cleanupDeletable[..i]
    {
      var c := plan.cleanupDeletable[i];
      StaleOnRecheck(At(wanted, s), c);
      if !IsOwned(c.description, wanted.tag) {
        continue;
      }
      var keys := SnapshotRuleKeys(c);
      if keys.None? {
        continue;
      }
      var conflict := exists k :: k in keys.value && k in desired;
      if conflict {
        continue;
      }
      deletable := deletable + [c];
    }
  }

  lemma StaleOnRecheck(inp: PlanInput, r: RuleInfo)
    requires r in PlanSpec(inp).cleanupDeletable
    ensures IsOwned(r.description, inp.tag) && SnapshotRuleKeys(r).Some?
    ensures forall k :: k in SnapshotRuleKeys(r).value ==> k !in DesiredKeys(DesiredOf(inp))
  {
    hide PlanSpec, DesiredOf, SnapshotRuleKeys, IsOwned, LocatorProblem, GateOpen;
    DeletableExact(inp, r);
  }

  /** What a cleanup may have done, and the S2 it ended with if it read one. */
  ghost predicate CleanupStep(ct: CloudType, a: Moment, b: Moment, plan: TargetPlan, s2: Option<Reading>) {
    && Later(a, b) && b.added == a.added && b.creates == a.creates
    && TakesOnly(ct, a, b, plan.cleanupDeletable)
    && (s2.Some? ==> ReadBetween(ct, a, s2.value, b) && s2.value.at.added == b.added && SameRemovals(s2.value.at, b))
  }

  /** Deleting a plan's deletable rules from the snapshot it was made on is such a step. */
  lemma DeletedOnlyStale(ct: CloudType, a: Moment, b: Moment, wanted: PlanInput, s1: RuleSnapshot, v1: Stamp)
    requires wanted.cloudType == ct && Sound(ct, a) && Seen(ct, a, s1, v1)
    requires DeleteStep(ct, a, b, s1, PlanSpec(At(wanted, s1)).cleanupDeletable)
    requires Tencent(ct) && Taken(a, b) != multiset{} ==> v1.revision == a.revision
    ensures CleanupStep(ct, a, b, PlanSpec(At(wanted, s1)), None)
  {
    hide PlanSpec, UniqueLocators, TakesOnly, OnlyNamed, Balanced, Booked, RevisionText, KnownIDs, SeenIDs, Taken;
    NamedIsStale(At(wanted, s1), a, b);
  }

  lemma ReadAfterCleanup(ct: CloudType, a: Moment, b: Moment, c: Moment, plan: TargetPlan)
    requires CleanupStep(ct, a, b, plan, None) && ReadOnly(b, c)
    ensures CleanupStep(ct, a, c, plan, None)
  {
    hide OnlyStale, Balanced, Booked, StruckBodies;
    LaterTransitive(a, b, c);
  }

  lemma LaterSelf(a: Moment)
    ensures Later(a, a)
  {
    hide Contents;
  }

  lemma MoreBindings(a: Moment, b: Moment)
    requires Later(a, b)
    ensures |a.bindings| <= |b.bindings|
  {
    hide Balanced;
  }

  lemma ReadAtEnd(ct: CloudType, a: Moment, b: Moment, plan: TargetPlan, s: RuleSnapshot, v: Stamp)
    requires CleanupStep(ct, a, b, plan, None) && Seen(ct, b, s, v) && |a.bindings| <= v.since
    ensures CleanupStep(ct, a, b, plan, Some(Reading(s, v, b)))
  {
    hide TakesOnly, Later, RevisionText, SeenIDs;
    LaterSelf(b);
  }

  /** Reads S2 and checks that everything that can be met is still met. */
  method VerifyCleanupResult(cloud: Cloud, wanted: PlanInput, s1Revision: string, ghost v1: Stamp)
    returns (deferred: nat, err: Option<TargetError>, ghost s2: Option<Reading>)
    requires cloud.Valid() && wanted.cloudType == cloud.ct && s1Revision == RevisionText(cloud.ct, v1.revision)
    modifies cloud
    ensures cloud.Valid() && ReadOnly(old(cloud.Now()), cloud.Now())
    ensures s2.Some? ==> s2.value.at == cloud.Now() && Seen(cloud.ct, cloud.Now(), s2.value.snapshot, s2.value.v)
                          && s2.value.v.since >= |old(cloud.bindings)|
    ensures err.None? ==> s2.Some? && var plan := PlanSpec(At(wanted, s2.value.snapshot));
                          plan.toAdd == [] && deferred == |plan.cleanupCandidates|
    ensures err.Some? ==> err.value.SnapshotUnread? || err.value.VersionMissing? || err.value.CoverageLost?
    ensures Quiet(old(cloud.Now()), cloud.Now()) && Settled(wanted, old(cloud.Now()))
            ==> err.None? && Settled(wanted, cloud.Now())
  {
    hide Sound, Later, PlanSpec, SeenIDs, Decimal, Trim;
    ghost var start := cloud.Now();
    var read;
    ghost var v;
    deferred, err, s2 := 0, None, None;
    read, v := ReadSnapshot(cloud);
    if read.Unread? {
      return deferred, Some(SnapshotUnread(2, read.failure)), s2;
    }
    var s := read.snapshot;
    s2 := Some(Reading(s, v, cloud.Now()));
    BlankRevisions(cloud.ct, v.revision, v1.revision);
    if Trim(s.revision) == "" && Trim(s1Revision) != "" {
      return deferred, Some(VersionMissing), s2;
    }
    var plan2 := Planner.PlanTarget(At(wanted, s));
    if |plan2.toAdd| > 0 {
      return deferred, Some(CoverageLost), s2;
    }
    deferred := |plan2.cleanupCandidates|;
  }

  lemma BlankRevisions(ct: CloudType, v: nat, v': nat)
    ensures Trim(RevisionText(ct, v)) == "" ==> Trim(RevisionText(ct, v')) == ""
  {
    hide Decimal, Trim;
    DecimalParses(v);
  }

  lemma {:induction false} LocatableIsPart(inp: PlanInput, cs: seq<RuleInfo>)
    ensures |Locatable(inp, cs)| <= |cs|
  {
    hide LocatorProblem;
    if cs != [] { LocatableIsPart(inp, cs[..|cs| - 1]); }
  }

  lemma FewerDeletables(inp: PlanInput)
    ensures |PlanSpec(inp).cleanupDeletable| <= |PlanSpec(inp).cleanupCandidates|
  {
    hide DesiredOf, AllItems, AllDNSIssues, GateIssues, ConflictsOf, CandidatesOf, Locatable, LocatorIssues, MatchesOf;
    LocatableIsPart(inp, PlanSpec(inp).cleanupCandidates);
  }

  /** An undisturbed cleanup settles the target. */
  lemma CleanupSettles(ct: CloudType, a: Moment, b: Moment, wanted: PlanInput, s1: RuleSnapshot)
    requires wanted.cloudType == ct && Sound(ct, a) && s1 == SnapshotAt(ct, a)
    requires PlanSpec(At(wanted, s1)).cleanupDeletable != []
    requires RelocatedAll(ct, Unhit(LocatorFor(ct, PlanSpec(At(wanted, s1)).cleanupDeletable), a.view), b.view)
    ensures Settled(wanted, b)
  {
    hide PlanSpec, RelocatedAll, Unhit, Remaining, UniqueLocators, RevisionText, KnownIDs, LocatorFor, Settled;
    UnhitIsRemaining(At(wanted, s1), a.view);
    CleanedIsSettled(wanted, s1, b);
  }

  lemma DeletableLocators(ct: CloudType, a: Moment, wanted: PlanInput, s1: RuleSnapshot)
    requires wanted.cloudType == ct && Sound(ct, a) && s1.rules == a.view
    ensures Locators(ct, PlanSpec(At(wanted, s1)).cleanupDeletable)
  {
    hide PlanSpec, UniqueLocators, KnownIDs;
    DeletablesHaveLocators(At(wanted, s1));
  }

  /** The gated, conditional cleanup; anything confirmed is proved by an S2. */
  method RunTargetCleanup(cloud: Cloud, wanted: PlanInput, s1: RuleSnapshot, ghost v1: Stamp, plan1: TargetPlan)
    returns (result: CleanupResult, err: Option<TargetError>, ghost s2: Option<Reading>)
    requires cloud.Valid() && wanted.cloudType == cloud.ct && Seen(cloud.ct, cloud.Now(), s1, v1)
    requires plan1 == PlanSpec(At(wanted, s1))
    modifies cloud
    ensures cloud.Valid() && CleanupStep(cloud.ct, old(cloud.Now()), cloud.Now(), plan1, s2)
    ensures plan1.cleanupDeletable == [] ==>
              cloud.Now() == old(cloud.Now()) && err.None? && result == CleanupResult(0, |plan1.cleanupCandidates|, None) && s2 == None
    ensures 0 <= result.deferred && result.deleted <= |plan1.cleanupDeletable|
    ensures err.None? && s2.Some? ==> var plan2 := PlanSpec(At(wanted, s2.value.snapshot));
              plan2.toAdd == [] && result.deferred == |plan2.cleanupCandidates| && result.basis == Some(FromS2)
    ensures s2.None? && (err.None? || err.value.CleanupRetryable?) ==> result.deferred == |plan1.cleanupCandidates| && result.deleted == 0
    ensures err.Some? ==> result.basis == Some(DeleteProgress) && result.deferred <= |plan1.cleanupCandidates| - result.deleted
    ensures err.Some? ==> err.value.SnapshotUnread? || err.value.VersionMissing? || err.value.CoverageLost?
                          || (err.value.CleanupRetryable? && Retryable(err.value) && s2.None?)
    ensures Quiet(old(cloud.Now()), cloud.Now()) && s1 == SnapshotAt(cloud.ct, old(cloud.Now())) && v1.revision == old(cloud.revision)
            && v1.revision <= MAX_UINT64 && plan1.toAdd == []
            ==> err.None? && Settled(wanted, cloud.Now())
  {
    hide Sound, Balanced, Booked, PlanSpec, SeenIDs, RevisionText, TakesOnly, OnlyNamed, Taken, Locators, Unhit, RelocatedAll, Settled,
         LocatorFor, ExactReport, Deletable, UniqueLocators, DeleteStep, HasID, IDsBelow;
    ghost var start := cloud.Now();
    result, err, s2 := CleanupResult(0, |plan1.cleanupCandidates|, None), None, None;
    NoCleanup(cloud.ct, start, plan1);
    if |plan1.cleanupDeletable| == 0 {
      assert plan1.cleanupDeletable == [];
      PlannedAgain(wanted, s1, start);
      return;
    }
    var deletable := Recheck(wanted, plan1);
    if |deletable| == 0 {
      return;
    }
    FewerDeletables(At(wanted, s1));
    forall r | r in deletable ensures r in s1.rules { DeletableExact(At(wanted, s1), r); }
    if s1 == SnapshotAt(cloud.ct, start) { DeletableLocators(cloud.ct, start, wanted, s1); }
    var delRes, delErr := DeleteRules(cloud, s1, v1, deletable);
    ghost var after := cloud.Now();
    DeletedOnlyStale(cloud.ct, start, after, wanted, s1, v1);
    result := CleanupResult(delRes.deleted, |plan1.cleanupCandidates| - delRes.resolved, Some(DeleteProgress));
    if Quiet(start, after) && s1 == SnapshotAt(cloud.ct, start) && v1.revision == start.revision && v1.revision <= MAX_UINT64 {
      CleanupSettles(cloud.ct, start, after, wanted, s1);
    }
    if delErr.None? || delErr.value.PartialDelete? || (delErr.value.API? && delErr.value.failure.alreadyGone) {
      var deferred;
      deferred, err, s2 := VerifyCleanupResult(cloud, wanted, s1.revision, v1);
      ReadAfterCleanup(cloud.ct, start, after, cloud.Now(), plan1);
      MoreBindings(start, after);
      if s2.Some? { ReadAtEnd(cloud.ct, start, cloud.Now(), plan1, s2.value.snapshot, s2.value.v); }
      if err.None? {
        result := CleanupResult(delRes.deleted, deferred, Some(FromS2));
      }
    } else if CauseRetryable(delErr.value) {
      err := Some(CleanupRetryable(delErr.value));
    } else {
      result := CleanupResult(delRes.deleted, |plan1.cleanupCandidates|, Some(DeleteProgress));
    }
  }

  lemma NoCleanup(ct: CloudType, a: Moment, plan: TargetPlan)
    ensures CleanupStep(ct, a, a, plan, None)
  {
    hide Contents;
  }

  lemma PlannedAgain(wanted: PlanInput, s1: RuleSnapshot, m: Moment)
    ensures s1 == SnapshotAt(wanted.cloudType, m) && PlanSpec(At(wanted, s1)).toAdd == [] && PlanSpec(At(wanted, s1)).cleanupDeletable == []
            ==> Settled(wanted, m)
  {
    hide PlanSpec;
  }

  // -------------------------------------------------------------------- one attempt

  function Wanted(ct: CloudType, tag: string, rules: seq<DomainRule>, m: Resolved): PlanInput {
    PlanInput(ct, tag, rules, m.ips, m.errors, RuleSnapshot([], ""), false)
  }

  /** What a settled target looks like, from the rules and their answers: every key asked for that the platform
      can express is there, and unless something forbids cleaning up, no leftover of the TAG that can be
      located. */
  lemma SettledMeansDone(ct: CloudType, tag: string, rules: seq<DomainRule>, m: Resolved, now: Moment)
    requires Settled(Wanted(ct, tag, rules, m), now)
    ensures var inp := PlanInput(ct, tag, rules, m.ips, m.errors, SnapshotAt(ct, now), false);
            && (forall k :: Clearance.Asked(inp, k) && Expressible(ct, k) ==> Clearance.Held(now.view, k))
            && (Clearance.Cleanable(inp) ==> forall r :: r in now.view && Clearance.Leftover(inp, r) ==> !Clearance.Located(inp, r))
  {
    hide PlanSpec, Expressible, RevisionText, Clearance.Asked, Clearance.Held, Clearance.Cleanable, Clearance.Leftover, Clearance.Located;
    var inp := PlanInput(ct, tag, rules, m.ips, m.errors, SnapshotAt(ct, now), false);
    forall k | Clearance.Asked(inp, k) && Expressible(ct, k) ensures Clearance.Held(now.view, k) { Clearance.AdditionsExactly(inp, k); }
    forall r | r in now.view && Clearance.Cleanable(inp) && Clearance.Leftover(inp, r) ensures !Clearance.Located(inp, r) {
      Clearance.DeletionsExactly(inp, r);
    }
  }

  function PlanAt(log: AttemptLog, r: Reading): TargetPlan { PlanSpec(At(log.wanted, r.snapshot)) }

  /** The last complete snapshot covers everything that can be met, and nothing failed to resolve. */
  ghost predicate Confirmed(log: AttemptLog) {
    && log.s1.Some? && PlanAt(log, log.s1.value).toAdd == [] && PlanAt(log, log.s1.value).dnsErrors == []
    && (log.s2.Some? ==> PlanAt(log, log.s2.value).toAdd == [])
  }

  ghost function LastPlan(log: AttemptLog): TargetPlan
    requires log.s0.Some?
  {
    if log.s1.Some? then PlanAt(log, log.s1.value) else PlanAt(log, log.s0.value)
  }

  function OutcomeFor(plan: TargetPlan): Outcome { if plan.unsupported != [] then Partial else Success }

  /** What a confirmed target has earned: success if the platform can express every wish, else partial success. */
  ghost function Earned(wanted: PlanInput): Outcome {
    if forall d :: d in DesiredOf(wanted) ==> d.implementable then Success else Partial
  }

  lemma OutcomeIsEarned(wanted: PlanInput, s: RuleSnapshot)
    ensures OutcomeFor(PlanSpec(At(wanted, s))) == Earned(wanted)
  {
    hide PlanSpec, DesiredOf;
    UnsupportedExactly(At(wanted, s));
    DesiredIgnoresSnapshot(wanted, At(wanted, s));
  }

  /** A confirmed attempt and its outcome. */
  ghost predicate GoodEnd(log: AttemptLog, outcome: Outcome) { outcome == Earned(log.wanted) && Confirmed(log) }

  /** What the result of an attempt says about what happened. */
  ghost predicate Reports(log: AttemptLog, complete: bool, err: Option<TargetError>, f: ResultFacts) {
    && f.deleted == f.cleanupDeleted <= |PlannedDeletions(log)| && f.added <= |PlannedAdditions(log)|
    && (f.latest.Some? <==> log.s0.Some?) && f.lastComplete == (if complete then f.latest else None)
    && (f.latest.Some? ==> f.latest.value == PlanNote(0, if log.s1.Some? then AtS1 else AtS0, complete, LastPlan(log).unsupported, false))
    && (f.cleanup.Some? <==> log.s1.Some?)
    && (f.cleanup.Some? ==>
          var (o, cands) := (f.cleanup.value, |PlanAt(log, log.s1.value).cleanupCandidates|);
          && o == CleanupNote(0, cands, o.deferred, o.basis, complete, false) && 0 <= o.deferred
          && (log.s2.None? && (err.None? || err.value.CleanupRetryable?) ==> o.deferred == cands && f.deleted == 0)
          && (log.s2.Some? && err.None? ==> o.basis == FromS2 && o.deferred == |PlanAt(log, log.s2.value).cleanupCandidates|))
    && (err.None? || err.value.CleanupRetryable? ==> GoodEnd(log, f.outcome))
    && (err.Some? && err.value.CleanupRetryable? ==> Retryable(err.value))
  }

  // How the steps of an attempt add up.

  lemma StepS0(ct: CloudType, a: Moment, b: Moment, wanted: PlanInput, s: RuleSnapshot, v: Stamp)
    requires wanted.cloudType == ct && ReadOnly(a, b) && Seen(ct, b, s, v) && |a.bindings| <= v.since
    ensures AttemptStep(ct, a, b, AttemptLog(wanted, Some(Reading(s, v, b)), None, None))
  {
    hide Balanced, Booked, PlannedAdditions, Skipped, StoredFor, Body, RevisionText, SeenIDs, TakesOnly;
    LaterSelf(b);
    NothingTaken(ct, a, b, []);
  }

  lemma NothingTaken(ct: CloudType, a: Moment, b: Moment, stale: seq<RuleInfo>)
    requires SameRemovals(a, b)
    ensures TakesOnly(ct, a, b, stale)
  {
    hide Body;
    assert b.strikes[|a.strikes|..] == [];
  }

  /** What was taken by an instant is what was taken by a later one if nothing was taken between. */
  lemma SameTaken(ct: CloudType, a: Moment, b: Moment, c: Moment, stale: seq<RuleInfo>)
    requires SameRemovals(b, c)
    ensures TakesOnly(ct, a, b, stale) <==> TakesOnly(ct, a, c, stale)
  {
    hide OnlyStale, StruckBodies;
  }

  lemma SameTakenFrom(ct: CloudType, a: Moment, b: Moment, c: Moment, stale: seq<RuleInfo>)
    requires SameRemovals(a, b)
    ensures TakesOnly(ct, a, c, stale) <==> TakesOnly(ct, b, c, stale)
  {
    hide OnlyStale, StruckBodies;
  }

  lemma StepNothing(ct: CloudType, a: Moment, b: Moment, wanted: PlanInput)
    requires wanted.cloudType == ct && ReadOnly(a, b)
    ensures AttemptStep(ct, a, b, AttemptLog(wanted, None, None, None))
  {
    hide Balanced, Booked, Skipped, StoredFor, Body, TakesOnly;
    NothingTaken(ct, a, b, []);
  }

  lemma StepAdded(ct: CloudType, a: Moment, b: Moment, c: Moment, log: AttemptLog)
    requires AttemptStep(ct, a, b, log) && log.s0.Some? && log.s0.value.at == b && log.s1.None?
    requires CreateStep(ct, b, c, PlannedAdditions(log))
    ensures AttemptStep(ct, a, c, log)
  {
    hide Balanced, Booked, PlannedAdditions, PlannedDeletions, OnlyFrom, TakesOnly, Seen;
    LaterTransitive(a, b, c);
    SameTaken(ct, a, b, c, PlannedDeletions(log));
  }

  lemma StepRead(ct: CloudType, a: Moment, b: Moment, c: Moment, log: AttemptLog)
    requires AttemptStep(ct, a, b, log) && log.s1.None? && ReadOnly(b, c)
    ensures AttemptStep(ct, a, c, log)
  {
    hide Balanced, Booked, PlannedAdditions, PlannedDeletions, OnlyFrom, TakesOnly, Seen;
    LaterTransitive(a, b, c);
    SameTaken(ct, a, b, c, PlannedDeletions(log));
    if log.s0.Some? { LaterTransitive(log.s0.value.at, b, c); }
  }

  lemma StepS1(ct: CloudType, a: Moment, b: Moment, log: AttemptLog, s: RuleSnapshot, v: Stamp)
    requires AttemptStep(ct, a, b, log) && log.s0.Some? && log.s1.None? && log.s2.None? && Seen(ct, b, s, v)
    requires |log.s0.value.at.bindings| <= v.since
    ensures AttemptStep(ct, a, b, log.(s1 := Some(Reading(s, v, b))))
    ensures SameRemovals(a, b)
  {
    hide Balanced, Booked, PlanSpec, OnlyFrom, Seen, Body, TakesOnly;
    LaterSelf(b);
    assert SameRemovals(a, b) by { NoneNamed(ct, a, b); }
    NothingTaken(ct, a, b, PlannedDeletions(log.(s1 := Some(Reading(s, v, b)))));
  }

  /** Where no rule is named, none is taken. */
  lemma NoneNamed(ct: CloudType, a: Moment, b: Moment)
    requires Later(a, b) && TakesOnly(ct, a, b, [])
    ensures SameRemovals(a, b)
  {
    hide Balanced, Body;
    if !Tencent(ct) {
      assert NamedIDs([]) == [];
      assert |b.strikes| == |a.strikes|;
      assert b.strikes[|a.strikes|..] == [];
    }
    assert forall x :: x !in Taken(a, b);
    forall x ensures b.removed[x] == a.removed[x] {
      assert Taken(a, b)[x] == 0 && a.removed[x] <= b.removed[x];
    }
  }

  lemma StepCleaned(ct: CloudType, a: Moment, b: Moment, c: Moment, log: AttemptLog, s2: Option<Reading>)
    requires AttemptStep(ct, a, b, log) && log.s1.Some? && log.s1.value.at == b && log.s2.None?
    requires SameRemovals(a, b)
    requires CleanupStep(ct, b, c, PlanAt(log, log.s1.value), s2)
    ensures AttemptStep(ct, a, c, log.(s2 := s2))
  {
    hide Balanced, Booked, PlanSpec, OnlyFrom, TakesOnly, Seen;
    SameTakenFrom(ct, a, b, c, PlanAt(log, log.s1.value).cleanupDeletable);
    assert Later(a, c) && Later(log.s0.value.at, c) by {
      LaterTransitive(a, b, c);
      LaterTransitive(log.s0.value.at, b, c);
    }
    assert PlannedDeletions(log.(s2 := s2)) == PlanAt(log, log.s1.value).cleanupDeletable;
  }

  /** Adds what the plan on S0 misses; rules that are already there are no failure. */
  method AddMissing(cloud: Cloud, s0: RuleSnapshot, ghost v0: Stamp, plan0: TargetPlan)
    returns (added: nat, err: Option<TargetError>)
    requires cloud.Valid() && Seen(cloud.ct, cloud.Now(), s0, v0)
    modifies cloud
    ensures cloud.Valid() && CreateStep(cloud.ct, old(cloud.Now()), cloud.Now(), plan0.toAdd)
    ensures added <= |plan0.toAdd|
    ensures err.Some? ==> err.value.AddFailed?
    ensures plan0.toAdd == [] ==> cloud.Now() == old(cloud.Now()) && err.None?
    ensures Quiet(old(cloud.Now()), cloud.Now()) && v0.revision == old(cloud.revision) && v0.revision <= MAX_UINT64
            ==> (err.None? && AllIn(cloud.ct, plan0.toAdd, Put(old(cloud.Now()), cloud.Now())))
                || (cloud.ct == TCCVM && err == Some(AddFailed(Refused)))
  {
    hide Sound, CreateStep, Put, AllIn, Seen;
    added, err := 0, None;
    NothingCreated(cloud.ct, cloud.Now(), plan0.toAdd);
    if |plan0.toAdd| == 0 {
      assert plan0.toAdd == [];
      return;
    }
    var createRes, createErr := CreateRules(cloud, s0, v0, plan0.toAdd);
    added := createRes.written;
    if createErr.Some? && !(createErr.value.API? && createErr.value.failure.alreadyExists) {
      err := Some(AddFailed(createErr.value));
    }
  }

  /** The observations of an attempt that got as far as S1. */
  method ObserveS1(res: TargetResult, plan1: TargetPlan, complete: bool)
    requires res.Valid() && res.Facts().cleanup == None && res.Facts().deleted == res.Facts().cleanupDeleted == 0
    requires complete || res.Facts().lastComplete == None
    modifies res, res.unsupportedObservation
    ensures res.Valid() && fresh(res.Repr() - old(res.Repr()))
    ensures res.cleanupObservation != null && fresh(res.cleanupObservation)
    ensures var cands := |plan1.cleanupCandidates|;
            var latest := Some(PlanNote(0, AtS1, complete, plan1.unsupported, false));
            res.Facts() == ResultFacts(old(res.Facts().added), 0, 0, old(res.Facts().outcome),
                                       Some(CleanupNote(0, cands, cands, FromS1, complete, false)),
                                       latest, if complete then latest else None)
  {
    res.ObserveUnsupported(plan1.unsupported, AtS1, complete);
    res.cleanupObservation := new CleanupObservation(|plan1.cleanupCandidates|, complete);
    res.cleanupCandidates := |plan1.cleanupCandidates|;
    res.cleanupDeferred := |plan1.cleanupCandidates|;
    res.cleanupDeleted := 0;
  }

  /** What a confirmed attempt and its cleanup add to the result. */
  method RecordCleanup(res: TargetResult, outcome: Outcome, cleanup: CleanupResult)
    requires res.Valid() && res.Facts().cleanup.Some? && res.Facts().deleted == res.Facts().cleanupDeleted == 0
    modifies res, res.cleanupObservation
    ensures res.Valid() && res.Repr() == old(res.Repr())
    ensures res.Facts() == var was := old(res.Facts());
              was.(deleted := cleanup.deleted, cleanupDeleted := cleanup.deleted, outcome := outcome,
                   cleanup := Some(was.cleanup.value.(deferred := cleanup.deferred,
                     basis := if cleanup.basis.Some? then cleanup.basis.value else was.cleanup.value.basis)))
  {
    res.outcome := outcome;
    res.cleanupDeleted := cleanup.deleted;
    res.deleted := res.deleted + cleanup.deleted;
    res.cleanupDeferred := cleanup.deferred;
    if cleanup.basis.Some? {
      res.cleanupObservation.basis := cleanup.basis.value;
    }
    res.cleanupObservation.deferred := cleanup.deferred;
  }

  /** No request was sent and nothing changed. */
  ghost predicate Untouched(a: Moment, b: Moment) {
    b.view == a.view && b.revision == a.revision && b.creates == a.creates && b.deletes == a.deletes
    && b.added == a.added && SameRemovals(a, b)
  }

  /** What an undisturbed attempt has reached when S0 is read. */
  ghost predicate QuietS0(ct: CloudType, a: Moment, b: Moment, s0: RuleSnapshot, v0: Stamp) {
    Quiet(a, b) ==> s0 == SnapshotAt(ct, b) && v0.revision == b.revision && Untouched(a, b)
  }

  /** What an undisturbed attempt has reached when S1 is read: a settled cloud is as it was, and well-formed
      wishes are all met. */
  ghost predicate QuietS1(ct: CloudType, a: Moment, b: Moment, wanted: PlanInput, s1: RuleSnapshot, v1: Stamp) {
    Quiet(a, b) ==>
      && s1 == SnapshotAt(ct, b) && v1.revision == b.revision
      && (Settled(wanted, a) ==> Untouched(a, b))
      && (WellFormed(wanted) && b.revision <= MAX_UINT64 ==> PlanSpec(At(wanted, s1)).toAdd == [])
  }

  method ReadS0(cloud: Cloud, wanted: PlanInput) returns (read: Snapshot, ghost v0: Stamp, ghost log: AttemptLog)
    requires cloud.Valid() && wanted.cloudType == cloud.ct
    modifies cloud
    ensures cloud.Valid() && AttemptStep(cloud.ct, old(cloud.Now()), cloud.Now(), log)
    ensures read.Unread? ==> log == AttemptLog(wanted, None, None, None) && cloud.faults > old(cloud.faults)
    ensures read.Read? ==> log == AttemptLog(wanted, Some(Reading(read.snapshot, v0, cloud.Now())), None, None)
                           && Seen(cloud.ct, cloud.Now(), read.snapshot, v0)
                           && QuietS0(cloud.ct, old(cloud.Now()), cloud.Now(), read.snapshot, v0)
  {
    hide Sound, AttemptStep, Later, Seen, SnapshotAt;
    ghost var start := cloud.Now();
    read, v0 := ReadSnapshot(cloud);
    log := AttemptLog(wanted, None, None, None);
    if read.Unread? {
      StepNothing(cloud.ct, start, cloud.Now(), wanted);
    } else {
      StepS0(cloud.ct, start, cloud.Now(), wanted, read.snapshot, v0);
      log := AttemptLog(wanted, Some(Reading(read.snapshot, v0, cloud.Now())), None, None);
    }
  }

  lemma QuietParts(a: Moment, b: Moment, c: Moment)
    requires Later(a, b) && Later(b, c) && Quiet(a, c)
    ensures Quiet(a, b) && Quiet(b, c)
  {
    hide Balanced, Booked;
  }

  lemma SettledPlansNothing(wanted: PlanInput, s: RuleSnapshot, a: Moment, b: Moment)
    requires s == SnapshotAt(wanted.cloudType, b) && b.view == a.view && b.revision == a.revision
    ensures Settled(wanted, a) <==> PlanSpec(At(wanted, s)).toAdd == [] && PlanSpec(At(wanted, s)).cleanupDeletable == []
  {
    hide PlanSpec, RevisionText;
  }

  /** From S0 over the add to S1: `a` is the start, `b` S0, `c` after the add, `d` S1. */
  lemma QuietToS1(ct: CloudType, a: Moment, b: Moment, c: Moment, d: Moment, wanted: PlanInput, s0: RuleSnapshot, v0: Stamp,
                  s1: RuleSnapshot, v1: Stamp, err: Option<TargetError>)
    requires wanted.cloudType == ct && Later(a, b) && QuietS0(ct, a, b, s0, v0)
    requires var toAdd := PlanSpec(At(wanted, s0)).toAdd;
             && CreateStep(ct, b, c, toAdd) && (toAdd == [] ==> c == b)
             && (Quiet(b, c) && v0.revision == b.revision && v0.revision <= MAX_UINT64 && err.None? ==> AllIn(ct, toAdd, Put(b, c)))
    requires ReadOnly(c, d) && err.None?
    requires d.foreign == c.foreign ==> d.view == c.view && d.revision == c.revision && s1 == SnapshotAt(ct, d) && v1.revision == d.revision
    ensures QuietS1(ct, a, d, wanted, s1, v1)
  {
    hide PlanSpec, RevisionText, Settled, WellFormed, AllIn, Put, OnlyFrom, Balanced, Booked;
    if Quiet(a, d) {
      assert s0.rules == b.view && s1.rules == c.view;
      SettledPlansNothing(wanted, s0, a, b);
      if WellFormed(wanted) && d.revision <= MAX_UINT64 {
        CreatedCovers(wanted, s0, b, c, s1);
      }
    }
  }

  /** The add of an attempt and the S1 that must follow it. */
  method AddAndRead(cloud: Cloud, wanted: PlanInput, s0: RuleSnapshot, ghost v0: Stamp, plan0: TargetPlan,
                    ghost start: Moment, ghost log0: AttemptLog)
    returns (added: nat, s1: Option<RuleSnapshot>, err: Option<TargetError>, ghost v1: Stamp, ghost log: AttemptLog)
    requires cloud.Valid() && wanted.cloudType == cloud.ct && Seen(cloud.ct, cloud.Now(), s0, v0)
    requires plan0 == PlanSpec(At(wanted, s0))
    requires AttemptStep(cloud.ct, start, cloud.Now(), log0) && QuietS0(cloud.ct, start, cloud.Now(), s0, v0)
    requires log0 == AttemptLog(wanted, Some(Reading(s0, v0, cloud.Now())), None, None)
    modifies cloud
    ensures cloud.Valid() && AttemptStep(cloud.ct, start, cloud.Now(), log)
    ensures added <= |plan0.toAdd| && (s1.None? <==> err.Some?)
    ensures err.Some? ==> log == log0 && (err.value.AddFailed? || err.value.SnapshotUnread?)
    ensures s1.Some? ==> log == log0.(s1 := Some(Reading(s1.value, v1, cloud.Now()))) && Seen(cloud.ct, cloud.Now(), s1.value, v1)
                         && SameRemovals(start, cloud.Now()) && QuietS1(cloud.ct, start, cloud.Now(), wanted, s1.value, v1)
    ensures err.Some? && Quiet(start, cloud.Now()) && cloud.revision <= MAX_UINT64 && !Settled(wanted, start)
            ==> cloud.ct == TCCVM && err == Some(AddFailed(Refused))
    ensures Quiet(start, cloud.Now()) && Settled(wanted, start) ==> err.None?
  {
    hide Sound, AttemptStep, CreateStep, PlanSpec, AllIn, Put, Seen, Settled, Balanced, Booked, SnapshotAt, QuietS1;
    ghost var m0 := cloud.Now();
    v1, log, s1 := v0, log0, None;
    added, err := AddMissing(cloud, s0, v0, plan0);
    ghost var mc := cloud.Now();
    assert Later(start, m0) && Later(m0, mc) && Later(start, mc) by {
      AttemptIsLater(cloud.ct, start, m0, log0);
      CreateIsLater(cloud.ct, m0, mc, plan0.toAdd);
      LaterTransitive(start, m0, mc);
    }
    StepAdded(cloud.ct, start, m0, mc, log0);
    if Quiet(start, mc) {
      QuietParts(start, m0, mc);
      SettledPlansNothing(wanted, s0, start, m0);
    }
    if err.Some? {
      return;
    }
    var read;
    read, v1 := ReadSnapshot(cloud);
    ghost var m1 := cloud.Now();
    StepRead(cloud.ct, start, mc, m1, log0);
    if Quiet(start, m1) { QuietParts(start, mc, m1); }
    if read.Unread? {
      err := Some(SnapshotUnread(1, read.failure));
      return;
    }
    s1 := Some(read.snapshot);
    MoreBindings(m0, mc);
    StepS1(cloud.ct, start, m1, log0, read.snapshot, v1);
    log := log0.(s1 := Some(Reading(read.snapshot, v1, m1)));
    QuietToS1(cloud.ct, start, m0, mc, m1, wanted, s0, v0, read.snapshot, v1, err);
  }

  lemma AttemptIsLater(ct: CloudType, a: Moment, b: Moment, log: AttemptLog)
    requires AttemptStep(ct, a, b, log)
    ensures Later(a, b)
  {
    hide Later, OnlyFrom, TakesOnly, ReadBetween;
  }

  lemma CreateIsLater(ct: CloudType, a: Moment, b: Moment, actions: seq<RuleAction>)
    requires CreateStep(ct, a, b, actions)
    ensures Later(a, b)
  {
    hide Later, OnlyFrom;
  }

  /** An attempt gave up because the wishes lack addresses. */
  ghost predicate AddressesMissing(log: AttemptLog, err: Option<TargetError>) {
    && err.Some? && err.value.NoAddresses? && log.s1.Some?
    && PlanAt(log, log.s1.value).dnsErrors != []
  }

  /** An undisturbed attempt: success settles the target, a settled target is left untouched, and for
      well-formed rules only missing addresses or the CVM limit can make it fail. */
  ghost predicate QuietEnd(a: Moment, b: Moment, log: AttemptLog, err: Option<TargetError>) {
    Quiet(a, b) ==>
      && (b.revision <= MAX_UINT64 && err.None? ==> Settled(log.wanted, b))
      && (Settled(log.wanted, a) ==> Untouched(a, b) && (err.None? || AddressesMissing(log, err)))
      && (b.revision <= MAX_UINT64 && WellFormed(log.wanted) && err.Some? ==>
            || AddressesMissing(log, err)
            || (log.wanted.cloudType == TCCVM && err == Some(AddFailed(Refused))))
  }

  lemma QuietEarly(a: Moment, b: Moment, log: AttemptLog, err: Option<TargetError>)
    requires err.Some? && (Quiet(a, b) && Settled(log.wanted, a) ==> false)
    requires Quiet(a, b) && b.revision <= MAX_UINT64 && !Settled(log.wanted, a)
             ==> log.wanted.cloudType == TCCVM && err == Some(AddFailed(Refused))
    ensures QuietEnd(a, b, log, err)
  {
    hide PlanSpec;
  }

  lemma QuietUnconfirmed(a: Moment, b: Moment, log: AttemptLog, err: Option<TargetError>)
    requires log.s1.Some? && log.s1.value.at == b
    requires QuietS1(log.wanted.cloudType, a, b, log.wanted, log.s1.value.snapshot, log.s1.value.v)
    requires var plan1 := PlanAt(log, log.s1.value);
             if err == Some(NotCovered) then plan1.toAdd != []
             else err.Some? && err.value.NoAddresses? && plan1.dnsErrors != []
    ensures QuietEnd(a, b, log, err)
  {
    hide PlanSpec, WellFormed, SnapshotAt;
    if Quiet(a, b) && Settled(log.wanted, a) { SettledPlansNothing(log.wanted, log.s1.value.snapshot, a, b); }
  }

  /** `a` is the start, `b` the instant of S1, `c` the end. */
  lemma QuietCleaned(a: Moment, b: Moment, c: Moment, before: AttemptLog, log: AttemptLog, err: Option<TargetError>)
    requires AttemptStep(log.wanted.cloudType, a, b, before) && before.s1 == log.s1
    requires log.s1.Some? && log.s1.value.at == b && CleanupStep(log.wanted.cloudType, b, c, PlanAt(log, log.s1.value), log.s2)
    requires QuietS1(log.wanted.cloudType, a, b, log.wanted, log.s1.value.snapshot, log.s1.value.v)
    requires PlanAt(log, log.s1.value).toAdd == []
    requires PlanAt(log, log.s1.value).cleanupDeletable == [] ==> c == b && err.None?
    requires var r := log.s1.value;
             (Quiet(b, c) && r.snapshot == SnapshotAt(log.wanted.cloudType, b) && r.v.revision == b.revision && r.v.revision <= MAX_UINT64)
             ==> (err.None? && Settled(log.wanted, c))
    ensures QuietEnd(a, c, log, err)
  {
    hide PlanSpec, WellFormed, SnapshotAt, Balanced, Booked, OnlyFrom, TakesOnly, ReadBetween;
    if Quiet(a, c) {
      QuietParts(a, b, c);
      if Settled(log.wanted, a) { SettledPlansNothing(log.wanted, log.s1.value.snapshot, a, b); }
    }
  }

  /** What an attempt brings back: its plans, what was written, and its cleanup, as far as it got. */
  datatype AttemptRun = AttemptRun(plan0: Option<TargetPlan>, added: nat, plan1: Option<TargetPlan>,
                                   cleanup: Option<CleanupResult>, err: Option<TargetError>)

  ghost predicate CleanupFits(log: AttemptLog, cleanup: CleanupResult, err: Option<TargetError>)
    requires log.s1.Some?
  {
    var plan1 := PlanAt(log, log.s1.value);
    && plan1.toAdd == [] && plan1.dnsErrors == []
    && 0 <= cleanup.deferred && cleanup.deleted <= |plan1.cleanupDeletable|
    && (log.s2.None? && (err.None? || err.value.CleanupRetryable?) ==> cleanup.deferred == |plan1.cleanupCandidates| && cleanup.deleted == 0)
    && (err.None? && log.s2.Some? ==> var plan2 := PlanAt(log, log.s2.value);
         plan2.toAdd == [] && cleanup.deferred == |plan2.cleanupCandidates| && cleanup.basis == Some(FromS2))
    && (err.Some? && err.value.CleanupRetryable? ==> log.s2.None? && Retryable(err.value))
  }

  ghost predicate RunFits(log: AttemptLog, run: AttemptRun) {
    && run.plan0 == (if log.s0.None? then None else Some(PlanAt(log, log.s0.value)))
    && run.plan1 == (if log.s1.None? then None else Some(PlanAt(log, log.s1.value)))
    && run.added <= |PlannedAdditions(log)| && (run.plan0.None? ==> run.added == 0)
    && (run.plan1.Some? ==> run.plan0.Some?) && (run.cleanup.Some? ==> run.plan1.Some?)
    && (run.cleanup.None? ==> run.err.Some? && !run.err.value.CleanupRetryable? && log.s2.None?)
    && (run.cleanup.Some? ==> CleanupFits(log, run.cleanup.value, run.err))
  }

  /** From S1 on: prove coverage, then clean up. */
  method ProveAndClean(cloud: Cloud, wanted: PlanInput, raw: map<int, bool>, s1: RuleSnapshot, plan1: TargetPlan,
                       ghost v1: Stamp, ghost start: Moment, ghost log1: AttemptLog)
    returns (cleanup: Option<CleanupResult>, err: Option<TargetError>, ghost log: AttemptLog)
    requires cloud.Valid() && wanted.cloudType == cloud.ct && Seen(cloud.ct, cloud.Now(), s1, v1)
    requires AttemptStep(cloud.ct, start, cloud.Now(), log1) && log1.s0.Some? && log1.wanted == wanted && log1.s2 == None
    requires log1.s1 == Some(Reading(s1, v1, cloud.Now())) && SameRemovals(start, cloud.Now())
    requires QuietS1(cloud.ct, start, cloud.Now(), wanted, s1, v1) && plan1 == PlanSpec(At(wanted, s1))
    modifies cloud
    ensures cloud.Valid() && AttemptStep(cloud.ct, start, cloud.Now(), log)
    ensures log == log1.(s2 := log.s2) && (cleanup.None? ==> err.Some? && !err.value.CleanupRetryable? && log.s2.None?)
    ensures cleanup.Some? ==> CleanupFits(log, cleanup.value, err)
    ensures QuietEnd(start, cloud.Now(), log, err)
  {
    hide Sound, AttemptStep, CleanupStep, Later, PlanSpec, Seen, SnapshotAt, Settled, WellFormed, QuietEnd, QuietS1, Retryable;
    log := log1;
    cleanup := None;
    ghost var m1 := cloud.Now();
    if |plan1.toAdd| > 0 {
      err := Some(NotCovered);
      QuietUnconfirmed(start, m1, log, err);
      return;
    }
    if |plan1.dnsErrors| > 0 {
      var retryable := FailureIsRetryable(wanted.rules, raw);
      err := Some(NoAddresses(retryable));
      QuietUnconfirmed(start, m1, log, err);
      return;
    }
    var cleaned;
    ghost var s2;
    cleaned, err, s2 := RunTargetCleanup(cloud, wanted, s1, v1, plan1);
    cleanup := Some(cleaned);
    StepCleaned(cloud.ct, start, m1, cloud.Now(), log, s2);
    log := log.(s2 := s2);
    QuietCleaned(start, m1, cloud.Now(), log1, log, err);
  }

  /** The protocol of one attempt: S0, plan, add, S1, plan again, prove coverage, clean up. */
  method RunProtocol(cloud: Cloud, wanted: PlanInput, raw: map<int, bool>)
    returns (run: AttemptRun, ghost log: AttemptLog)
    requires cloud.Valid() && wanted.cloudType == cloud.ct
    modifies cloud
    ensures cloud.Valid() && AttemptStep(cloud.ct, old(cloud.Now()), cloud.Now(), log)
    ensures log.wanted == wanted && RunFits(log, run)
    ensures QuietEnd(old(cloud.Now()), cloud.Now(), log, run.err)
  {
    hide Sound, AttemptStep, PlanSpec, Seen, SnapshotAt, Settled, QuietEnd, QuietS0, QuietS1, CleanupFits;
    ghost var start := cloud.Now();
    var read;
    ghost var v0: Stamp, v1: Stamp;
    read, v0, log := ReadS0(cloud, wanted);
    if read.Unread? {
      run := AttemptRun(None, 0, None, None, Some(SnapshotUnread(0, read.failure)));
      QuietEarly(start, cloud.Now(), log, run.err);
      return;
    }
    var s0 := read.snapshot;
    var plan0 := Planner.PlanTarget(At(wanted, s0));
    var added, s1, err;
    added, s1, err, v1, log := AddAndRead(cloud, wanted, s0, v0, plan0, start, log);
    if s1.None? {
      run := AttemptRun(Some(plan0), added, None, None, err);
      QuietEarly(start, cloud.Now(), log, err);
      return;
    }
    var plan1 := Planner.PlanTarget(At(wanted, s1.value));
    var cleanup;
    cleanup, err, log := ProveAndClean(cloud, wanted, raw, s1.value, plan1, v1, start, log);
    run := AttemptRun(Some(plan0), added, Some(plan1), cleanup, err);
  }

  /** What the result of an attempt must say. */
  function FactsOf(run: AttemptRun, complete: bool): ResultFacts {
    var cleanup := match (run.plan1, run.cleanup)
      case (None, _) => None
      case (Some(plan1), None) =>
        Some(CleanupNote(0, |plan1.cleanupCandidates|, |plan1.cleanupCandidates|, FromS1, complete, false))
      case (Some(plan1), Some(c)) =>
        Some(CleanupNote(0, |plan1.cleanupCandidates|, c.deferred, if c.basis.Some? then c.basis.value else FromS1, complete, false));
    var latest := match (run.plan0, run.plan1)
      case (_, Some(plan1)) => Some(PlanNote(0, AtS1, complete, plan1.unsupported, false))
      case (Some(plan0), None) => Some(PlanNote(0, AtS0, complete, plan0.unsupported, false))
      case (None, None) => None;
    var deleted := if run.cleanup.Some? then run.cleanup.value.deleted else 0;
    ResultFacts(run.added, deleted, deleted,
                if run.cleanup.Some? && run.plan1.Some? then OutcomeFor(run.plan1.value) else Success,
                cleanup, latest, if complete then latest else None)
  }

  /** Fills the result of one attempt, in the order things happened. */
  method RecordAttempt(run: AttemptRun, complete: bool) returns (res: TargetResult)
    requires (run.plan1.Some? ==> run.plan0.Some?) && (run.cleanup.Some? ==> run.plan1.Some?) && (run.plan0.None? ==> run.added == 0)
    ensures fresh(res.Repr()) && res.Valid() && res.Facts() == FactsOf(run, complete)
  {
    hide OutcomeFor, TargetResult.Facts, TargetResult.PlansValid, TargetResult.CleanupValid;
    res := new TargetResult();
    if run.plan0.None? {
      return;
    }
    res.ObserveUnsupported(run.plan0.value.unsupported, AtS0, complete);
    res.CountAdded(run.added);
    if run.plan1.None? {
      return;
    }
    ObserveS1(res, run.plan1.value, complete);
    if run.cleanup.Some? {
      RecordCleanup(res, OutcomeFor(run.plan1.value), run.cleanup.value);
    }
  }

  lemma FactsReport(log: AttemptLog, run: AttemptRun, complete: bool)
    requires RunFits(log, run)
    ensures Reports(log, complete, run.err, FactsOf(run, complete))
  {
    hide PlanSpec, Retryable, Earned;
    if log.s1.Some? { OutcomeIsEarned(log.wanted, log.s1.value.snapshot); }
  }

  /** One attempt: resolve, then S0, plan, add, S1, prove coverage, clean up. */
  method RunTargetAttempt(cloud: Cloud, tag: string, rules: seq<DomainRule>, answers: map<string, HostAnswer>, failedHosts: set<string>)
    returns (res: TargetResult, err: Option<TargetError>, failed: set<string>, ghost log: AttemptLog)
    requires cloud.Valid()
    modifies cloud
    ensures cloud.Valid() && AttemptStep(cloud.ct, old(cloud.Now()), cloud.Now(), log)
    ensures fresh(res.Repr()) && res.Valid()
    ensures log.wanted == Wanted(cloud.ct, tag, rules, ResolveAll(answers, rules))
    ensures Reports(log, InputComplete(rules, ResolveAll(answers, rules)), err, res.Facts())
    ensures QuietEnd(old(cloud.Now()), cloud.Now(), log, err)
    ensures err.None? ==> res.outcome == if forall d :: d in DesiredOf(log.wanted) ==> d.implementable then Success else Partial
  {
    hide Sound, AttemptStep, ResolveAll, InputComplete, Reports, QuietEnd, FactsOf, CleanupFits, PlanAt, DesiredOf;
    var m, asked, events;
    m, asked, events, failed := ResolveTargetRules(answers, rules, failedHosts);
    var complete := DesiredInputComplete(rules, m);
    var run;
    run, log := RunProtocol(cloud, Wanted(cloud.ct, tag, rules, m), m.raw);
    FactsReport(log, run, complete);
    err := run.err;
    res := RecordAttempt(run, complete);
    ReportedOutcome(log, InputComplete(rules, ResolveAll(answers, rules)), err, res.Facts());
  }

  lemma ReportedOutcome(log: AttemptLog, complete: bool, err: Option<TargetError>, f: ResultFacts)
    requires Reports(log, complete, err, f)
    ensures err.None? ==> f.outcome == Earned(log.wanted)
  {
    hide PlanSpec, Earned;
  }

  /** A second attempt after a successful one, with the same wishes and nobody interfering, sends no request at
      all and leaves the cloud as it is. */
  lemma SecondAttemptIsIdle(a: Moment, b: Moment, c: Moment, first: AttemptLog, second: AttemptLog, err: Option<TargetError>)
    requires QuietEnd(a, b, first, None) && Quiet(a, b) && b.revision <= MAX_UINT64
    requires QuietEnd(b, c, second, err) && Quiet(b, c) && second.wanted == first.wanted
    ensures Untouched(b, c) && (err.None? || AddressesMissing(second, err)) && Settled(first.wanted, b)
  {
    hide Settled, WellFormed;
  }
}
