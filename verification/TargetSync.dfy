/** `syncTarget`: up to three attempts, what they add up to, and what holds of every such run. */
module TargetSync {
  import opened Text
  import opened Tag
  import opened Ports
  import opened Keys
  import opened Plan
  import opened PlanCleanup
  import opened CloudAPI
  import opened Resolution
  import opened Observation
  import opened TargetSafety
  import opened TargetSettles
  import opened Target

  const MAX_RETRIES: nat := 3

  // ----------------------------------------------------------------- what a run keeps

  /** A run of attempts: `ms[i]` and `ms[i + 1]` are the instants around attempt `i`. */
  ghost predicate IsRun(ct: CloudType, tag: string, ms: seq<Moment>, logs: seq<AttemptLog>) {
    |ms| == |logs| + 1 && forall i :: 0 <= i < |logs| ==> StepAt(ct, tag, ms, logs, i)
  }

  ghost predicate StepAt(ct: CloudType, tag: string, ms: seq<Moment>, logs: seq<AttemptLog>, i: int) {
    0 <= i < |logs| && i < |ms| - 1 && logs[i].wanted.tag == tag && AttemptStep(ct, ms[i], ms[i + 1], logs[i])
  }

  const NEVER := Moment([], 0, [], [], multiset{}, multiset{}, 0, 0, 0, 0)

  /** The instants at which a run starts and ends. */
  function First(ms: seq<Moment>): Moment { if ms == [] then NEVER else ms[0] }

  function Last(ms: seq<Moment>): Moment { if ms == [] then NEVER else ms[|ms| - 1] }

  /** The last attempt of a run, after a run of the others. */
  ghost predicate EndsWith(ct: CloudType, tag: string, ms: seq<Moment>, logs: seq<AttemptLog>, init: seq<Moment>, before: seq<AttemptLog>,
                           log: AttemptLog) {
    && ms == init + [Last(ms)] && logs == before + [log] && First(init) == First(ms) && |init| == |logs|
    && log.wanted.tag == tag && AttemptStep(ct, Last(init), Last(ms), log) && IsRun(ct, tag, init, before)
  }

  lemma RunEnds(ct: CloudType, tag: string, ms: seq<Moment>, logs: seq<AttemptLog>)
    returns (init: seq<Moment>, before: seq<AttemptLog>, log: AttemptLog)
    requires logs != [] && IsRun(ct, tag, ms, logs)
    ensures EndsWith(ct, tag, ms, logs, init, before, log)
  {
    hide AttemptStep;
    init, before, log := ms[..|ms| - 1], logs[..|logs| - 1], logs[|logs| - 1];
    assert StepAt(ct, tag, ms, logs, |logs| - 1);
    forall i | 0 <= i < |before| ensures StepAt(ct, tag, init, before, i) {
      assert StepAt(ct, tag, ms, logs, i);
    }
  }

  lemma RunShape(ct: CloudType, tag: string, ms: seq<Moment>, logs: seq<AttemptLog>)
    requires IsRun(ct, tag, ms, logs)
    ensures |ms| == |logs| + 1
  {
  }

  lemma {:induction false} RunIsLater(ct: CloudType, tag: string, ms: seq<Moment>, logs: seq<AttemptLog>)
    requires IsRun(ct, tag, ms, logs)
    ensures Later(First(ms), Last(ms))
    decreases |logs|
  {
    hide AttemptStep, Later, IsRun;
    RunShape(ct, tag, ms, logs);
    if logs == [] {
      LaterSelf(First(ms));
    } else {
      var init, before, log := RunEnds(ct, tag, ms, logs);
      RunIsLater(ct, tag, init, before);
      AttemptIsLater(ct, Last(init), Last(ms), log);
      LaterTransitive(First(ms), Last(init), Last(ms));
    }
  }

  /** Attempt `i` of a run takes `x` out. */
  ghost predicate TookAt(ms: seq<Moment>, i: int, x: RuleInfo) { 0 <= i < |ms| - 1 && x in Taken(ms[i], ms[i + 1]) }

  /** Attempt `i` of a run takes `x` out, which is stale for it, after an S1 that covers everything expected. */
  ghost predicate TookStale(ms: seq<Moment>, logs: seq<AttemptLog>, i: int, x: RuleInfo) {
    && 0 <= i < |logs| && TookAt(ms, i, x) && StaleFor(logs[i].wanted, x) && CoveredAtS1(logs[i])
  }

  ghost predicate CoveredAtS1(log: AttemptLog) {
    log.s1.Some? && forall d :: d in DesiredOf(log.wanted) ==> d.implementable && Covers(log.s1.value.snapshot.rules, d.key)
  }

  /** Attempt `i` of a run struck no ID that had been rebound to a live rule; and it took stale rules alone. */
  ghost predicate NoneReboundAt(ms: seq<Moment>, logs: seq<AttemptLog>, i: int) {
    0 <= i < |logs| && i < |ms| - 1 && NoneRebound(ms[i], ms[i + 1], logs[i])
  }

  ghost predicate AllStaleAt(ms: seq<Moment>, logs: seq<AttemptLog>, i: int) {
    0 <= i < |logs| && i < |ms| - 1 && AllStale(ms[i], ms[i + 1], logs[i])
  }

  ghost predicate NeverRebound(ms: seq<Moment>, logs: seq<AttemptLog>) {
    forall i :: 0 <= i < |logs| ==> NoneReboundAt(ms, logs, i)
  }

  lemma {:induction false} RunTakes(ct: CloudType, tag: string, ms: seq<Moment>, logs: seq<AttemptLog>, x: RuleInfo)
    requires IsRun(ct, tag, ms, logs) && x in Taken(First(ms), Last(ms))
    ensures exists i :: 0 <= i < |logs| && TookAt(ms, i, x)
    decreases |logs|
  {
    hide AttemptStep, Later, IsRun, Taken;
    RunShape(ct, tag, ms, logs);
    if logs == [] {
      SelfTakesNothing(First(ms));
    } else {
      var init, before, log := RunEnds(ct, tag, ms, logs);
      RunIsLater(ct, tag, init, before);
      AttemptIsLater(ct, Last(init), Last(ms), log);
      TakenSplits(First(ms), Last(init), Last(ms), x);
      if x in Taken(Last(init), Last(ms)) {
        assert TookAt(ms, |before|, x);
      } else {
        RunTakes(ct, tag, init, before, x);
        var i :| 0 <= i < |before| && TookAt(init, i, x);
        assert TookAt(ms, i, x);
      }
    }
  }

  lemma SelfTakesNothing(a: Moment)
    ensures Taken(a, a) == multiset{}
  {
  }

  /** Whatever a run removes is stale for the attempt that removed it and was removed after an S1 that covers
      everything expected: always under version guards, and on Alibaba as long as nobody rebinds the IDs it is
      deleting by. */
  lemma RunRemovesOnlyStale(ct: CloudType, tag: string, ms: seq<Moment>, logs: seq<AttemptLog>, x: RuleInfo)
    requires IsRun(ct, tag, ms, logs) && x in Taken(First(ms), Last(ms))
    requires Tencent(ct) || NeverRebound(ms, logs)
    ensures IsOwned(x.description, tag)
    ensures exists i :: TookStale(ms, logs, i, x)
  {
    hide AttemptStep, IsOwned, KeysOf, DesiredOf, Covers, Taken, NoneRebound;
    RunTakes(ct, tag, ms, logs, x);
    var i :| 0 <= i < |logs| && TookAt(ms, i, x);
    assert StepAt(ct, tag, ms, logs, i);
    assert Tencent(ct) || NoneReboundAt(ms, logs, i);
    OnlyStaleIsRemoved(ct, ms[i], ms[i + 1], logs[i], x);
    RemovalNeedsCoverage(ct, ms[i], ms[i + 1], logs[i], x);
    assert TookStale(ms, logs, i, x);
  }

  /** On Alibaba every attempt of a run removes stale rules alone if and only if none of them struck a
      rebound ID. */
  lemma RunStaleExactly(ct: CloudType, tag: string, ms: seq<Moment>, logs: seq<AttemptLog>)
    requires Alibaba(ct) && IsRun(ct, tag, ms, logs)
    ensures (forall i :: 0 <= i < |logs| ==> AllStaleAt(ms, logs, i)) <==> NeverRebound(ms, logs)
  {
    hide AttemptStep, AllStale, NoneRebound;
    forall i | 0 <= i < |logs| ensures AllStaleAt(ms, logs, i) <==> NoneReboundAt(ms, logs, i) {
      assert StepAt(ct, tag, ms, logs, i);
      StaleExactly(ct, ms[i], ms[i + 1], logs[i]);
    }
  }

  lemma TakenSplits(a: Moment, b: Moment, c: Moment, x: RuleInfo)
    requires Later(a, b) && Later(b, c) && x in Taken(a, c)
    ensures x in Taken(a, b) || x in Taken(b, c)
  {
    hide Balanced;
    assert a.removed[x] <= b.removed[x] <= c.removed[x];
  }

  /** Access survives a whole run, failures and retries included: on a cloud that only this tool changes, a
      key that every attempt expects and that is covered at the start is covered at the end, and a rule
      outside the TAG is never fewer. */
  lemma {:induction false} RunKeepsAccess(ct: CloudType, tag: string, ms: seq<Moment>, logs: seq<AttemptLog>, k: Key)
    requires IsRun(ct, tag, ms, logs) && Last(ms).foreign == First(ms).foreign
    requires Covers(First(ms).view, k) && forall i :: 0 <= i < |logs| ==> k in DesiredKeys(DesiredOf(logs[i].wanted))
    ensures Covers(Last(ms).view, k)
    decreases |logs|
  {
    hide AttemptStep, KeysOf, DesiredOf, Covers, IsRun, Balanced, Booked;
    RunShape(ct, tag, ms, logs);
    if logs != [] {
      var init, before, log := RunEnds(ct, tag, ms, logs);
      RunIsLater(ct, tag, init, before);
      AttemptIsLater(ct, Last(init), Last(ms), log);
      assert forall i :: 0 <= i < |before| ==> before[i] == logs[i];
      assert log == logs[|before|];
      RunKeepsAccess(ct, tag, init, before, k);
      AccessIsKept(ct, Last(init), Last(ms), log, k);
    }
  }

  lemma {:induction false} RunKeepsOthers(ct: CloudType, tag: string, ms: seq<Moment>, logs: seq<AttemptLog>, x: RuleInfo)
    requires IsRun(ct, tag, ms, logs) && Last(ms).foreign == First(ms).foreign && !IsOwned(x.description, tag)
    ensures Contents(Last(ms))[x] >= Contents(First(ms))[x]
    decreases |logs|
  {
    hide AttemptStep, IsOwned, KeysOf, DesiredOf, Contents, IsRun, Balanced, Booked;
    RunShape(ct, tag, ms, logs);
    if logs != [] {
      var init, before, log := RunEnds(ct, tag, ms, logs);
      RunIsLater(ct, tag, init, before);
      AttemptIsLater(ct, Last(init), Last(ms), log);
      RunKeepsOthers(ct, tag, init, before, x);
      OthersStay(ct, Last(init), Last(ms), log, x);
    }
  }

  // -------------------------------------------------------------------- accounting

  function SumAdded(fs: seq<ResultFacts>): nat {
    if fs == [] then 0 else SumAdded(fs[..|fs| - 1]) + fs[|fs| - 1].added
  }

  function SumDeleted(fs: seq<ResultFacts>): nat {
    if fs == [] then 0 else SumDeleted(fs[..|fs| - 1]) + fs[|fs| - 1].deleted
  }

  function KeptCleanup(fs: seq<ResultFacts>): Option<CleanupNote> {
    if fs == [] then None else MergedCleanup(KeptCleanup(fs[..|fs| - 1]), fs[|fs| - 1].cleanup, |fs|)
  }

  function KeptLatest(fs: seq<ResultFacts>): Option<PlanNote> {
    if fs == [] then None else MergedPlan(KeptLatest(fs[..|fs| - 1]), fs[|fs| - 1].latest, |fs|)
  }

  function KeptComplete(fs: seq<ResultFacts>): Option<PlanNote> {
    if fs == [] then None else MergedPlan(KeptComplete(fs[..|fs| - 1]), fs[|fs| - 1].lastComplete, |fs|)
  }

  ghost predicate LastMade<T>(ns: seq<Option<T>>, i: int) {
    0 <= i < |ns| && ns[i].Some? && forall j :: i < j < |ns| ==> ns[j].None?
  }

  function CleanupNotes(fs: seq<ResultFacts>): (ns: seq<Option<CleanupNote>>)
    ensures |ns| == |fs| && forall i :: 0 <= i < |fs| ==> ns[i] == fs[i].cleanup
  {
    seq(|fs|, i requires 0 <= i < |fs| => fs[i].cleanup)
  }

  /** The cleanup observation kept is the last one made, under its own attempt number, and historical
      exactly when a later attempt made none; without any there is none. */
  lemma {:induction false} LastCleanupIsKept(fs: seq<ResultFacts>, i: int)
    ensures (forall f :: f in fs ==> f.cleanup.None?) ==> KeptCleanup(fs) == None
    ensures LastMade(CleanupNotes(fs), i)
            ==> KeptCleanup(fs) == Some(fs[i].cleanup.value.(attempt := i + 1, historical := i + 1 != |fs|))
  {
    if fs != [] {
      var init := fs[..|fs| - 1];
      assert CleanupNotes(init) == CleanupNotes(fs)[..|fs| - 1];
      assert CleanupNotes(fs)[|fs| - 1] == fs[|fs| - 1].cleanup;
      assert forall f :: f in init ==> f in fs;
      assert fs[|fs| - 1] in fs;
      LastCleanupIsKept(init, i);
      if LastMade(CleanupNotes(fs), i) && i < |fs| - 1 {
        assert LastMade(CleanupNotes(init), i);
      }
    }
  }

  function LatestNotes(fs: seq<ResultFacts>): (ns: seq<Option<PlanNote>>)
    ensures |ns| == |fs| && forall i :: 0 <= i < |fs| ==> ns[i] == fs[i].latest
  {
    seq(|fs|, i requires 0 <= i < |fs| => fs[i].latest)
  }

  function CompleteNotes(fs: seq<ResultFacts>): (ns: seq<Option<PlanNote>>)
    ensures |ns| == |fs| && forall i :: 0 <= i < |fs| ==> ns[i] == fs[i].lastComplete
  {
    seq(|fs|, i requires 0 <= i < |fs| => fs[i].lastComplete)
  }

  function KeptPlan(ns: seq<Option<PlanNote>>): Option<PlanNote> {
    if ns == [] then None else MergedPlan(KeptPlan(ns[..|ns| - 1]), ns[|ns| - 1], |ns|)
  }

  lemma {:induction false} KeptPlans(fs: seq<ResultFacts>)
    ensures KeptLatest(fs) == KeptPlan(LatestNotes(fs)) && KeptComplete(fs) == KeptPlan(CompleteNotes(fs))
  {
    if fs != [] {
      var init := fs[..|fs| - 1];
      KeptPlans(init);
      assert LatestNotes(fs)[..|fs| - 1] == LatestNotes(init);
      assert CompleteNotes(fs)[..|fs| - 1] == CompleteNotes(init);
    }
  }

  /** So are the latest and the last complete planning observation. */
  lemma {:induction false} LastPlanIsKept(ns: seq<Option<PlanNote>>, i: int)
    ensures (forall n :: n in ns ==> n.None?) ==> KeptPlan(ns) == None
    ensures LastMade(ns, i) ==> KeptPlan(ns) == Some(ns[i].value.(attempt := i + 1, historical := i + 1 != |ns|))
  {
    if ns != [] {
      var init := ns[..|ns| - 1];
      assert forall n :: n in init ==> n in ns;
      assert ns[|ns| - 1] in ns;
      LastPlanIsKept(init, i);
      if LastMade(ns, i) && i < |ns| - 1 {
        assert LastMade(init, i);
      }
    }
  }

  // ---------------------------------------------------------------------- the method

  /** Everything there is to know about one run of `SyncTarget`. */
  datatype SyncRun = SyncRun(ms: seq<Moment>, logs: seq<AttemptLog>, facts: seq<ResultFacts>, errs: seq<Option<TargetError>>)

  /** Attempt `i` of a run reports what it did on the answers it got, and ends quietly if it was undisturbed. */
  ghost predicate Attempted(rules: seq<DomainRule>, answers: seq<map<string, HostAnswer>>, ct: CloudType, tag: string, run: SyncRun, i: nat) {
    && i < |run.logs| <= |answers| && |run.facts| == |run.errs| == |run.logs| && |run.ms| == |run.logs| + 1
    && AttemptFits(rules, AnswersOf(answers, i), ct, tag, run.ms[i], run.ms[i + 1], run.logs[i], run.facts[i], run.errs[i])
  }

  function AnswersOf(answers: seq<map<string, HostAnswer>>, i: nat): map<string, HostAnswer> {
    if i < |answers| then answers[i] else map[]
  }

  ghost predicate AttemptFits(rules: seq<DomainRule>, answers: map<string, HostAnswer>, ct: CloudType, tag: string, a: Moment, b: Moment,
                              log: AttemptLog, f: ResultFacts, e: Option<TargetError>) {
    var m := ResolveAll(answers, rules);
    log.wanted == Wanted(ct, tag, rules, m) && Reports(log, InputComplete(rules, m), e, f) && QuietEnd(a, b, log, e)
  }

  /** The attempts of a run are chained, and each reports what it did on the answers it got. */
  ghost predicate RunOK(rules: seq<DomainRule>, answers: seq<map<string, HostAnswer>>, ct: CloudType, tag: string, run: SyncRun) {
    && |run.ms| == |run.logs| + 1 && |run.facts| == |run.errs| == |run.logs| <= |answers|
    && IsRun(ct, tag, run.ms, run.logs)
    && forall i :: 0 <= i < |run.logs| ==> Attempted(rules, answers, ct, tag, run, i)
  }

  /** All errors so far were worth another attempt. */
  ghost predicate AllRetryable(errs: seq<Option<TargetError>>) {
    forall e :: e in errs ==> e.Some? && Retryable(e.value)
  }

  /** Every attempt but the last failed in a way that is worth another one. */
  ghost predicate RetriedOnly(run: SyncRun) { run.errs != [] && AllRetryable(run.errs[..|run.errs| - 1]) }

  /** What the whole result is, given its attempts. */
  ghost predicate Totals(run: SyncRun, f: ResultFacts) {
    && f.added == SumAdded(run.facts) && f.deleted == SumDeleted(run.facts) && f.cleanupDeleted == f.deleted
    && f.cleanup == KeptCleanup(run.facts) && f.latest == KeptLatest(run.facts) && f.lastComplete == KeptComplete(run.facts)
  }

  function Extended(run: SyncRun, m: Moment, log: AttemptLog, f: ResultFacts, e: Option<TargetError>): SyncRun {
    SyncRun(run.ms + [m], run.logs + [log], run.facts + [f], run.errs + [e])
  }

  lemma RunExtends(rules: seq<DomainRule>, answers: seq<map<string, HostAnswer>>, ct: CloudType, tag: string, run: SyncRun,
                   m: Moment, log: AttemptLog, f: ResultFacts, e: Option<TargetError>)
    requires |run.logs| < |answers| && AttemptFits(rules, AnswersOf(answers, |run.logs|), ct, tag, Last(run.ms), m, log, f, e)
    requires RunOK(rules, answers, ct, tag, run) && AttemptStep(ct, Last(run.ms), m, log)
    ensures RunOK(rules, answers, ct, tag, Extended(run, m, log, f, e))
  {
    hide AttemptStep, Reports, ResolveAll, InputComplete, QuietEnd;
    var more := Extended(run, m, log, f, e);
    forall i | 0 <= i < |more.logs| ensures StepAt(ct, tag, more.ms, more.logs, i) {
      if i < |run.logs| { assert StepAt(ct, tag, run.ms, run.logs, i); }
    }
    forall i | 0 <= i < |more.logs| ensures Attempted(rules, answers, ct, tag, more, i) {
      if i < |run.logs| { assert Attempted(rules, answers, ct, tag, run, i); }
    }
  }

  lemma TotalsExtend(run: SyncRun, m: Moment, log: AttemptLog, f: ResultFacts, e: Option<TargetError>)
    ensures var fs := Extended(run, m, log, f, e).facts;
            && SumAdded(fs) == SumAdded(run.facts) + f.added && SumDeleted(fs) == SumDeleted(run.facts) + f.deleted
            && KeptCleanup(fs) == MergedCleanup(KeptCleanup(run.facts), f.cleanup, |run.facts| + 1)
            && KeptLatest(fs) == MergedPlan(KeptLatest(run.facts), f.latest, |run.facts| + 1)
            && KeptComplete(fs) == MergedPlan(KeptComplete(run.facts), f.lastComplete, |run.facts| + 1)
  {
    var fs := run.facts + [f];
    assert fs[..|fs| - 1] == run.facts;
  }

  /** Adds the outcome of one attempt to the result. */
  method Accumulate(res: TargetResult, next: TargetResult, attempt: nat)
    requires res.Valid() && next.Valid() && res.Repr() !! next.Repr()
    modifies res.Repr(), next.Repr()
    ensures res.Valid() && res.attempts == attempt
    ensures var was, n := old(res.Facts()), old(next.Facts());
            res.Facts() == ResultFacts(was.added + n.added, was.deleted + n.deleted, was.cleanupDeleted + n.cleanupDeleted, was.outcome,
                                       MergedCleanup(was.cleanup, n.cleanup, attempt), MergedPlan(was.latest, n.latest, attempt),
                                       MergedPlan(was.lastComplete, n.lastComplete, attempt))
    ensures fresh(res.Repr() - old(res.Repr() + next.Repr()))
  {
    hide MergedCleanup, MergedPlan, TargetResult.CleanupValid, TargetResult.PlansValid;
    SharesNothing(res, next);
    var added, deleted, cleanupDeleted := next.added, next.deleted, next.cleanupDeleted;
    res.MergeObservations(next, attempt);
    Count(res, added, deleted, cleanupDeleted);
  }

  method Count(res: TargetResult, added: nat, deleted: nat, cleanupDeleted: nat)
    requires res.Valid()
    modifies res`added, res`deleted, res`cleanupDeleted
    ensures res.Valid() && res.Repr() == old(res.Repr())
    ensures res.Facts() == var was := old(res.Facts());
              was.(added := was.added + added, deleted := was.deleted + deleted, cleanupDeleted := was.cleanupDeleted + cleanupDeleted)
  {
    res.added := res.added + added;
    res.deleted := res.deleted + deleted;
    res.cleanupDeleted := res.cleanupDeleted + cleanupDeleted;
  }

  lemma SharesNothing(res: TargetResult, next: TargetResult)
    requires res.Repr() !! next.Repr()
    ensures res.Apart(next)
  {
  }

  lemma AnyOutcome(rules: seq<DomainRule>, answers: seq<map<string, HostAnswer>>, ct: CloudType, tag: string,
                   start: Moment, now: Moment, run: SyncRun, f: ResultFacts, n: nat, outcome: Outcome)
    requires InProgress(rules, answers, ct, tag, start, now, run, f, n)
    ensures InProgress(rules, answers, ct, tag, start, now, run, f.(outcome := outcome), n)
  {
    hide RunOK;
  }

  method Conclude(res: TargetResult, outcome: Outcome)
    requires res.Valid()
    modifies res`outcome
    ensures res.Valid() && res.Repr() == old(res.Repr()) && res.Facts() == old(res.Facts()).(outcome := outcome)
    ensures res.outcome == outcome
  {
    res.outcome := outcome;
  }

  /** The last attempt of a run. */
  ghost function LastLog(run: SyncRun): AttemptLog
    requires run.logs != []
  {
    run.logs[|run.logs| - 1]
  }

  /** The verdict of a run, from its last attempt: success, retryable leftovers on the last of three attempts,
      or failure. */
  ghost predicate Verdict(run: SyncRun, outcome: Outcome, err: Option<TargetError>)
    requires |run.errs| == |run.logs| > 0
  {
    var (log, e) := (run.logs[|run.logs| - 1], run.errs[|run.errs| - 1]);
    if e.None? || (|run.logs| == MAX_RETRIES && e.value.CleanupRetryable?) then err.None? && GoodEnd(log, outcome)
    else err == e && outcome == Failed && (|run.logs| == MAX_RETRIES || !Retryable(e.value))
  }

  /** `n` attempts are made, all so far worth another one. */
  ghost predicate InProgress(rules: seq<DomainRule>, answers: seq<map<string, HostAnswer>>, ct: CloudType, tag: string,
                             start: Moment, now: Moment, run: SyncRun, f: ResultFacts, n: nat) {
    RunOK(rules, answers, ct, tag, run) && |run.logs| == n && First(run.ms) == start && Last(run.ms) == now && Totals(run, f)
  }

  lemma Started(rules: seq<DomainRule>, answers: seq<map<string, HostAnswer>>, ct: CloudType, tag: string, start: Moment, outcome: Outcome)
    ensures InProgress(rules, answers, ct, tag, start, start, SyncRun([start], [], [], []), ResultFacts(0, 0, 0, outcome, None, None, None), 0)
  {
  }

  lemma Proceeds(rules: seq<DomainRule>, answers: seq<map<string, HostAnswer>>, ct: CloudType, tag: string, start: Moment, now: Moment,
                 run: SyncRun, was: ResultFacts, is_: ResultFacts, n: nat, later: Moment, log: AttemptLog, f: ResultFacts,
                 e: Option<TargetError>)
    requires n < |answers| && AttemptFits(rules, AnswersOf(answers, n), ct, tag, now, later, log, f, e)
    requires InProgress(rules, answers, ct, tag, start, now, run, was, n) && AttemptStep(ct, now, later, log)
    requires is_ == ResultFacts(was.added + f.added, was.deleted + f.deleted, was.cleanupDeleted + f.cleanupDeleted, was.outcome,
                                MergedCleanup(was.cleanup, f.cleanup, n + 1), MergedPlan(was.latest, f.latest, n + 1),
                                MergedPlan(was.lastComplete, f.lastComplete, n + 1))
    ensures InProgress(rules, answers, ct, tag, start, later, Extended(run, later, log, f, e), is_, n + 1)
    ensures f.deleted == f.cleanupDeleted && |run.logs| == n
    ensures e.None? || e.value.CleanupRetryable? ==> GoodEnd(log, f.outcome)
  {
    hide AttemptStep, ResolveAll, InputComplete, PlanSpec, MergedCleanup, MergedPlan, KeptCleanup, KeptLatest, KeptComplete, SumAdded,
         SumDeleted, RunOK, AnswersOf, LastPlan, Confirmed, Retryable, QuietEnd;
    assert |run.ms| == |run.logs| + 1 && |run.facts| == |run.logs| by { RunLengths(rules, answers, ct, tag, run); }
    RunExtends(rules, answers, ct, tag, run, later, log, f, e);
    TotalsExtend(run, later, log, f, e);
  }

  lemma RunLengths(rules: seq<DomainRule>, answers: seq<map<string, HostAnswer>>, ct: CloudType, tag: string, run: SyncRun)
    requires RunOK(rules, answers, ct, tag, run)
    ensures |run.ms| == |run.logs| + 1 && |run.facts| == |run.errs| == |run.logs| <= |answers|
  {
    hide Attempted, AttemptStep;
  }

  /** One turn of the loop: an attempt whose findings go into the result. */
  method AddAttempt(cloud: Cloud, res: TargetResult, tag: string, rules: seq<DomainRule>, answers: seq<map<string, HostAnswer>>,
                    failedHosts: set<string>, attempt: nat, ghost start: Moment, ghost before: SyncRun)
    returns (outcome: Outcome, err: Option<TargetError>, failed: set<string>, ghost run: SyncRun)
    requires cloud.Valid() && res.Valid() && allocated(res.Repr()) && cloud !in res.Repr() && attempt < |answers|
    requires InProgress(rules, answers, cloud.ct, tag, start, cloud.Now(), before, res.Facts(), attempt)
    modifies cloud, res.Repr()
    ensures cloud.Valid() && res.Valid() && fresh(res.Repr() - old(res.Repr())) && cloud !in res.Repr()
    ensures InProgress(rules, answers, cloud.ct, tag, start, cloud.Now(), run, res.Facts(), attempt + 1)
    ensures res.attempts == attempt + 1 && run.errs == before.errs + [err] && |run.logs| == attempt + 1
    ensures err.None? || err.value.CleanupRetryable? ==> GoodEnd(run.logs[attempt], outcome)
  {
    hide AttemptStep, Reports, ResolveAll, InputComplete, QuietEnd, GoodEnd, Retryable, InProgress, Wanted,
         TargetResult.Valid, TargetResult.Repr, TargetResult.Plans, Cloud.Valid, Cloud.Now, MergedCleanup, MergedPlan;
    ghost var was, now, mine := res.Facts(), cloud.Now(), res.Repr();
    var next;
    ghost var log;
    next, err, failed, log := RunTargetAttempt(cloud, tag, rules, answers[attempt], failedHosts);
    ghost var f, theirs := next.Facts(), next.Repr();
    outcome := next.outcome;
    assert res.Repr() == mine && fresh(theirs);
    label merging:
    Accumulate(res, next, attempt + 1);
    forall o | o in res.Repr() && o !in mine ensures fresh(o) {
      assert o in theirs || fresh@merging(o);
    }
    Proceeds(rules, answers, cloud.ct, tag, start, now, before, was, res.Facts(), attempt, cloud.Now(), log, f, err);
    run := Extended(before, cloud.Now(), log, f, err);
  }

  /** Up to three attempts, each with its own answers; confirmed writes add up, and the newest observations
      are kept. */
  method SyncTarget(cloud: Cloud, tag: string, rules: seq<DomainRule>, answers: seq<map<string, HostAnswer>>)
    returns (res: TargetResult, err: Option<TargetError>, ghost run: SyncRun)
    requires cloud.Valid() && |answers| == MAX_RETRIES
    modifies cloud
    ensures cloud.Valid() && fresh(res.Repr()) && res.Valid()
    ensures InProgress(rules, answers, cloud.ct, tag, old(cloud.Now()), cloud.Now(), run, res.Facts(), res.attempts)
    ensures res.attempts > 0 && |run.errs| == |run.logs| == res.attempts
    ensures RetriedOnly(run) && Verdict(run, res.outcome, err)
    ensures err.None? ==> res.outcome == if forall d :: d in DesiredOf(LastLog(run).wanted) ==> d.implementable then Success else Partial
    ensures err.Some? ==> res.outcome == Failed
  {
    hide Retryable, Confirmed, PlanAt, DesiredOf, InProgress, TargetResult.Valid, TargetResult.Repr, TargetResult.Plans, TargetResult.Facts,
         Cloud.Valid, Cloud.Now;
    ghost var start := cloud.Now();
    res := new TargetResult();
    err, run := None, SyncRun([start], [], [], []);
    Started(rules, answers, cloud.ct, tag, start, Success);
    var failed: set<string> := {};
    for attempt := 0 to MAX_RETRIES
      invariant cloud.Valid() && fresh(res.Repr()) && cloud !in res.Repr() && res.Valid()
      invariant InProgress(rules, answers, cloud.ct, tag, start, cloud.Now(), run, res.Facts(), attempt)
      invariant |run.errs| == |run.logs| == attempt && AllRetryable(run.errs)
      invariant attempt > 0 ==> res.attempts == attempt && err == run.errs[attempt - 1]
      invariant attempt == MAX_RETRIES ==> !err.value.CleanupRetryable?
    {
      ghost var errs, mine := run.errs, res.Repr();
      label turning:
      var outcome;
      outcome, err, failed, run := AddAttempt(cloud, res, tag, rules, answers, failed, attempt, start, run);
      assert run.errs[..|run.errs| - 1] == errs;
      forall o | o in res.Repr() ensures fresh(o) {
        assert o in mine || fresh@turning(o);
      }
      if err.None? || (attempt == MAX_RETRIES - 1 && err.value.CleanupRetryable?) {
        AnyOutcome(rules, answers, cloud.ct, tag, start, cloud.Now(), run, res.Facts(), attempt + 1, outcome);
        Conclude(res, outcome);
        err := None;
        return;
      }
      if !Retryable(err.value) {
        AnyOutcome(rules, answers, cloud.ct, tag, start, cloud.Now(), run, res.Facts(), attempt + 1, Failed);
        Conclude(res, Failed);
        return;
      }
    }
    AnyOutcome(rules, answers, cloud.ct, tag, start, cloud.Now(), run, res.Facts(), MAX_RETRIES, Failed);
    Conclude(res, Failed);
  }

  /** When another attempt follows a failed one, from what the failed call said itself: after the first two
      attempts exactly when its cause is flagged retryable; after a missing coverage, a missing version, a lost
      coverage or a refused addition never. */
  lemma AnotherAttemptFollows(run: SyncRun, outcome: Outcome, err: Option<TargetError>, i: nat)
    requires i < |run.errs| == |run.logs| <= MAX_RETRIES && RetriedOnly(run) && Verdict(run, outcome, err)
    ensures run.errs[i].None? || i == 2 ==> i + 1 == |run.errs|
    ensures run.errs[i].Some? && i < 2 ==>
              var follows := i + 1 < |run.errs|;
              match run.errs[i].value
              case SnapshotUnread(_, failure) => follows <==> failure.retryable
              case AddFailed(API(failure)) => follows <==> failure.retryable
              case CleanupRetryable(API(failure)) => follows <==> failure.retryable
              case AddFailed(PartialDelete(_, failure)) => follows <==> failure.retryable
              case CleanupRetryable(PartialDelete(_, failure)) => follows <==> failure.retryable
              case NoAddresses(retryable) => follows <==> retryable
              case _ => !follows
  {
    hide GoodEnd;
    if i + 1 < |run.errs| { assert run.errs[i] in run.errs[..|run.errs| - 1]; }
  }

  // -------------------------------------------------------------------- a second sync

  /** Every attempt of a run ends quietly if it was undisturbed. */
  ghost predicate EndsQuietly(ms: seq<Moment>, logs: seq<AttemptLog>, errs: seq<Option<TargetError>>) {
    && |errs| == |logs| && |ms| == |logs| + 1
    && forall i :: 0 <= i < |logs| ==> QuietEnd(ms[i], ms[i + 1], logs[i], errs[i])
  }

  ghost predicate OnlyAddressesMissing(logs: seq<AttemptLog>, errs: seq<Option<TargetError>>) {
    |errs| == |logs| && forall i :: 0 <= i < |logs| ==> errs[i].None? || AddressesMissing(logs[i], errs[i])
  }

  lemma StaysSettled(wanted: PlanInput, a: Moment, b: Moment)
    requires Settled(wanted, a) && Untouched(a, b)
    ensures Settled(wanted, b)
  {
    hide PlanSpec, RevisionText;
  }

  /** Attempts on a settled cloud that nobody disturbs leave it as it is, one after another. */
  lemma {:induction false} SettledStaysIdle(ct: CloudType, tag: string, ms: seq<Moment>, logs: seq<AttemptLog>,
                                            errs: seq<Option<TargetError>>, wanted: PlanInput)
    requires IsRun(ct, tag, ms, logs) && EndsQuietly(ms, logs, errs) && forall log :: log in logs ==> log.wanted == wanted
    requires Quiet(First(ms), Last(ms)) && Settled(wanted, First(ms))
    ensures Untouched(First(ms), Last(ms)) && Settled(wanted, Last(ms)) && OnlyAddressesMissing(logs, errs)
    decreases |logs|
  {
    hide AttemptStep, IsRun, Settled, QuietEnd, Later, AddressesMissing;
    if logs != [] {
      var init, before, log := RunEnds(ct, tag, ms, logs);
      RunIsLater(ct, tag, init, before);
      AttemptIsLater(ct, Last(init), Last(ms), log);
      QuietParts(First(ms), Last(init), Last(ms));
      LastEndsQuietly(ms, logs, errs, init, before, log);
      SettledStaysIdle(ct, tag, init, before, errs[..|before|], wanted);
      QuietAndSettled(Last(init), Last(ms), log, errs[|before|]);
      assert Untouched(First(ms), Last(ms));
      StaysSettled(wanted, Last(init), Last(ms));
    }
  }

  lemma LastEndsQuietly(ms: seq<Moment>, logs: seq<AttemptLog>, errs: seq<Option<TargetError>>, init: seq<Moment>,
                        before: seq<AttemptLog>, log: AttemptLog)
    requires EndsQuietly(ms, logs, errs) && ms == init + [Last(ms)] && logs == before + [log] && |init| == |logs|
    ensures EndsQuietly(init, before, errs[..|before|]) && QuietEnd(Last(init), Last(ms), log, errs[|before|]) && log in logs
  {
    hide QuietEnd;
    var n := |before|;
    assert ms[n] == Last(init) && ms[n + 1] == Last(ms) && logs[n] == log;
    forall i | 0 <= i < n ensures QuietEnd(init[i], init[i + 1], before[i], errs[..n][i]) {
      assert QuietEnd(ms[i], ms[i + 1], logs[i], errs[i]);
    }
  }

  lemma QuietAndSettled(a: Moment, b: Moment, log: AttemptLog, err: Option<TargetError>)
    requires QuietEnd(a, b, log, err) && Quiet(a, b) && Settled(log.wanted, a)
    ensures Untouched(a, b) && (err.None? || AddressesMissing(log, err))
  {
    hide Settled, WellFormed, AddressesMissing;
  }

  /** Whether addresses are missing does not depend on the snapshot. */
  lemma MissingForAll(wanted: PlanInput, s: RuleSnapshot, t: RuleSnapshot)
    ensures PlanSpec(At(wanted, s)).dnsErrors == PlanSpec(At(wanted, t)).dnsErrors
  {
    hide AllItems, AllDNSIssues, DesiredOf, Sort, MatchesOf, ToAddOf, CandidatesOf, Locatable, GateIssues, LocatorIssues, ConflictsOf,
         CoverageReadyOf;
    ExpectationsIgnoreSnapshot(At(wanted, s), At(wanted, t), SortedRules(At(wanted, s)));
  }

  /** The last attempt of a run made no error. */
  ghost predicate Succeeded(run: SyncRun) { run.errs != [] && run.errs[|run.errs| - 1] == None }

  /** The answers of the last attempt of a run. */
  function LastAnswers(run: SyncRun, answers: seq<map<string, HostAnswer>>): map<string, HostAnswer> {
    if run.logs == [] then map[] else AnswersOf(answers, |run.logs| - 1)
  }

  lemma SettledBySuccess(rules: seq<DomainRule>, answers: seq<map<string, HostAnswer>>, ct: CloudType, tag: string, first: SyncRun)
    returns (wanted: PlanInput)
    requires RunOK(rules, answers, ct, tag, first) && Succeeded(first) && Quiet(First(first.ms), Last(first.ms))
    requires Last(first.ms).revision <= MAX_UINT64
    ensures wanted == Wanted(ct, tag, rules, ResolveAll(LastAnswers(first, answers), rules))
    ensures Settled(wanted, Last(first.ms)) && forall s :: PlanSpec(At(wanted, s)).dnsErrors == []
  {
    hide AttemptStep, PlanSpec, Later, IsRun, Settled, InputComplete, ResolveAll, WellFormed, LastPlan, PlannedAdditions, PlannedDeletions;
    RunLengths(rules, answers, ct, tag, first);
    var n := |first.logs| - 1;
    assert Attempted(rules, answers, ct, tag, first, n);
    var init, before, log := RunEnds(ct, tag, first.ms, first.logs);
    assert log == first.logs[n] && first.ms[n] == Last(init) && first.ms[n + 1] == Last(first.ms);
    RunIsLater(ct, tag, init, before);
    AttemptIsLater(ct, Last(init), Last(first.ms), log);
    QuietParts(First(first.ms), Last(init), Last(first.ms));
    wanted := log.wanted;
    forall s ensures PlanSpec(At(wanted, s)).dnsErrors == [] { MissingForAll(wanted, s, log.s1.value.snapshot); }
  }

  /** A second sync after a successful one, on the same answers and with nobody interfering, makes one attempt,
      sends no request and leaves the cloud as it is. */
  lemma SecondSyncIsIdle(rules: seq<DomainRule>, answers: seq<map<string, HostAnswer>>, others: seq<map<string, HostAnswer>>,
                         ct: CloudType, tag: string, first: SyncRun, second: SyncRun)
    requires RunOK(rules, answers, ct, tag, first) && Succeeded(first) && Quiet(First(first.ms), Last(first.ms))
    requires Last(first.ms).revision <= MAX_UINT64 && forall a :: a in others ==> a == LastAnswers(first, answers)
    requires Last(first.ms) == First(second.ms) && Quiet(First(second.ms), Last(second.ms))
    requires RunOK(rules, others, ct, tag, second) && RetriedOnly(second)
    ensures second.errs == [None] && Untouched(First(second.ms), Last(second.ms))
  {
    hide AttemptStep, PlanSpec, IsRun, Settled, ResolveAll, QuietEnd, Untouched;
    var wanted := SettledBySuccess(rules, answers, ct, tag, first);
    forall i | 0 <= i < |second.logs|
      ensures second.logs[i].wanted == wanted && QuietEnd(second.ms[i], second.ms[i + 1], second.logs[i], second.errs[i])
    {
      assert Attempted(rules, others, ct, tag, second, i);
      assert others[i] in others;
    }
    SettledStaysIdle(ct, tag, second.ms, second.logs, second.errs, wanted);
    assert second.errs[0] == None;
    HeadRetryable(second.errs[..|second.errs| - 1]);
  }

  lemma HeadRetryable(errs: seq<Option<TargetError>>)
    ensures AllRetryable(errs) && errs != [] ==> errs[0].Some?
  {
    assert errs != [] ==> errs[0] in errs;
  }
}
