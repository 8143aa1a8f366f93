/** What a target sync remembers about its attempts (syncer/observation.go): observation objects that
    the result of one attempt hands to the result of the whole sync, which rewrites them in place. */
module Observation {
  import opened Text
  import opened Plan

  datatype Basis = FromS1 | FromS2 | DeleteProgress
  datatype Stage = AtS0 | AtS1
  datatype Outcome = Success | Partial | Failed

  /** The value of a cleanup observation; `attempt` 0 means not merged yet. */
  datatype CleanupNote = CleanupNote(attempt: nat, candidates: nat, deferred: int, basis: Basis, desiredComplete: bool, historical: bool)

  /** The value of a planning observation. */
  datatype PlanNote = PlanNote(attempt: nat, stage: Stage, complete: bool, issues: seq<Issue>, historical: bool)

  /** The value of a target result. */
  datatype ResultFacts = ResultFacts(added: nat, deleted: nat, cleanupDeleted: nat, outcome: Outcome,
                                     cleanup: Option<CleanupNote>, latest: Option<PlanNote>, lastComplete: Option<PlanNote>)

  class CleanupObservation {
    var attempt: nat
    var candidates: nat
    var deferred: int
    var basis: Basis
    var desiredComplete: bool
    var historical: bool

    ghost function Value(): CleanupNote
      reads this
    {
      CleanupNote(attempt, candidates, deferred, basis, desiredComplete, historical)
    }

    constructor (candidates: nat, desiredComplete: bool)
      ensures Value() == CleanupNote(0, candidates, candidates, FromS1, desiredComplete, false)
    {
      this.attempt, this.candidates, this.deferred := 0, candidates, candidates;
      this.basis, this.desiredComplete, this.historical := FromS1, desiredComplete, false;
    }
  }

  class PlanObservation {
    var attempt: nat
    var stage: Stage
    var complete: bool
    var issues: seq<Issue>
    var historical: bool

    ghost function Value(): PlanNote
      reads this
    {
      PlanNote(attempt, stage, complete, issues, historical)
    }

    constructor (stage: Stage, complete: bool, issues: seq<Issue>)
      ensures Value() == PlanNote(0, stage, complete, issues, false)
    {
      this.attempt, this.stage, this.complete, this.issues, this.historical := 0, stage, complete, issues, false;
    }
  }

  /** The latest planning observation and the latest complete one, often one and the same object. */
  class UnsupportedObservation {
    var latest: PlanObservation
    var lastComplete: PlanObservation?

    ghost function Plans(): set<PlanObservation>
      reads this
    {
      {latest} + (if lastComplete == null then {} else var o: PlanObservation := lastComplete; {o})
    }

    constructor (latest: PlanObservation)
      ensures this.latest == latest && lastComplete == null
    {
      this.latest, lastComplete := latest, null;
    }

    /** Marks what the given attempt did not make itself as history. */
    method Age(attempt: nat)
      modifies Plans()
      ensures latest.Value() == old(latest.Value()).(historical := latest.attempt != attempt)
      ensures lastComplete != null ==>
                lastComplete.Value() == old(lastComplete.Value()).(historical := lastComplete.attempt != attempt)
    {
      latest.historical := latest.attempt != attempt;
      if lastComplete != null {
        lastComplete.historical := lastComplete.attempt != attempt;
      }
    }
  }

  /** What a later observation replaces, and what a missing one turns into history. */
  function MergedCleanup(kept: Option<CleanupNote>, next: Option<CleanupNote>, attempt: nat): Option<CleanupNote> {
    match (next, kept)
    case (Some(o), _) => Some(o.(attempt := attempt, historical := false))
    case (None, Some(o)) => Some(o.(historical := o.attempt != attempt))
    case (None, None) => None
  }

  function MergedPlan(kept: Option<PlanNote>, next: Option<PlanNote>, attempt: nat): Option<PlanNote> {
    match (next, kept)
    case (Some(o), _) => Some(o.(attempt := attempt, historical := false))
    case (None, Some(o)) => Some(o.(historical := o.attempt != attempt))
    case (None, None) => None
  }

  class TargetResult {
    var attempts: nat
    var cleanupObservation: CleanupObservation?
    var unsupportedObservation: UnsupportedObservation?
    var outcome: Outcome
    var added: nat
    var deleted: nat
    var unsupported: seq<Issue>
    var cleanupCandidates: nat
    var cleanupDeleted: nat
    var cleanupDeferred: int

    ghost function Cleanup(): Option<CleanupNote>
      reads this, cleanupObservation
    {
      if cleanupObservation == null then None else Some(cleanupObservation.Value())
    }

    /** The planning observations this result holds. */
    ghost function Plans(): set<PlanObservation>
      reads this, unsupportedObservation
    {
      if unsupportedObservation == null then {} else unsupportedObservation.Plans()
    }

    ghost function Latest(): Option<PlanNote>
      reads this, unsupportedObservation, Plans()
    {
      if unsupportedObservation == null then None else Some(unsupportedObservation.latest.Value())
    }

    ghost function LastComplete(): Option<PlanNote>
      reads this, unsupportedObservation, Plans()
    {
      if unsupportedObservation == null || unsupportedObservation.lastComplete == null then None
      else Some(unsupportedObservation.lastComplete.Value())
    }

    /** All a result says. */
    ghost function Facts(): ResultFacts
      reads this, Repr()
    {
      ResultFacts(added, deleted, cleanupDeleted, outcome, Cleanup(), Latest(), LastComplete())
    }

    /** Every object this result may rewrite. */
    ghost function Repr(): set<object>
      reads this, unsupportedObservation
    {
      {this} + (if cleanupObservation == null then {} else {cleanupObservation})
      + (if unsupportedObservation == null then {} else {unsupportedObservation}) + Plans()
    }

    ghost predicate CleanupValid()
      reads this, cleanupObservation
    {
      if cleanupObservation == null then cleanupCandidates == 0 && cleanupDeferred == 0
      else cleanupCandidates == cleanupObservation.candidates && cleanupDeferred == cleanupObservation.deferred
    }

    ghost predicate PlansValid()
      reads this, unsupportedObservation, Plans()
    {
      unsupportedObservation != null ==>
        var o := unsupportedObservation;
        && unsupported == o.latest.issues
        && (o.latest.complete ==> o.lastComplete == o.latest)
        && (o.lastComplete != null ==> o.lastComplete.complete)
    }

    /** The summary fields repeat the observations, and a complete latest observation is the last complete
        one, as an object. */
    ghost predicate Valid()
      reads this, Repr()
    {
      CleanupValid() && PlansValid()
    }

    constructor ()
      ensures Valid() && Repr() == {this} && Cleanup() == None && Latest() == None
      ensures attempts == added == deleted == cleanupDeleted == 0 && unsupported == [] && outcome == Success
      ensures Facts() == ResultFacts(0, 0, 0, Success, None, None, None)
    {
      attempts, added, deleted, cleanupDeleted, cleanupCandidates, cleanupDeferred := 0, 0, 0, 0, 0, 0;
      cleanupObservation, unsupportedObservation, outcome, unsupported := null, null, Success, [];
    }

    method CountAdded(n: nat)
      requires Valid()
      modifies this`added
      ensures Valid() && Repr() == old(Repr()) && Facts() == old(Facts()).(added := old(added) + n)
    {
      added := added + n;
    }

    /** Keeps the newest planning observation, and the newest complete one beside it. */
    method ObserveUnsupported(issues: seq<Issue>, stage: Stage, complete: bool)
      requires Valid()
      modifies this`unsupported, this`unsupportedObservation, unsupportedObservation
      ensures Valid() && fresh(Repr() - old(Repr()))
      ensures cleanupObservation == old(cleanupObservation)
      ensures Latest() == Some(PlanNote(0, stage, complete, issues, false))
      ensures LastComplete() == if complete then Latest() else old(LastComplete())
      ensures Facts() == old(Facts()).(latest := Latest(), lastComplete := LastComplete())
    {
      var observation := new PlanObservation(stage, complete, issues);
      if unsupportedObservation == null {
        unsupportedObservation := new UnsupportedObservation(observation);
      }
      unsupportedObservation.latest := observation;
      if complete {
        unsupportedObservation.lastComplete := observation;
      }
      unsupported := observation.issues;
    }

    /** The cleanup half of a merge: the new observation, or the old one with its age. */
    method MergeCleanup(next: TargetResult, attempt: nat)
      requires CleanupValid() && this != next
      requires cleanupObservation == null || cleanupObservation != next.cleanupObservation
      modifies this`cleanupObservation, this`cleanupCandidates, this`cleanupDeferred, cleanupObservation, next.cleanupObservation
      ensures CleanupValid()
      ensures Cleanup() == MergedCleanup(old(Cleanup()), old(next.Cleanup()), attempt)
      ensures cleanupObservation == if next.cleanupObservation != null then next.cleanupObservation else old(cleanupObservation)
    {
      if next.cleanupObservation != null {
        next.cleanupObservation.attempt := attempt;
        cleanupObservation := next.cleanupObservation;
      }
      if cleanupObservation != null {
        var o := cleanupObservation;
        o.historical := o.attempt != attempt;
        cleanupCandidates, cleanupDeferred := o.candidates, o.deferred;
      }
    }

    /** The planning half: latest and last complete observation age separately, even when they start out
        as one object. */
    method MergePlans(next: TargetResult, attempt: nat)
      requires PlansValid() && next.PlansValid() && this != next && Plans() !! next.Plans()
      requires unsupportedObservation == null || unsupportedObservation != next.unsupportedObservation
      modifies this`unsupportedObservation, this`unsupported, unsupportedObservation, Plans(), next.Plans()
      ensures PlansValid()
      ensures Latest() == MergedPlan(old(Latest()), old(next.Latest()), attempt)
      ensures LastComplete() == MergedPlan(old(LastComplete()), old(next.LastComplete()), attempt)
      ensures Plans() <= old(Plans() + next.Plans())
      ensures unsupportedObservation == old(unsupportedObservation) || fresh(unsupportedObservation)
    {
      if next.unsupportedObservation != null {
        TakePlans(next.unsupportedObservation, attempt);
      }
      if unsupportedObservation != null {
        unsupportedObservation.Age(attempt);
        unsupported := unsupportedObservation.latest.issues;
      }
    }

    method TakePlans(newest: UnsupportedObservation, attempt: nat)
      requires newest != unsupportedObservation && newest.Plans() !! Plans()
      modifies this`unsupportedObservation, unsupportedObservation, newest.Plans()
      ensures unsupportedObservation != null && unsupportedObservation != newest
      ensures unsupportedObservation == old(unsupportedObservation) || fresh(unsupportedObservation)
      ensures unsupportedObservation.latest == newest.latest
      ensures unsupportedObservation.lastComplete
              == if newest.lastComplete != null then newest.lastComplete
                 else if old(unsupportedObservation) == null then null else old(unsupportedObservation.lastComplete)
      ensures newest.latest.Value() == old(newest.latest.Value()).(attempt := attempt)
      ensures newest.lastComplete != null
              ==> newest.lastComplete.Value() == old(newest.lastComplete.Value()).(attempt := attempt)
    {
      if unsupportedObservation == null {
        unsupportedObservation := new UnsupportedObservation(newest.latest);
      }
      newest.latest.attempt := attempt;
      unsupportedObservation.latest := newest.latest;
      if newest.lastComplete != null {
        newest.lastComplete.attempt := attempt;
        unsupportedObservation.lastComplete := newest.lastComplete;
      }
    }

    /** Two results that share no object. */
    ghost predicate Apart(next: TargetResult)
      reads this, unsupportedObservation, next, next.unsupportedObservation
    {
      && this != next && Plans() !! next.Plans()
      && (cleanupObservation == null || cleanupObservation != next.cleanupObservation)
      && (unsupportedObservation == null || unsupportedObservation != next.unsupportedObservation)
    }

    /** Takes over what attempt number `attempt` observed; its objects become this result's own. */
    method MergeObservations(next: TargetResult, attempt: nat)
      requires Valid() && next.Valid() && Apart(next)
      modifies this, cleanupObservation, next.cleanupObservation, unsupportedObservation, Plans(), next.Plans()
      ensures Valid() && attempts == attempt
      ensures Cleanup() == MergedCleanup(old(Cleanup()), old(next.Cleanup()), attempt)
      ensures Latest() == MergedPlan(old(Latest()), old(next.Latest()), attempt)
      ensures LastComplete() == MergedPlan(old(LastComplete()), old(next.LastComplete()), attempt)
      ensures cleanupObservation == if next.cleanupObservation != null then next.cleanupObservation else old(cleanupObservation)
      ensures unsupportedObservation == old(unsupportedObservation) || fresh(unsupportedObservation)
      ensures Plans() <= old(Plans() + next.Plans())
      ensures added == old(added) && deleted == old(deleted) && cleanupDeleted == old(cleanupDeleted) && outcome == old(outcome)
    {
      hide MergedPlan, MergedCleanup;
      attempts := attempt;
      MergeCleanup(next, attempt);
      MergePlans(next, attempt);
    }
  }

  // ------------------------------------------------------------------ the round

  datatype ObservationClass = Observed | Estimated | Historical | Unknown

  /** The four kinds of targets; only a current observation on complete input from a snapshot counts as
      observed. */
  function ClassOf(note: Option<CleanupNote>): ObservationClass {
    match note
    case None => Unknown
    case Some(o) => if o.historical then Historical
                    else if o.basis == DeleteProgress || !o.desiredComplete then Estimated else Observed
  }

  function Count(notes: seq<Option<CleanupNote>>, c: ObservationClass): nat {
    if notes == [] then 0
    else Count(notes[..|notes| - 1], c) + (if ClassOf(notes[|notes| - 1]) == c then 1 else 0)
  }

  function ObservedCandidates(notes: seq<Option<CleanupNote>>): nat {
    if notes == [] then 0
    else ObservedCandidates(notes[..|notes| - 1])
         + (if ClassOf(notes[|notes| - 1]) == Observed then notes[|notes| - 1].value.candidates else 0)
  }

  function ObservedDeferred(notes: seq<Option<CleanupNote>>): int {
    if notes == [] then 0
    else ObservedDeferred(notes[..|notes| - 1])
         + (if ClassOf(notes[|notes| - 1]) == Observed then notes[|notes| - 1].value.deferred else 0)
  }

  /** An observation of a snapshot of this very attempt, on complete input. */
  predicate Current(n: Option<CleanupNote>) {
    n.Some? && !n.value.historical && n.value.desiredComplete && n.value.basis != DeleteProgress
  }

  /** The four classes partition the targets of a round. The summary is complete exactly when every observation
      is current; a target is unknown exactly when it was never observed, and historical exactly when its
      observation is one of an earlier attempt. */
  lemma {:induction false} ClassesPartition(notes: seq<Option<CleanupNote>>)
    ensures Count(notes, Observed) + Count(notes, Estimated) + Count(notes, Historical) + Count(notes, Unknown) == |notes|
    ensures Count(notes, Estimated) + Count(notes, Historical) + Count(notes, Unknown) == 0 <==> forall n :: n in notes ==> Current(n)
    ensures Count(notes, Observed) == 0 <==> forall n :: n in notes ==> !Current(n)
    ensures Count(notes, Unknown) == 0 <==> forall n :: n in notes ==> n.Some?
    ensures Count(notes, Historical) == 0 <==> forall n :: n in notes ==> n.None? || !n.value.historical
  {
    if notes != [] {
      var init, last := notes[..|notes| - 1], notes[|notes| - 1];
      assert notes == init + [last];
      ClassesPartition(init);
    }
  }

  lemma OneMore(notes: seq<Option<CleanupNote>>, n: Option<CleanupNote>)
    ensures forall c :: Count(notes + [n], c) == Count(notes, c) + if ClassOf(n) == c then 1 else 0
    ensures ObservedCandidates(notes + [n]) == ObservedCandidates(notes) + if ClassOf(n) == Observed then n.value.candidates else 0
    ensures ObservedDeferred(notes + [n]) == ObservedDeferred(notes) + if ClassOf(n) == Observed then n.value.deferred else 0
  {
    assert (notes + [n])[..|notes|] == notes;
  }

  class CleanupObservationSummary {
    var observedTargets: nat
    var estimatedTargets: nat
    var historicalTargets: nat
    var unknownTargets: nat
    var observedCandidates: nat
    var observedDeferred: int
    var complete: bool
    /** The observations counted so far. */
    ghost var counted: seq<Option<CleanupNote>>

    ghost predicate Valid()
      reads this
    {
      && observedTargets == Count(counted, Observed) && estimatedTargets == Count(counted, Estimated)
      && historicalTargets == Count(counted, Historical) && unknownTargets == Count(counted, Unknown)
      && observedCandidates == ObservedCandidates(counted) && observedDeferred == ObservedDeferred(counted)
      && (complete <==> forall n :: n in counted ==> ClassOf(n) == Observed)
    }

    constructor ()
      ensures Valid() && counted == []
    {
      observedTargets, estimatedTargets, historicalTargets, unknownTargets := 0, 0, 0, 0;
      observedCandidates, observedDeferred, complete, counted := 0, 0, true, [];
    }

    method Add(r: TargetResult)
      requires Valid()
      modifies this
      ensures Valid() && counted == old(counted) + [r.Cleanup()]
      ensures observedTargets + estimatedTargets + historicalTargets + unknownTargets == |counted|
    {
      hide Count, ObservedCandidates, ObservedDeferred;
      var o := r.cleanupObservation;
      ghost var last := r.Cleanup();
      OneMore(counted, last);
      ClassesPartition(counted + [last]);
      if o == null {
        unknownTargets := unknownTargets + 1;
      } else if o.historical {
        historicalTargets := historicalTargets + 1;
      } else if o.basis == DeleteProgress || !o.desiredComplete {
        estimatedTargets := estimatedTargets + 1;
      } else {
        observedTargets := observedTargets + 1;
        observedCandidates := observedCandidates + o.candidates;
        observedDeferred := observedDeferred + o.deferred;
      }
      complete := estimatedTargets + historicalTargets + unknownTargets == 0;
      counted := counted + [last];
    }
  }
}
