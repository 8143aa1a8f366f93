/** What comes of everything `Run` receives (syncer/syncer.go): over every interleaving each accepted call, tick,
    trigger and due resume is accounted for, and a round starts from nothing else. The counts are taken along
    the run, from its events and from what the states show when Run moves. */
module Receipts {
  import opened Text
  import opened Scheduler

  /** What one step shows about the rounds of one kind. */
  datatype Mark =
    | Owed     // a call of Run was accepted, a tick or a trigger was taken, a resume was found due
    | Started  // a round of this kind began
    | Pending  // given up: a resume is pending, and its round is to come instead
    | Paused   // given up: the published state is paused
    | Stopped  // given up: Stop had set its flag

  /** Where Run stands between owing a round and starting it. */
  predicate InHand(pc: PC, why: Why) {
    match pc
    case Entering => why == Startup
    case AwaitState => why == Startup
    case ConsumeStart => why == Startup
    case AtTick => why == Timer
    case TickEnabled => why == Timer
    case AtTrigger => why == Manual
    case TriggerEnabled => why == Manual
    case Draining => why == Resumed
    case Gate(w) => why == w
    case Begun(w) => why == w
    case _ => false
  }

  /** The state published last has synchronisation switched on. */
  predicate On(sh: Shared) { sh.published.Some? && sh.published.value.enabled }

  /** A resume is due in an enabled state after an edge, or after a turn that began paused. */
  predicate Due(s: Sched) { On(s.shared) && (s.shared.pendingResume || !s.loop.wasEnabled) }

  predicate Shows(m: Mark, why: Why, s: Sched, e: Event, t: Sched) {
    match m
    case Owed =>
      (match why
       case Startup => e == CallRun && s.loop.pc == Fresh && !s.life.stopped
       case Timer => e == TakeTick
       case Manual => e == TakeTrigger
       case Resumed => e == Go && s.loop.pc == Consume && Due(s))
    case Started => t.loop.pc == Syncing(why) && s.loop.pc != Syncing(why)
    case Pending => e == Go && s.shared.pendingResume && ((why == Timer && s.loop.pc == AtTick) || (why == Manual && s.loop.pc == AtTrigger))
    case Paused =>
      e == Go && !On(s.shared)
      && (|| (why == Timer && s.loop.pc == TickEnabled)
          || (why == Manual && s.loop.pc == TriggerEnabled)
          || (why == Startup && s.loop.pc == ConsumeStart))
    case Stopped => s.life.stopped && ((e == Go && s.loop.pc == Gate(why)) || (e == TakeStop && s.loop.pc == AwaitState && why == Startup))
  }

  /** How many of the first `n` steps show it. */
  function Count(m: Mark, why: Why, ss: seq<Sched>, es: seq<Event>, n: nat): nat
    requires |ss| == |es| + 1 && n <= |es|
  {
    if n == 0 then 0 else Count(m, why, ss, es, n - 1) + if Shows(m, why, ss[n - 1], es[n - 1], ss[n]) then 1 else 0
  }

  function One(b: bool): nat { if b then 1 else 0 }

  /** A step leaves the books balanced. */
  ghost predicate Balanced(s: Sched, e: Event, why: Why, t: Sched) {
    One(InHand(s.loop.pc, why)) + One(Shows(Owed, why, s, e, t))
    == One(Shows(Started, why, s, e, t)) + One(Shows(Pending, why, s, e, t)) + One(Shows(Paused, why, s, e, t))
       + One(Shows(Stopped, why, s, e, t)) + One(InHand(t.loop.pc, why))
  }

  predicate AboutARound(pc: PC) { pc.Gate? || pc.Begun? || pc.Syncing? }

  lemma RoundStepBalances(s: Sched, why: Why)
    requires RunStep(s).Some? && AboutARound(s.loop.pc)
    ensures Balanced(s, Go, why, RunStep(s).value)
  {
    hide Consumed, ResumeDue;
  }

  lemma TurnStepBalances(s: Sched, why: Why)
    requires RunStep(s).Some? && !AboutARound(s.loop.pc) && InTurn(s.loop.pc)
    ensures Balanced(s, Go, why, RunStep(s).value)
  {
    hide StartRound, Refused, AfterRound;
  }

  lemma EdgeStepBalances(s: Sched, why: Why)
    requires RunStep(s).Some? && !AboutARound(s.loop.pc) && !InTurn(s.loop.pc)
    ensures Balanced(s, Go, why, RunStep(s).value)
  {
    hide StartRound, Refused, AfterRound, Due, ResumeDue;
  }

  lemma OtherStepBalances(s: Sched, e: Event, why: Why)
    requires e != Go && StopOrdered(s) && Next(s, e).Some?
    ensures Balanced(s, e, why, Next(s, e).value)
  {
    hide RunStep, PublishShared;
  }

  lemma StepBalances(s: Sched, e: Event, why: Why)
    requires Inv(s) && Next(s, e).Some?
    ensures Balanced(s, e, why, Next(s, e).value)
  {
    hide Balanced, RunStep, Publish;
    if e != Go {
      OtherStepBalances(s, e, why);
    } else if AboutARound(s.loop.pc) {
      RoundStepBalances(s, why);
    } else if InTurn(s.loop.pc) {
      TurnStepBalances(s, why);
    } else {
      EdgeStepBalances(s, why);
    }
  }

  /** In every interleaving and for each kind of round: every accepted call, every tick taken, every trigger
      taken and every due resume is exactly one of a round started, given up for a pending resume, given up as
      paused, refused by Stop, or still in hand; and so no round starts from anything else. */
  lemma {:induction false} EveryReceiptIsAccounted(ss: seq<Sched>, es: seq<Event>, n: nat, why: Why)
    requires IsRun(ss, es) && n <= |es|
    ensures Count(Owed, why, ss, es, n)
            == Count(Started, why, ss, es, n) + Count(Pending, why, ss, es, n) + Count(Paused, why, ss, es, n)
               + Count(Stopped, why, ss, es, n) + One(InHand(ss[n].loop.pc, why))
    decreases n
  {
    hide Next, Inv, Shows, InHand;
    if n == 0 {
      assert !InHand(ss[0].loop.pc, why) by { FreshOwesNothing(ss, es, why); }
    } else {
      EveryReceiptIsAccounted(ss, es, n - 1, why);
      ReachableIsInv(ss, es, n - 1);
      assert Next(ss[n - 1], es[n - 1]) == Some(ss[n - 1 + 1]);
      StepBalances(ss[n - 1], es[n - 1], why);
    }
  }

  lemma FreshOwesNothing(ss: seq<Sched>, es: seq<Event>, why: Why)
    requires IsRun(ss, es)
    ensures !InHand(ss[0].loop.pc, why) && ss[0].past == Past(0, 0, 0, 0, 0, 0, 0)
  {
  }

  // --------------------------------------------------------------------- in due time

  function Settled(why: Why, ss: seq<Sched>, es: seq<Event>, n: nat): nat
    requires |ss| == |es| + 1 && n <= |es|
  {
    Count(Started, why, ss, es, n) + Count(Pending, why, ss, es, n) + Count(Paused, why, ss, es, n) + Count(Stopped, why, ss, es, n)
  }

  const MOST_HAND_STEPS := 4

  /** How many steps of its own Run takes at most with a tick or a trigger in hand. */
  function HandSteps(pc: PC): nat {
    match pc
    case AtTick => 4
    case AtTrigger => 4
    case TickEnabled => 3
    case TriggerEnabled => 3
    case Gate(_) => 2
    case Begun(_) => 1
    case _ => 0
  }

  lemma HandStepsCountDown(s: Sched, e: Event, why: Why)
    requires StopOrdered(s) && Next(s, e).Some? && ForTurn(why) && InHand(Next(s, e).value.loop.pc, why) && !Shows(Owed, why, s, e, Next(s, e).value)
    ensures InHand(s.loop.pc, why) && HandSteps(Next(s, e).value.loop.pc) + One(RunsOwn(e)) <= HandSteps(s.loop.pc)
  {
    hide PublishShared, IsEdge, ResumeDue;
  }

  lemma {:induction false} StillInHand(ss: seq<Sched>, es: seq<Event>, i: nat, j: nat, why: Why)
    requires IsRun(ss, es) && i <= j <= |es| && ForTurn(why)
    ensures Count(Owed, why, ss, es, i) <= Count(Owed, why, ss, es, j)
    ensures InHand(ss[j].loop.pc, why) && Count(Owed, why, ss, es, i) == Count(Owed, why, ss, es, j)
            ==> HandSteps(ss[j].loop.pc) + OwnSteps(es[i..j]) <= HandSteps(ss[i].loop.pc)
    decreases j - i
  {
    hide Next, Shows, InHand, RunsOwn, HandSteps;
    if i < j {
      var k := j - 1;
      StillInHand(ss, es, i, k, why);
      assert StopOrdered(ss[k]) by { ReachableIsInv(ss, es, k); }
      hide StopOrdered;
      assert Next(ss[k], es[k]) == Some(ss[k + 1]) && es[i..j][..|es[i..j]| - 1] == es[i..k] && es[i..j][k - i] == es[k];
      if InHand(ss[j].loop.pc, why) && !Shows(Owed, why, ss[k], es[k], ss[j]) { HandStepsCountDown(ss[k], es[k], why); }
    }
  }

  /** Once Run has taken four steps of its own, every tick and every trigger taken before is settled. */
  lemma ReceiptsSettleInTime(ss: seq<Sched>, es: seq<Event>, i: nat, j: nat, why: Why)
    requires IsRun(ss, es) && i <= j <= |es| && ForTurn(why) && OwnSteps(es[i..j]) >= MOST_HAND_STEPS
    ensures Count(Owed, why, ss, es, i) <= Settled(why, ss, es, j)
  {
    hide Next, Count, OwnSteps;
    EveryReceiptIsAccounted(ss, es, j, why);
    StillInHand(ss, es, i, j, why);
  }

  /** A Run waiting in an enabled phase takes the next tick, and a trigger as soon as one is queued; a Run
      waiting in a paused phase takes neither. */
  lemma EnabledRunTakes(s: Sched)
    requires s.loop.pc == Top
    ensures Next(s, TakeTick).Some? <==> s.loop.enabled
    ensures Next(s, TakeTrigger).Some? <==> s.loop.enabled && s.shared.trigger
  {
  }

  // ------------------------------------------------------------------ the startup round

  lemma StopStays(s: Sched, e: Event)
    requires StopOrdered(s) && Next(s, e).Some?
    ensures var t := Next(s, e).value;
            && (s.life.stopped ==> t.life.stopped) && (Shows(Stopped, Startup, s, e, t) ==> s.life.stopped)
            && One(s.loop.pc != Fresh) + One(Shows(Owed, Startup, s, e, t)) == One(t.loop.pc != Fresh)
  {
    hide PublishShared;
  }

  lemma {:induction false} CallsAreAcceptedOnce(ss: seq<Sched>, es: seq<Event>, n: nat)
    requires IsRun(ss, es) && n <= |es|
    ensures Count(Owed, Startup, ss, es, n) == One(ss[n].loop.pc != Fresh)
    ensures !ss[n].life.stopped ==> Count(Stopped, Startup, ss, es, n) == 0
    decreases n
  {
    hide Next, Shows;
    if n > 0 {
      CallsAreAcceptedOnce(ss, es, n - 1);
      assert StopOrdered(ss[n - 1]) by { ReachableIsInv(ss, es, n - 1); }
      assert Next(ss[n - 1], es[n - 1]) == Some(ss[n - 1 + 1]);
      hide StopOrdered;
      StopStays(ss[n - 1], es[n - 1]);
    }
  }

  /** A Run that was called and not stopped has started its startup round, exactly once, unless it found the
      state paused or has not come to it yet. */
  lemma StartupRoundStarts(ss: seq<Sched>, es: seq<Event>)
    requires IsRun(ss, es) && ss[|es|].loop.pc != Fresh && !ss[|es|].life.stopped
    ensures Count(Started, Startup, ss, es, |es|)
            == One(Count(Paused, Startup, ss, es, |es|) == 0 && !InHand(ss[|es|].loop.pc, Startup))
  {
    hide Next, Count;
    CallsAreAcceptedOnce(ss, es, |es|);
    EveryReceiptIsAccounted(ss, es, |es|, Startup);
    assert Count(Pending, Startup, ss, es, |es|) == 0 by { StartupIsNeverPending(ss, es, |es|); }
  }

  lemma {:induction false} StartupIsNeverPending(ss: seq<Sched>, es: seq<Event>, n: nat)
    requires |ss| == |es| + 1 && n <= |es|
    ensures Count(Pending, Startup, ss, es, n) == 0
  {
    if n > 0 { StartupIsNeverPending(ss, es, n - 1); }
  }

  /** `Go` as often as given. */
  function Gone(s: Sched, n: nat): Option<Sched>
    decreases n
  {
    if n == 0 then Some(s) else match Next(s, Go) case None => None case Some(t) => Gone(t, n - 1)
  }

  /** Called on an enabled state without a Stop, Run is in its startup round after four steps of its own. */
  lemma StartupRoundIsReached(s: Sched)
    requires Inv(s) && s.loop.pc == Fresh && On(s.shared) && !s.life.stopped
    ensures Next(s, CallRun).Some? && Gone(Next(s, CallRun).value, 4).Some?
    ensures Gone(Next(s, CallRun).value, 4).value.loop.pc == Syncing(Startup)
  {
    var entering := Next(s, CallRun).value;
    var consuming := Next(entering, Go).value;
    var gate := Next(consuming, Go).value;
    var begun := Next(gate, Go).value;
    var round := Next(begun, Go).value;
    assert Gone(begun, 1) == Gone(round, 0) && Gone(gate, 2) == Gone(begun, 1);
    assert Gone(consuming, 3) == Gone(gate, 2) && Gone(entering, 4) == Gone(consuming, 3);
  }

  // ----------------------------------------------------------------- the trigger channel

  /** What happens at the trigger channel. */
  datatype Slot = Sent | Merged | Taken | Drained

  predicate Happens(x: Slot, s: Sched, e: Event) {
    match x
    case Sent => e == TriggerSync
    case Merged => e == TriggerSync && s.shared.trigger
    case Taken => e == TakeTrigger
    case Drained => e == Go && s.loop.pc == Draining && s.shared.trigger
  }

  function Times(x: Slot, ss: seq<Sched>, es: seq<Event>, n: nat): nat
    requires |ss| == |es| + 1 && n <= |es|
  {
    if n == 0 then 0 else Times(x, ss, es, n - 1) + One(Happens(x, ss[n - 1], es[n - 1]))
  }

  lemma TriggerStep(s: Sched, e: Event)
    requires Next(s, e).Some?
    ensures One(Happens(Sent, s, e)) + One(s.shared.trigger)
            == One(Happens(Merged, s, e)) + One(Happens(Taken, s, e)) + One(Happens(Drained, s, e)) + One(Next(s, e).value.shared.trigger)
  {
    hide Receive, IsEdge;
  }

  /** Every manual trigger is taken, merged into one that is queued already, cleared by the resume round that
      covers it, or still queued. */
  lemma {:induction false} EveryTriggerIsAccounted(ss: seq<Sched>, es: seq<Event>, n: nat)
    requires IsRun(ss, es) && n <= |es|
    ensures Times(Sent, ss, es, n)
            == Times(Merged, ss, es, n) + Times(Taken, ss, es, n) + Times(Drained, ss, es, n) + One(ss[n].shared.trigger)
    decreases n
  {
    hide Next, Happens;
    if n > 0 {
      EveryTriggerIsAccounted(ss, es, n - 1);
      assert Next(ss[n - 1], es[n - 1]) == Some(ss[n - 1 + 1]);
      TriggerStep(ss[n - 1], es[n - 1]);
    }
  }

  // ------------------------------------------------------------- following the phase

  /** The loop's own phase differs from the published one only while a notification is on its way. */
  predicate Following(s: Sched) {
    Looping(s.loop.pc) && s.loop.enabled != On(s.shared) ==> s.shared.control || s.shared.sending > 0 || s.loop.pc == Consume
  }

  lemma FollowingKept(s: Sched, e: Event)
    requires StateKnown(s) && StopOrdered(s) && Following(s) && Next(s, e).Some?
    ensures Following(Next(s, e).value)
  {
    hide IsEdge, ResumeDue;
  }

  /** When nothing is left to notify, a waiting Run takes ticks and triggers exactly if the published state is
      enabled. */
  lemma {:induction false} PhaseIsFollowed(ss: seq<Sched>, es: seq<Event>, n: nat)
    requires IsRun(ss, es) && n <= |es|
    ensures Following(ss[n])
    ensures ss[n].loop.pc == Top && !ss[n].shared.control && ss[n].shared.sending == 0
            ==> (Next(ss[n], TakeTick).Some? <==> On(ss[n].shared))
    decreases n
  {
    if n > 0 {
      PhaseIsFollowed(ss, es, n - 1);
      ReachableIsInv(ss, es, n - 1);
      assert Next(ss[n - 1], es[n - 1]) == Some(ss[n - 1 + 1]);
      assert Following(ss[n]) by { FollowingKept(ss[n - 1], es[n - 1]); }
    }
  }

  /** A waiting Run sees Stop from the moment its channel is closed, and not before; it then ends in two steps,
      closing the done channel. Stop itself is through after three. */
  lemma StopReachesRun(s: Sched)
    requires Waiting(s.loop.pc)
    ensures Next(s, TakeStop).Some? <==> s.life.stopStage == ChannelClosed || s.life.stopStage == Finished
    ensures Next(s, TakeStop).Some? ==>
              var leaving := Next(s, TakeStop).value;
              leaving.loop.pc == Exiting && leaving.life == s.life
              && Next(leaving, Go) == Some(leaving.(loop := leaving.loop.(pc := Exited), life := s.life.(doneCloses := s.life.doneCloses + 1)))
    ensures StopNext(StopNext(StopNext(s))).life.stopStage == Finished && StopNext(s).life.stopped == (s.life.stopped || s.life.stopStage == Idle)
  {
  }

  /** Run ends only when it was stopped. */
  lemma RunEndsOnlyWhenStopped(ss: seq<Sched>, es: seq<Event>)
    requires IsRun(ss, es)
    ensures ss[|es|].loop.pc == Exiting || ss[|es|].loop.pc == Exited ==> ss[|es|].life.stopped
  {
    ReachableIsInv(ss, es, |es|);
  }

  // ---------------------------------------------------------------- the history is true

  /** A step after which synchronisation is switched on where it was switched off before. */
  predicate Edge(s: Sched, t: Sched) { s.shared.published.Some? && !On(s.shared) && On(t.shared) }

  predicate Begins(s: Sched, t: Sched) { t.loop.pc.Syncing? && !s.loop.pc.Syncing? }

  predicate Consumes(s: Sched, e: Event) { e == Go && (s.loop.pc == Consume || s.loop.pc == ConsumeStart) }

  /** Publications and what is remembered of them. */
  lemma EdgesAreRemembered(s: Sched, e: Event)
    requires StateKnown(s) && Next(s, e).Some?
    ensures var t := Next(s, e).value;
            && t.past.edges == s.past.edges + One(Edge(s, t))
            && t.past.batches == s.past.batches + One(Edge(s, t) && !s.shared.pendingResume)
            && t.past.lastEdge == (if Edge(s, t) then Version(t.shared) else s.past.lastEdge)
            && t.shared.pendingResume == (!Consumes(s, e) && (s.shared.pendingResume || Edge(s, t)))
            && (t.shared.published != s.shared.published
                ==> t.shared.published.Some? && Version(t.shared) == Version(s.shared) + 1 && t.shared.sending == s.shared.sending + 1)
            && (e.Apply? || (e.SetEnabled? && s.shared.published.Some?) ==> t.shared.published.Some? && On(t.shared) == e.next)
  {
    hide Receive, Refused, AfterRound, ResumeDue;
  }

  /** Rounds and consumptions, and what is remembered of them. */
  lemma RoundsAreRemembered(s: Sched, e: Event)
    requires StateKnown(s) && StopOrdered(s) && Next(s, e).Some?
    ensures var t := Next(s, e).value;
            && t.past.resumeRounds == s.past.resumeRounds + One(Begins(s, t) && t.loop.pc.why == Resumed)
            && t.past.lateRounds == s.past.lateRounds + One(Begins(s, t) && s.life.stopped)
            && t.past.lastRead == (if Begins(s, t) then Version(s.shared) else s.past.lastRead)
            && t.past.pausedAt == (if Consumes(s, e) && !On(s.shared) then Version(s.shared) else s.past.pausedAt)
  {
    hide PublishShared, IsEdge, ResumeDue;
  }
}
