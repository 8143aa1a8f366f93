/** The scheduler of syncer/syncer.go as a transition system: publishers, the `Run` goroutine and `Stop`
    interleave step by step, a step being what happens under one lock or at one channel operation. */
module Scheduler {
  import opened Text

  datatype Published = Published(version: nat, enabled: bool)

  datatype Why = Startup | Timer | Manual | Resumed

  /** Where `Run` is. */
  datatype PC =
    | Fresh                       // not called yet
    | Entering                    // owns the run, has not looked at the state
    | AwaitState                  // no state published: waiting for control or stop
    | ConsumeStart                // about to consume before the startup round
    | Gate(why: Why)              // about to pass the stop gate
    | Begun(why: Why)             // past the gate, the round has not read its state yet
    | Syncing(why: Why)           // inside a round
    | Top                         // the select of the loop
    | AtTick | TickEnabled        // received a tick; no resume pending
    | AtTrigger | TriggerEnabled  // received a trigger; no resume pending
    | Consume                     // about to consume the control state
    | Draining                    // resume decided, clearing stale triggers
    | Exiting | Exited            // done channel about to close; closed

  datatype StopStage = Idle | Flagged | ChannelClosed | Finished

  /** What publishers and Run share: the published state, the edge flag and the two one-slot channels;
      `sending` counts publishers that have left the lock but not yet offered their token. */
  datatype Shared = Shared(published: Option<Published>, pendingResume: bool, control: bool, trigger: bool, sending: nat)

  datatype Life = Life(runGuard: bool, stopped: bool, stopStage: StopStage, neverStarted: bool, doneCloses: nat)

  /** Run itself: where it is, the phase it has processed, and the phase before the current turn. */
  datatype Loop = Loop(pc: PC, enabled: bool, wasEnabled: bool)

  /** History: version of the last false-to-true edge, number of edges and of batches of edges, resume
      rounds, newest version a round has read, newest version a consumption found paused, and rounds that
      started after `Stop` had set its flag. */
  datatype Past = Past(lastEdge: nat, edges: nat, batches: nat, resumeRounds: nat, lastRead: nat, pausedAt: nat, lateRounds: nat)

  datatype Sched = Sched(shared: Shared, life: Life, loop: Loop, past: Past)

  datatype Event =
    | Apply(next: bool)     // ApplyState: the locked part
    | SetEnabled(next: bool) // Pause and Resume: the locked part
    | Notify                // a publisher offers the control token
    | TriggerSync
    | CallRun               // a call of Run, accepted or rejected
    | Go                    // the one thing Run does next when it does not wait
    | TakeControl | TakeTick | TakeTrigger | TakeStop  // what a waiting Run receives
    | StopStep              // the next step of Stop

  function Init(published: Option<Published>): Sched {
    Sched(Shared(published, false, false, false, 0), Life(false, false, Idle, false, 0),
          Loop(Fresh, published.Some? && published.value.enabled, false), Past(0, 0, 0, 0, 0, 0, 0))
  }

  function Version(sh: Shared): nat { if sh.published.Some? then sh.published.value.version else 0 }

  predicate IsEnabled(sh: Shared) { sh.published.Some? && sh.published.value.enabled }

  predicate IsEdge(sh: Shared, next: bool) { sh.published.Some? && !sh.published.value.enabled && next }

  /** `applyStateLocked`: a real false-to-true step is remembered until it is consumed. */
  function PublishShared(sh: Shared, next: bool): Shared {
    sh.(published := Some(Published(Version(sh) + 1, next)), sending := sh.sending + 1,
        pendingResume := sh.pendingResume || IsEdge(sh, next))
  }

  function Publish(s: Sched, next: bool): Sched {
    var (sh, past, more) := (s.shared, s.past, PublishShared(s.shared, next));
    if IsEdge(sh, next) then
      s.(shared := more, past := past.(lastEdge := Version(more), edges := past.edges + 1,
                                       batches := past.batches + if sh.pendingResume then 0 else 1))
    else s.(shared := more)
  }

  function Goto(s: Sched, pc: PC): Sched { s.(loop := s.loop.(pc := pc)) }

  function StartRound(s: Sched, why: Why): Sched {
    var past := s.past;
    Goto(s, Syncing(why)).(past := past.(lastRead := Version(s.shared),
                                         resumeRounds := past.resumeRounds + if why == Resumed then 1 else 0,
                                         lateRounds := past.lateRounds + if s.life.stopped then 1 else 0))
  }

  /** Where Run goes on when the stop gate says no. */
  function Refused(why: Why): PC {
    match why case Startup => Exiting case Resumed => Exiting case Timer => Consume case Manual => Top
  }

  function AfterRound(why: Why): PC {
    match why case Startup => Top case Resumed => Top case Timer => Consume case Manual => Consume
  }

  /** `consumeControlState`, with `ifEnabled` what to do when the state turns out enabled. */
  function Consumed(s: Sched, latest: Published, ifEnabled: PC): Sched {
    Sched(s.shared.(pendingResume := false), s.life,
          s.loop.(enabled := latest.enabled, pc := if latest.enabled then ifEnabled else Top),
          if latest.enabled then s.past else s.past.(pausedAt := latest.version))
  }

  /** A resume is due when the phase changed or an edge was coalesced away. */
  predicate ResumeDue(s: Sched) { !s.loop.wasEnabled || s.shared.pendingResume }

  /** The next step of a Run that does not wait; None where it waits or has ended, and where a state that
      was never published would be dereferenced. */
  function RunStep(s: Sched): Option<Sched> {
    match s.loop.pc
    case Entering => Some(Goto(s, if s.shared.published.None? then AwaitState else ConsumeStart))
    case ConsumeStart =>
      (match s.shared.published case None => None case Some(latest) => Some(Consumed(s, latest, Gate(Startup))))
    case Gate(why) => Some(Goto(s, if s.life.stopped then Refused(why) else Begun(why)))
    case Begun(why) => Some(StartRound(s, why))
    case Syncing(why) => Some(Goto(s, AfterRound(why)))
    case AtTick => Some(Goto(s, if s.shared.pendingResume then Consume else TickEnabled))
    case TickEnabled => Some(Goto(s, if IsEnabled(s.shared) then Gate(Timer) else Consume))
    case AtTrigger => Some(Goto(s, if s.shared.pendingResume then Consume else TriggerEnabled))
    case TriggerEnabled => Some(Goto(s, if IsEnabled(s.shared) then Gate(Manual) else Top))
    case Consume =>
      (match s.shared.published
       case None => None
       case Some(latest) => Some(Consumed(s, latest, if ResumeDue(s) then Draining else Top)))
    case Draining => Some(if s.shared.trigger then s.(shared := s.shared.(trigger := false)) else Goto(s, Gate(Resumed)))
    case Exiting => Some(Goto(s, Exited).(life := s.life.(doneCloses := s.life.doneCloses + 1)))
    case _ => None
  }

  predicate Waiting(pc: PC) { pc == Top || pc == AwaitState }

  /** What a select hands to Run; at the top of the loop the phase processed so far is noted first. */
  function Receive(l: Loop, next: PC): Loop {
    if l.pc == AwaitState then l.(pc := if next == Consume then ConsumeStart else next)
    else Loop(next, l.enabled, l.enabled)
  }

  function StopNext(s: Sched): Sched {
    var life := s.life;
    s.(life := match life.stopStage
               case Idle => life.(stopStage := Flagged, stopped := true, neverStarted := !life.runGuard)
               case Flagged => life.(stopStage := ChannelClosed)
               case ChannelClosed => life.(stopStage := Finished, doneCloses := life.doneCloses + if life.neverStarted then 1 else 0)
               case Finished => life)
  }

  predicate StopVisible(life: Life) { life.stopStage == ChannelClosed || life.stopStage == Finished }

  function Next(s: Sched, e: Event): Option<Sched> {
    match e
    case Apply(next) => Some(Publish(s, next))
    case SetEnabled(next) =>
      if s.shared.published.None? || s.shared.published.value.enabled == next then Some(s) else Some(Publish(s, next))
    case Notify =>
      if s.shared.sending == 0 then None else Some(s.(shared := s.shared.(sending := s.shared.sending - 1, control := true)))
    case TriggerSync => Some(s.(shared := s.shared.(trigger := true)))
    case CallRun =>
      Some(if s.life.stopped || s.life.runGuard then s else Goto(s, Entering).(life := s.life.(runGuard := true)))
    case Go => RunStep(s)
    case TakeControl =>
      if Waiting(s.loop.pc) && s.shared.control
      then Some(s.(shared := s.shared.(control := false), loop := Receive(s.loop, Consume))) else None
    case TakeTick => if s.loop.pc == Top && s.loop.enabled then Some(s.(loop := Receive(s.loop, AtTick))) else None
    case TakeTrigger =>
      if s.loop.pc == Top && s.loop.enabled && s.shared.trigger
      then Some(s.(shared := s.shared.(trigger := false), loop := Receive(s.loop, AtTrigger))) else None
    case TakeStop =>
      if Waiting(s.loop.pc) && StopVisible(s.life) then Some(s.(loop := Receive(s.loop, Exiting))) else None
    case StopStep => Some(StopNext(s))
  }

  // -------------------------------------------------------------------- invariants

  /** Inside the loop proper. */
  predicate Looping(pc: PC) {
    !pc.Fresh? && !pc.Entering? && !pc.AwaitState? && !pc.ConsumeStart? && !pc.Exiting? && !pc.Exited?
  }

  predicate ForTurn(why: Why) { why == Timer || why == Manual }

  /** Between receiving something and consuming the control state. */
  predicate InTurn(pc: PC) {
    match pc
    case AtTick => true
    case TickEnabled => true
    case AtTrigger => true
    case TriggerEnabled => true
    case Consume => true
    case Gate(why) => ForTurn(why)
    case Begun(why) => ForTurn(why)
    case Syncing(why) => ForTurn(why)
    case _ => false
  }

  predicate ResumeDecided(pc: PC) { pc == Draining || pc == Gate(Resumed) || pc == Begun(Resumed) }

  /** A round that will read the state is already decided on. */
  predicate Committed(pc: PC) { ResumeDecided(pc) || pc == Gate(Startup) || pc == Begun(Startup) }

  /** No wake-up is lost: a resume that is still to be consumed has a token, a publisher about to send one,
      or a Run about to consume. */
  predicate WakeUp(s: Sched) {
    s.shared.pendingResume ==> s.shared.control || s.shared.sending > 0 || s.loop.pc == ConsumeStart || s.loop.pc == Consume
  }

  predicate StateKnown(s: Sched) {
    s.shared.published.None? ==>
      !s.shared.control && s.shared.sending == 0 && !s.shared.pendingResume && !Looping(s.loop.pc) && s.loop.pc != ConsumeStart
  }

  /** The loop's own phase lags behind only while a resume is pending. */
  predicate PhaseKnown(s: Sched) {
    && (Looping(s.loop.pc) && !s.loop.enabled && IsEnabled(s.shared) ==> s.shared.pendingResume)
    && (InTurn(s.loop.pc) ==> s.loop.wasEnabled == s.loop.enabled)
    && (Committed(s.loop.pc) ==> s.loop.enabled)
  }

  /** The last edge is still pending, or decided, or read by a round, or overtaken by a pause, or Run is on
      its way out. */
  predicate EdgeAccounted(s: Sched) {
    && s.past.lastEdge <= Version(s.shared)
    && (s.past.lastEdge > 0 ==> || s.shared.pendingResume || Committed(s.loop.pc) || s.past.lastRead >= s.past.lastEdge
                                || s.past.pausedAt >= s.past.lastEdge || s.loop.pc == Exiting || s.loop.pc == Exited)
  }

  predicate RoundsCounted(s: Sched) {
    s.past.resumeRounds + (if s.shared.pendingResume then 1 else 0) + (if ResumeDecided(s.loop.pc) then 1 else 0)
    <= s.past.batches <= s.past.edges
  }

  predicate StopOrdered(s: Sched) {
    && (s.life.stopped <==> s.life.stopStage != Idle)
    && (s.loop.pc == Fresh <==> !s.life.runGuard)
    && (s.life.stopped ==> s.life.neverStarted == !s.life.runGuard)
    && (s.life.neverStarted ==> s.life.stopped)
    && (s.loop.pc == Exiting || s.loop.pc == Exited ==> s.life.stopped)
    && s.life.doneCloses == (if s.loop.pc == Exited then 1 else 0) + (if s.life.stopStage == Finished && s.life.neverStarted then 1 else 0)
    && s.past.lateRounds + (if s.life.stopped && s.loop.pc.Begun? then 1 else 0) <= (if s.life.stopped then 1 else 0)
  }

  predicate Inv(s: Sched) {
    WakeUp(s) && StateKnown(s) && PhaseKnown(s) && EdgeAccounted(s) && RoundsCounted(s) && StopOrdered(s)
  }

  lemma InitHolds(published: Option<Published>)
    ensures Inv(Init(published))
  {
  }

  lemma WakeUpKept(s: Sched, e: Event)
    requires WakeUp(s) && StateKnown(s) && StopOrdered(s) && Next(s, e).Some?
    ensures WakeUp(Next(s, e).value)
  {
  }

  lemma StateKnownKept(s: Sched, e: Event)
    requires StateKnown(s) && Next(s, e).Some?
    ensures StateKnown(Next(s, e).value)
  {
  }

  lemma PhaseKnownKept(s: Sched, e: Event)
    requires PhaseKnown(s) && StateKnown(s) && Next(s, e).Some?
    ensures PhaseKnown(Next(s, e).value)
  {
  }

  lemma EdgeAccountedKept(s: Sched, e: Event)
    requires EdgeAccounted(s) && StateKnown(s) && PhaseKnown(s) && StopOrdered(s) && Next(s, e).Some?
    ensures EdgeAccounted(Next(s, e).value)
  {
  }

  lemma RoundsCountedKept(s: Sched, e: Event)
    requires RoundsCounted(s) && PhaseKnown(s) && StateKnown(s) && Next(s, e).Some?
    ensures RoundsCounted(Next(s, e).value)
  {
  }

  lemma StopOrderedKept(s: Sched, e: Event)
    requires StopOrdered(s) && Next(s, e).Some?
    ensures StopOrdered(Next(s, e).value)
  {
  }

  lemma StepKeepsInv(s: Sched, e: Event)
    requires Inv(s) && Next(s, e).Some?
    ensures Inv(Next(s, e).value)
  {
    hide Next, WakeUp, StateKnown, PhaseKnown, EdgeAccounted, RoundsCounted, StopOrdered;
    WakeUpKept(s, e);
    StateKnownKept(s, e);
    PhaseKnownKept(s, e);
    EdgeAccountedKept(s, e);
    RoundsCountedKept(s, e);
    StopOrderedKept(s, e);
  }

  // ---------------------------------------------------------------------- whole runs

  /** `ss` are the states along the events `es`. */
  ghost predicate IsRun(ss: seq<Sched>, es: seq<Event>) {
    && |ss| == |es| + 1 && (exists p :: ss[0] == Init(p))
    && forall i :: 0 <= i < |es| ==> Next(ss[i], es[i]) == Some(ss[i + 1])
  }

  lemma {:induction false} ReachableIsInv(ss: seq<Sched>, es: seq<Event>, n: nat)
    requires IsRun(ss, es) && n <= |es|
    ensures Inv(ss[n])
    decreases n
  {
    hide Next, Inv;
    if n == 0 {
      var p :| ss[0] == Init(p);
      InitHolds(p);
    } else {
      ReachableIsInv(ss, es, n - 1);
      assert Next(ss[n - 1], es[n - 1]) == Some(ss[n - 1 + 1]);
      StepKeepsInv(ss[n - 1], es[n - 1]);
    }
  }

  /** No lost resume: in every interleaving, when Run waits in its select with no token in the channel and no
      publisher on its way, every published false-to-true edge has been read by a later round, unless a
      consumption after it found the state paused. */
  lemma NoResumeIsLost(ss: seq<Sched>, es: seq<Event>)
    requires IsRun(ss, es)
    ensures var s := ss[|es|];
            s.loop.pc == Top && !s.shared.control && s.shared.sending == 0
            ==> s.past.lastEdge == 0 || s.past.lastRead >= s.past.lastEdge || s.past.pausedAt >= s.past.lastEdge
  {
    ReachableIsInv(ss, es, |es|);
  }

  /** Nor does it sleep forever on one: a waiting Run with a resume pending can always be woken. */
  lemma PendingResumeWakesRun(ss: seq<Sched>, es: seq<Event>)
    requires IsRun(ss, es)
    ensures var s := ss[|es|];
            s.loop.pc == Top && s.shared.pendingResume
            ==> Next(s, TakeControl).Some? || (Next(s, Notify).Some? && Next(Next(s, Notify).value, TakeControl).Some?)
  {
    ReachableIsInv(ss, es, |es|);
  }

  /** Run never dereferences a state that was never published, and never stops for any other reason than
      waiting or having ended. */
  lemma RunNeverBlocks(ss: seq<Sched>, es: seq<Event>)
    requires IsRun(ss, es)
    ensures var s := ss[|es|];
            Next(s, Go).None? ==> Waiting(s.loop.pc) || s.loop.pc == Fresh || s.loop.pc == Exited
  {
    ReachableIsInv(ss, es, |es|);
  }

  /** The done channel is closed at most once, and exactly once as soon as Stop is through and Run has been
      refused or has ended. */
  lemma DoneClosesOnce(ss: seq<Sched>, es: seq<Event>)
    requires IsRun(ss, es)
    ensures var s := ss[|es|];
            && s.life.doneCloses <= 1
            && (s.life.stopStage == Finished && (s.loop.pc == Fresh || s.loop.pc == Exited) ==> s.life.doneCloses == 1)
            && (s.loop.pc == Exited ==> s.life.doneCloses == 1)
  {
    ReachableIsInv(ss, es, |es|);
  }

  /** After Stop has set its flag at most the one round that is already past the gate still starts. */
  lemma StopAdmitsOneRound(ss: seq<Sched>, es: seq<Event>)
    requires IsRun(ss, es)
    ensures ss[|es|].past.lateRounds <= 1
  {
    ReachableIsInv(ss, es, |es|);
  }

  /** Resume rounds never outnumber the batches of edges, and a batch starts with a real edge. */
  lemma ResumeRoundsAreEarned(ss: seq<Sched>, es: seq<Event>)
    requires IsRun(ss, es)
    ensures ss[|es|].past.resumeRounds <= ss[|es|].past.batches <= ss[|es|].past.edges
  {
    ReachableIsInv(ss, es, |es|);
  }

  predicate InRound(ss: seq<Sched>, i: nat, j: nat)
    requires j < |ss|
  {
    forall k :: i <= k <= j ==> ss[k].loop.pc.Syncing?
  }

  lemma StepInRound(s: Sched, e: Event)
    requires StopOrdered(s) && Next(s, e).Some? && s.loop.pc.Syncing? && Next(s, e).value.loop.pc.Syncing?
    ensures var t := Next(s, e).value;
            && s.past.batches <= t.past.batches && t.past.resumeRounds == s.past.resumeRounds
            && t.past.batches - s.past.batches == (if t.shared.pendingResume && !s.shared.pendingResume then 1 else 0)
            && (s.shared.pendingResume ==> t.shared.pendingResume)
  {
    hide Receive;
  }

  /** Any number of edges during one round form at most one batch, so cost at most one extra round. */
  lemma {:induction false} EdgesInARoundCoalesce(ss: seq<Sched>, es: seq<Event>, i: nat, j: nat)
    requires IsRun(ss, es) && i <= j <= |es| && InRound(ss, i, j)
    ensures ss[j].past.batches - ss[i].past.batches == (if ss[j].shared.pendingResume && !ss[i].shared.pendingResume then 1 else 0)
    ensures ss[i].shared.pendingResume ==> ss[j].shared.pendingResume
    decreases j - i
  {
    hide Next;
    if i < j {
      EdgesInARoundCoalesce(ss, es, i, j - 1);
      ReachableIsInv(ss, es, j - 1);
      assert Next(ss[j - 1], es[j - 1]) == Some(ss[j - 1 + 1]) && ss[j - 1].loop.pc.Syncing? && ss[j].loop.pc.Syncing?;
      StepInRound(ss[j - 1], es[j - 1]);
    }
  }

  // --------------------------------------------------------------- bounded progress

  /** Nothing is left to do for the edge published as `version`. */
  predicate Served(s: Sched, version: nat) {
    s.past.lastRead >= version || s.past.pausedAt >= version || s.loop.pc == Exiting || s.loop.pc == Exited
  }

  /** An edge that really was published and is not served yet. */
  predicate Unserved(s: Sched, version: nat) {
    0 < version <= s.past.lastEdge && !Served(s, version)
  }

  /** The events in which Run itself moves. */
  predicate RunsOwn(e: Event) { e.Go? || e.TakeControl? || e.TakeTick? || e.TakeTrigger? || e.TakeStop? }

  /** How many steps of its own Run can still take before it has served an unserved edge. */
  function StepsLeft(s: Sched): nat {
    match s.loop.pc
    case Exiting => 0
    case Exited => 0
    case Begun(_) => 1
    case ConsumeStart => 3
    case AwaitState => 4
    case Entering => 5
    case Fresh => 5
    case Draining => if s.shared.trigger then 4 else 3
    case Consume => 5
    case AtTick => 6
    case AtTrigger => 6
    case TickEnabled => 7
    case Top => 7
    case TriggerEnabled => 9
    case Gate(why) => (match why case Startup => 2 case Resumed => 2 case Timer => 6 case Manual => 8)
    case Syncing(why) => if ForTurn(why) then 6 else 8
  }

  const MOST_STEPS := 9

  lemma UnservedIsKept(s: Sched, e: Event, version: nat)
    requires Inv(s) && 0 < version <= s.past.lastEdge && Next(s, e).Some?
    ensures version <= Next(s, e).value.past.lastEdge
    ensures Served(s, version) ==> Served(Next(s, e).value, version)
  {
  }

  /** Run's own steps count down; of all other steps only a trigger during draining costs Run one more. */
  lemma StepsCountDown(s: Sched, e: Event, version: nat)
    requires Inv(s) && Unserved(s, version) && Next(s, e).Some? && Unserved(Next(s, e).value, version)
    ensures StepsLeft(Next(s, e).value) + (if RunsOwn(e) then 1 else 0) <= StepsLeft(s) + (if e.TriggerSync? then 1 else 0)
  {
  }

  function OwnSteps(es: seq<Event>): nat {
    if es == [] then 0 else OwnSteps(es[..|es| - 1]) + if RunsOwn(es[|es| - 1]) then 1 else 0
  }

  function Triggers(es: seq<Event>): nat {
    if es == [] then 0 else Triggers(es[..|es| - 1]) + if es[|es| - 1].TriggerSync? then 1 else 0
  }

  lemma {:induction false} OwnStepsAreBounded(ss: seq<Sched>, es: seq<Event>, i: nat, j: nat, version: nat)
    requires IsRun(ss, es) && i <= j <= |es| && 0 < version <= ss[i].past.lastEdge
    ensures version <= ss[j].past.lastEdge
    ensures !Served(ss[j], version)
            ==> !Served(ss[i], version) && StepsLeft(ss[j]) + OwnSteps(es[i..j]) <= StepsLeft(ss[i]) + Triggers(es[i..j])
    decreases j - i
  {
    hide Next, Inv, Served, StepsLeft, RunsOwn;
    if i < j {
      var k := j - 1;
      OwnStepsAreBounded(ss, es, i, k, version);
      ReachableIsInv(ss, es, k);
      assert Next(ss[k], es[k]) == Some(ss[k + 1]) && es[i..j][..|es[i..j]| - 1] == es[i..k] && es[i..j][k - i] == es[k];
      UnservedIsKept(ss[k], es[k], version);
      if !Served(ss[j], version) { StepsCountDown(ss[k], es[k], version); }
    }
  }

  /** In every interleaving, from whatever point on one looks: once Run has taken more than nine steps of its
      own, one more for every trigger sent meanwhile, each edge published before is read by a round, found
      paused by a consumption, or Run is on its way out. */
  lemma EdgesAreServedInTime(ss: seq<Sched>, es: seq<Event>, i: nat, j: nat)
    requires IsRun(ss, es) && i <= j <= |es| && OwnSteps(es[i..j]) > MOST_STEPS + Triggers(es[i..j])
    ensures forall version :: 0 < version <= ss[i].past.lastEdge ==> Served(ss[j], version)
  {
    hide Next, Served, OwnSteps, Triggers;
    forall version | 0 < version <= ss[i].past.lastEdge ensures Served(ss[j], version) {
      OwnStepsAreBounded(ss, es, i, j, version);
    }
  }

  /** The next step towards an unserved edge: Run's own, or the publisher's that is about to wake it. */
  function Towards(s: Sched): Event {
    if !Waiting(s.loop.pc) then Go else if s.shared.control then TakeControl else Notify
  }

  /** `n` such steps; where there is none to take, nothing more happens. */
  function Driven(s: Sched, n: nat): Sched
    decreases n
  {
    if n == 0 then s
    else match Next(s, Towards(s))
         case None => s
         case Some(t) => Driven(t, n - 1)
  }

  /** The steps left, with the publisher's one where Run waits without a token. */
  function Distance(s: Sched): nat {
    StepsLeft(s) + if s.shared.control || !(Waiting(s.loop.pc) || StepsLeft(s) > 7) then 0 else 1
  }

  /** A run that was called is never stuck on an unserved edge: the step towards it can be taken. */
  lemma TowardsIsEnabled(s: Sched, version: nat)
    requires Inv(s) && Unserved(s, version) && s.loop.pc != Fresh
    ensures Next(s, Towards(s)).Some? && Distance(s) > 0
    ensures var t := Next(s, Towards(s)).value;
            t.loop.pc != Fresh && (Served(t, version) || (Unserved(t, version) && Distance(t) < Distance(s)))
  {
  }

  lemma RunIsKept(s: Sched, e: Event)
    requires s.loop.pc != Fresh && Next(s, e).Some?
    ensures Next(s, e).value.loop.pc != Fresh
  {
  }

  lemma {:induction false} DrivenServes(s: Sched, version: nat, n: nat)
    requires Inv(s) && s.loop.pc != Fresh && 0 < version <= s.past.lastEdge
    requires Served(s, version) || Distance(s) <= n
    ensures Served(Driven(s, n), version)
    decreases n
  {
    hide Next, Inv, Served, Distance, Towards;
    if !Served(s, version) {
      TowardsIsEnabled(s, version);
    }
    if n > 0 && Next(s, Towards(s)).Some? {
      var t := Next(s, Towards(s)).value;
      StepKeepsInv(s, Towards(s));
      UnservedIsKept(s, Towards(s), version);
      RunIsKept(s, Towards(s));
      DrivenServes(t, version, n - 1);
    }
  }

  /** From every reachable state of a run that was called, ten steps of Run, or of the publisher it is waiting
      for, serve every edge published so far. */
  lemma EdgesCanBeServed(ss: seq<Sched>, es: seq<Event>, version: nat)
    requires IsRun(ss, es) && ss[|es|].loop.pc != Fresh && 0 < version <= ss[|es|].past.lastEdge
    ensures Served(Driven(ss[|es|], MOST_STEPS + 1), version)
  {
    hide Next, Inv, Driven, Served;
    ReachableIsInv(ss, es, |es|);
    DrivenServes(ss[|es|], version, MOST_STEPS + 1);
  }

  // ------------------------------------------------------------------- the object

  /** The fields `Syncer` guards with its lock and the two one-slot channels. Its methods are the steps of the
      transition system. */
  class Syncer {
    var published: Option<Published>
    var pendingResume: bool
    var enabledMirror: bool
    var controlCh: nat
    var triggerCh: nat
    var runGuard: bool
    var stopped: bool
    var stopChClosed: bool
    var doneClosed: bool
    var stopOnce: bool
    /** Publishers between releasing the lock and offering their token. */
    ghost var sending: nat

    ghost predicate Valid()
      reads this
    {
      controlCh <= 1 && triggerCh <= 1 && (stopOnce <==> stopped) && (stopped <==> stopChClosed)
    }

    ghost function View(): Shared
      reads this
    {
      Shared(published, pendingResume, controlCh > 0, triggerCh > 0, sending)
    }

    constructor (initial: Option<Published>)
      ensures Valid() && View() == Shared(initial, false, false, false, 0) && !stopped && !runGuard && !doneClosed
    {
      published, pendingResume, enabledMirror := initial, false, initial.Some? && initial.value.enabled;
      controlCh, triggerCh, sending := 0, 0, 0;
      runGuard, stopped, stopChClosed, doneClosed, stopOnce := false, false, false, false, false;
    }

    /** Publishes a state under the lock. */
    method ApplyStateLocked(next: bool)
      requires Valid()
      modifies this`published, this`pendingResume, this`enabledMirror, this`sending
      ensures Valid() && View() == PublishShared(old(View()), next) && enabledMirror == next
    {
      var previous := published;
      if previous.Some? && !previous.value.enabled && next {
        pendingResume := true;
      }
      published := Some(Published((if previous.Some? then previous.value.version else 0) + 1, next));
      enabledMirror := next;
      sending := sending + 1;
    }

    /** Offers the control token; a full channel already holds one. */
    method NotifyControl()
      requires Valid() && sending > 0
      modifies this`controlCh, this`sending
      ensures Valid() && View() == old(View()).(sending := old(sending) - 1, control := true)
    {
      if controlCh < 1 {
        controlCh := controlCh + 1;
      }
      sending := sending - 1;
    }

    /** Pause and Resume: publishes only a real change. */
    method SetSyncEnabled(next: bool)
      requires Valid()
      modifies this`published, this`pendingResume, this`enabledMirror, this`controlCh, this`sending
      ensures Valid()
      ensures var sh := old(View());
              View() == if sh.published.None? || sh.published.value.enabled == next then sh
                        else PublishShared(sh, next).(sending := sh.sending, control := true)
    {
      if published.None? || published.value.enabled == next {
        return;
      }
      ApplyStateLocked(next);
      NotifyControl();
    }

    /** Takes the final state and the coalesced edge in one locked step. */
    method ConsumeControlState() returns (state: Option<Published>, pending: bool)
      requires Valid()
      modifies this`pendingResume
      ensures Valid() && state == published && pending == old(pendingResume)
      ensures View() == old(View()).(pendingResume := false)
    {
      state, pending := published, pendingResume;
      pendingResume := false;
    }

    /** Clears triggers that queued up while paused. */
    method DrainTrigger()
      requires Valid()
      modifies this`triggerCh
      ensures Valid() && View() == old(View()).(trigger := false)
    {
      while triggerCh > 0
        invariant Valid()
        invariant View() == old(View()) || View() == old(View()).(trigger := false)
      {
        triggerCh := triggerCh - 1;
      }
    }

    method TriggerSync()
      requires Valid()
      modifies this`triggerCh
      ensures Valid() && View() == old(View()).(trigger := true)
    {
      if triggerCh < 1 {
        triggerCh := triggerCh + 1;
      }
    }

    /** Whether this call of Run becomes the one run there is. */
    method AcquireRun() returns (accepted: bool)
      requires Valid()
      modifies this`runGuard
      ensures Valid() && accepted == (!stopped && !old(runGuard)) && runGuard == (old(runGuard) || accepted)
    {
      if stopped || runGuard {
        return false;
      }
      runGuard := true;
      accepted := true;
    }

    /** Idempotent; closes the done channel only when no Run owns it. */
    method Stop()
      requires Valid() && (doneClosed ==> stopOnce || runGuard)
      modifies this`stopOnce, this`stopped, this`stopChClosed, this`doneClosed
      ensures Valid() && stopped
      ensures doneClosed == (old(doneClosed) || (!old(stopOnce) && !runGuard))
      ensures !old(stopOnce) && !runGuard ==> !old(doneClosed)
    {
      if stopOnce {
        return;
      }
      stopOnce, stopped := true, true;
      var neverStarted := !runGuard;
      stopChClosed := true;
      if neverStarted {
        doneClosed := true;
      }
    }
  }
}
