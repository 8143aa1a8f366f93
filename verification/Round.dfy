/** One round over all targets (syncer/syncer.go `runRound`): the groups of the four clouds run in parallel,
    each cloud's targets one after another with a cooldown that outlives the round. Time is a virtual clock
    that only moves forward. */
module Round {
  import opened Text
  import opened Tag
  import opened Plan
  import opened Observation

  /** `filterRulesForTarget`: a rule without targets applies to all. */
  function RulesFor(rules: seq<DomainRule>, target: int): seq<DomainRule> {
    if rules == [] then []
    else
      var r := rules[|rules| - 1];
      RulesFor(rules[..|rules| - 1], target) + (if r.targets == [] || target in r.targets then [r] else [])
  }

  /** The filter keeps the applicable rules, all of them, in their order. */
  lemma {:induction false} RulesForExactly(a: seq<DomainRule>, r: DomainRule, b: seq<DomainRule>, target: int)
    ensures RulesFor(a + [r] + b, target)
            == RulesFor(a, target) + (if r.targets == [] || target in r.targets then [r] else []) + RulesFor(b, target)
  {
    if b == [] {
      assert a + [r] + b == a + [r] && (a + [r])[..|a|] == a;
    } else {
      var init, last := b[..|b| - 1], b[|b| - 1];
      RulesForExactly(a, r, init, target);
      assert (a + [r] + b)[..|a| + |b|] == a + [r] + init && (a + [r] + b)[|a| + |b|] == last;
    }
  }

  method FilterRulesForTarget(rules: seq<DomainRule>, target: int) returns (filtered: seq<DomainRule>)
    ensures filtered == RulesFor(rules, target)
    ensures filtered == [] <==> forall r :: r in rules ==> r.targets != [] && target !in r.targets
  {
    filtered := [];
    for i := 0 to |rules|
      invariant filtered == RulesFor(rules[..i], target)
      invariant filtered == [] <==> forall j :: 0 <= j < i ==> rules[j].targets != [] && target !in rules[j].targets
    {
      var r := rules[i];
      assert rules[..i + 1][..i] == rules[..i];
      if |r.targets| == 0 {
        filtered := filtered + [r];
        continue;
      }
      for k := 0 to |r.targets|
        invariant target !in r.targets[..k]
      {
        if r.targets[k] == target {
          filtered := filtered + [r];
          break;
        }
      }
      assert r.targets[..|r.targets|] == r.targets;
    }
    assert rules[..|rules|] == rules;
  }

  // ------------------------------------------------------------------- the targets

  /** A configured target: its cloud, and whether any rule applies to it. */
  datatype Unit = Unit(ct: CloudType, applies: bool)

  function Applicable(us: seq<Unit>): nat {
    if us == [] then 0 else Applicable(us[..|us| - 1]) + if us[|us| - 1].applies then 1 else 0
  }

  /** `groupByCloud`: the targets of one cloud in their order. */
  function Group(us: seq<Unit>, ct: CloudType): seq<Unit> {
    if us == [] then [] else Group(us[..|us| - 1], ct) + if us[|us| - 1].ct == ct then [us[|us| - 1]] else []
  }

  lemma GroupStep(us: seq<Unit>, u: Unit, ct: CloudType)
    ensures Applicable(Group(us + [u], ct)) == Applicable(Group(us, ct)) + if u.ct == ct && u.applies then 1 else 0
    ensures multiset(Group(us + [u], ct)) == multiset(Group(us, ct)) + if u.ct == ct then multiset{u} else multiset{}
  {
    var g := Group(us, ct);
    assert (us + [u])[..|us|] == us && (us + [u])[|us|] == u;
    if u.ct == ct {
      assert Group(us + [u], ct) == g + [u];
      assert (g + [u])[..|g|] == g;
    } else {
      assert Group(us + [u], ct) == g;
    }
  }

  lemma GroupOne(us: seq<Unit>, u: Unit, ct: CloudType)
    ensures Group(us + [u], ct) == Group(us, ct) + if u.ct == ct then [u] else []
  {
    assert (us + [u])[..|us|] == us;
  }

  /** A group holds the targets of its cloud, all of them, in their order. */
  lemma {:induction false} GroupExactly(a: seq<Unit>, u: Unit, b: seq<Unit>, ct: CloudType)
    ensures Group(a + [u] + b, ct) == Group(a, ct) + (if u.ct == ct then [u] else []) + Group(b, ct)
  {
    if b == [] {
      assert a + [u] + b == a + [u];
      GroupOne(a, u, ct);
    } else {
      var init, last := b[..|b| - 1], b[|b| - 1];
      hide Group;
      GroupExactly(a, u, init, ct);
      GroupOne(a + [u] + init, last, ct);
      GroupOne(init, last, ct);
      assert a + [u] + b == (a + [u] + init) + [last] && b == init + [last];
    }
  }

  /** Grouping neither loses nor repeats a target, nor one that has something to do. */
  lemma {:induction false} GroupsPartition(us: seq<Unit>)
    ensures multiset(Group(us, TCLighthouse)) + multiset(Group(us, TCCVM)) + multiset(Group(us, AliSWAS))
            + multiset(Group(us, AliECS)) == multiset(us)
    ensures Applicable(Group(us, TCLighthouse)) + Applicable(Group(us, TCCVM)) + Applicable(Group(us, AliSWAS))
            + Applicable(Group(us, AliECS)) == Applicable(us)
  {
    if us != [] {
      hide Group;
      var init, last := us[..|us| - 1], us[|us| - 1];
      assert us == init + [last];
      GroupsPartition(init);
      GroupStep(init, last, TCLighthouse);
      GroupStep(init, last, TCCVM);
      GroupStep(init, last, AliSWAS);
      GroupStep(init, last, AliECS);
    }
  }

  // ------------------------------------------------------------------- the schedule

  /** `rateLimitInterval` in milliseconds. */
  function Cooldown(ct: CloudType): nat {
    match ct
    case AliSWAS => 5000
    case TCLighthouse => 5000
    case _ => 200
  }

  /** What a finished target sync contributes. */
  datatype Finding = Finding(outcome: Outcome, added: nat, deleted: nat, note: Option<CleanupNote>)

  /** What the goroutine of one cloud is doing with its next target. */
  datatype Stage = Choosing | Running(began: int) | Returned(finding: Finding) | Counted(finding: Finding)

  /** The group of one cloud: what is left, the stage, and the earliest next start. */
  datatype Lane = Lane(todo: seq<Unit>, stage: Stage, next: int)

  datatype Lanes = Lanes(lighthouse: Lane, cvm: Lane, swas: Lane, ecs: Lane)

  function Of(ls: Lanes, ct: CloudType): Lane {
    match ct case TCLighthouse => ls.lighthouse case TCCVM => ls.cvm case AliSWAS => ls.swas case AliECS => ls.ecs
  }

  function With(ls: Lanes, ct: CloudType, l: Lane): Lanes {
    match ct
    case TCLighthouse => ls.(lighthouse := l)
    case TCCVM => ls.(cvm := l)
    case AliSWAS => ls.(swas := l)
    case AliECS => ls.(ecs := l)
  }

  datatype Counters = Counters(ok: nat, changed: nat, failed: nat, skipped: nat)

  /** A finished target sync. */
  datatype Span = Span(ct: CloudType, begin: int, end: int)

  /** `findings` are what the target syncs of the round returned so far, in the order they returned. */
  datatype State = State(now: int, lanes: Lanes, counters: Counters, findings: seq<Finding>, notes: seq<Option<CleanupNote>>,
                         total: nat, spans: seq<Span>)

  datatype Event =
    | NewRound(units: seq<Unit>)
    | Pass(ms: nat)
    | Skip(ct: CloudType)
    | Begin(ct: CloudType)
    | End(ct: CloudType, finding: Finding)
    | Tally(ct: CloudType)
    | Record(ct: CloudType)

  function Idle(next: int): Lane { Lane([], Choosing, next) }

  function Init(now: int): State {
    State(now, Lanes(Idle(now), Idle(now), Idle(now), Idle(now)), Counters(0, 0, 0, 0), [], [], 0, [])
  }

  predicate Done(l: Lane) { l.todo == [] }

  predicate AllDone(ls: Lanes) { Done(ls.lighthouse) && Done(ls.cvm) && Done(ls.swas) && Done(ls.ecs) }

  function Loaded(ls: Lanes, us: seq<Unit>): Lanes {
    Lanes(ls.lighthouse.(todo := Group(us, TCLighthouse)), ls.cvm.(todo := Group(us, TCCVM)),
          ls.swas.(todo := Group(us, AliSWAS)), ls.ecs.(todo := Group(us, AliECS)))
  }

  function Tallied(c: Counters, f: Finding): Counters {
    match f.outcome
    case Failed => c.(failed := c.failed + 1)
    case Partial => c.(skipped := c.skipped + 1)
    case Success => if f.added > 0 || f.deleted > 0 then c.(changed := c.changed + 1) else c.(ok := c.ok + 1)
  }

  /** One step of any goroutine of the round, or of time. */
  function Next(s: State, e: Event): Option<State> {
    match e
    case NewRound(us) =>
      if !AllDone(s.lanes) then None
      else Some(State(s.now, Loaded(s.lanes, us), Counters(0, 0, 0, 0), [], [], Applicable(us), s.spans))
    case Pass(ms) => Some(s.(now := s.now + ms))
    case Skip(ct) =>
      var l := Of(s.lanes, ct);
      if l.stage == Choosing && l.todo != [] && !l.todo[0].applies
      then Some(s.(lanes := With(s.lanes, ct, l.(todo := l.todo[1..])))) else None
    case Begin(ct) =>
      var l := Of(s.lanes, ct);
      if l.stage == Choosing && l.todo != [] && l.todo[0].applies && s.now >= l.next
      then Some(s.(lanes := With(s.lanes, ct, l.(stage := Running(s.now))))) else None
    case End(ct, finding) =>
      var l := Of(s.lanes, ct);
      if l.stage.Running?
      then Some(s.(lanes := With(s.lanes, ct, l.(stage := Returned(finding), next := s.now + Cooldown(ct))),
                   findings := s.findings + [finding], spans := s.spans + [Span(ct, l.stage.began, s.now)])) else None
    case Tally(ct) =>
      var l := Of(s.lanes, ct);
      if l.stage.Returned?
      then Some(s.(lanes := With(s.lanes, ct, l.(stage := Counted(l.stage.finding))),
                   counters := Tallied(s.counters, l.stage.finding))) else None
    case Record(ct) =>
      var l := Of(s.lanes, ct);
      if l.stage.Counted? && l.todo != []
      then Some(s.(lanes := With(s.lanes, ct, l.(stage := Choosing, todo := l.todo[1..])), notes := s.notes + [l.stage.finding.note]))
      else None
  }

  // --------------------------------------------------------------------- conservation

  function Classified(c: Counters): nat { c.ok + c.changed + c.failed + c.skipped }

  /** Targets of a lane that are still to be recorded, and of these the ones already tallied. */
  function Open(l: Lane): nat { Applicable(l.todo) }

  function Ahead(l: Lane): nat { if l.stage.Counted? then 1 else 0 }

  function AllOpen(ls: Lanes): nat { Open(ls.lighthouse) + Open(ls.cvm) + Open(ls.swas) + Open(ls.ecs) }

  function AllAhead(ls: Lanes): nat { Ahead(ls.lighthouse) + Ahead(ls.cvm) + Ahead(ls.swas) + Ahead(ls.ecs) }

  predicate LaneOK(l: Lane) { l.stage != Choosing ==> l.todo != [] && l.todo[0].applies }

  predicate Conserved(s: State) {
    && LaneOK(s.lanes.lighthouse) && LaneOK(s.lanes.cvm) && LaneOK(s.lanes.swas) && LaneOK(s.lanes.ecs)
    && |s.notes| + AllOpen(s.lanes) == s.total
    && Classified(s.counters) == |s.notes| + AllAhead(s.lanes)
  }

  lemma {:induction false} PopOne(us: seq<Unit>)
    requires us != []
    ensures Applicable(us) == Applicable(us[1..]) + if us[0].applies then 1 else 0
  {
    if |us| == 1 {
      assert us[..0] == [] && us[1..] == [];
    } else {
      var init := us[..|us| - 1];
      PopOne(init);
      assert us[1..][..|us| - 2] == init[1..];
    }
  }

  lemma LaneSums(ls: Lanes, ct: CloudType, l: Lane)
    ensures AllOpen(With(ls, ct, l)) == AllOpen(ls) - Open(Of(ls, ct)) + Open(l)
    ensures AllAhead(With(ls, ct, l)) == AllAhead(ls) - Ahead(Of(ls, ct)) + Ahead(l)
  {
    hide Open, Ahead;
  }

  lemma ConservedKept(s: State, e: Event)
    requires Conserved(s) && Next(s, e).Some?
    ensures Conserved(Next(s, e).value)
  {
    hide Open, Ahead, AllOpen, AllAhead, With, Applicable, Group;
    match e
    case NewRound(us) => NewRoundConserved(s, us);
    case Pass(_) =>
    case Skip(ct) => LaneStep(s, ct, Next(s, e).value);
    case Begin(ct) => LaneStep(s, ct, Next(s, e).value);
    case End(ct, _) => LaneStep(s, ct, Next(s, e).value);
    case Tally(ct) => LaneStep(s, ct, Next(s, e).value);
    case Record(ct) => LaneStep(s, ct, Next(s, e).value);
  }

  lemma NewRoundConserved(s: State, us: seq<Unit>)
    requires Conserved(s) && Next(s, NewRound(us)).Some?
    ensures Conserved(Next(s, NewRound(us)).value)
  {
    hide Group, Applicable;
    NothingApplies();
    GroupsPartition(us);
  }

  lemma NothingApplies()
    ensures Applicable([]) == 0
  {
  }

  lemma LaneStep(s: State, ct: CloudType, t: State)
    requires Conserved(s)
    requires exists e :: Next(s, e) == Some(t) && (e == Skip(ct) || e == Begin(ct) || e == Tally(ct) || e == Record(ct)
                                                   || (e.End? && e.ct == ct))
    ensures Conserved(t)
  {
    hide Group, Cooldown, Applicable, AllOpen, AllAhead;
    var l := Of(s.lanes, ct);
    LaneSums(s.lanes, ct, Of(t.lanes, ct));
    if l.todo != [] { PopOne(l.todo); }
  }

  // ---------------------------------------------------------------------- the findings

  /** What a target counts as. */
  datatype Class = AsOk | AsChanged | AsFailed | AsSkipped

  predicate Is(k: Class, f: Finding) {
    match k
    case AsOk => f.outcome == Success && f.added == 0 && f.deleted == 0
    case AsChanged => f.outcome == Success && (f.added > 0 || f.deleted > 0)
    case AsFailed => f.outcome == Failed
    case AsSkipped => f.outcome == Partial
  }

  function HowMany(k: Class, fs: seq<Finding>): nat {
    if fs == [] then 0 else HowMany(k, fs[..|fs| - 1]) + if Is(k, fs[|fs| - 1]) then 1 else 0
  }

  function Counter(k: Class, c: Counters): nat {
    match k case AsOk => c.ok case AsChanged => c.changed case AsFailed => c.failed case AsSkipped => c.skipped
  }

  /** A finding of the class that is not tallied yet. */
  function Held(k: Class, l: Lane): nat { if l.stage.Returned? && Is(k, l.stage.finding) then 1 else 0 }

  function AllHeld(k: Class, ls: Lanes): nat { Held(k, ls.lighthouse) + Held(k, ls.cvm) + Held(k, ls.swas) + Held(k, ls.ecs) }

  function Unrecorded(l: Lane): nat { if l.stage.Returned? || l.stage.Counted? then 1 else 0 }

  function AllUnrecorded(ls: Lanes): nat {
    Unrecorded(ls.lighthouse) + Unrecorded(ls.cvm) + Unrecorded(ls.swas) + Unrecorded(ls.ecs)
  }

  /** The counters tell what the syncs returned. */
  predicate Truthful(s: State) {
    && (forall k: Class :: Counter(k, s.counters) + AllHeld(k, s.lanes) == HowMany(k, s.findings))
    && |s.findings| == |s.notes| + AllUnrecorded(s.lanes)
  }

  lemma HeldSums(ls: Lanes, ct: CloudType, l: Lane, k: Class)
    ensures AllHeld(k, With(ls, ct, l)) == AllHeld(k, ls) - Held(k, Of(ls, ct)) + Held(k, l)
    ensures AllUnrecorded(With(ls, ct, l)) == AllUnrecorded(ls) - Unrecorded(Of(ls, ct)) + Unrecorded(l)
  {
    hide Held, Unrecorded;
  }

  lemma OneMore(k: Class, fs: seq<Finding>, f: Finding)
    ensures HowMany(k, fs + [f]) == HowMany(k, fs) + if Is(k, f) then 1 else 0
  {
    hide Is;
    assert (fs + [f])[..|fs|] == fs;
  }

  lemma TallyCounts(k: Class, c: Counters, f: Finding)
    ensures Counter(k, Tallied(c, f)) == Counter(k, c) + if Is(k, f) then 1 else 0
  {
  }

  /** Events that move one lane. */
  predicate MovesLane(e: Event) { !e.NewRound? && !e.Pass? }

  lemma ClassStep(s: State, e: Event, k: Class)
    requires Next(s, e).Some? && MovesLane(e) && Counter(k, s.counters) + AllHeld(k, s.lanes) == HowMany(k, s.findings)
    ensures var t := Next(s, e).value; Counter(k, t.counters) + AllHeld(k, t.lanes) == HowMany(k, t.findings)
  {
    hide Cooldown, AllHeld, AllUnrecorded, HowMany, Is, Counter, Tallied;
    var t := Next(s, e).value;
    HeldSums(s.lanes, e.ct, Of(t.lanes, e.ct), k);
    if e.End? { OneMore(k, s.findings, e.finding); }
    if e.Tally? { TallyCounts(k, s.counters, Of(s.lanes, e.ct).stage.finding); }
  }

  lemma RecordStep(s: State, e: Event)
    requires Next(s, e).Some? && MovesLane(e) && |s.findings| == |s.notes| + AllUnrecorded(s.lanes)
    ensures var t := Next(s, e).value; |t.findings| == |t.notes| + AllUnrecorded(t.lanes)
  {
    hide Cooldown, AllHeld, AllUnrecorded, Tallied;
    var t := Next(s, e).value;
    HeldSums(s.lanes, e.ct, Of(t.lanes, e.ct), AsOk);
  }

  lemma TruthfulKept(s: State, e: Event)
    requires Conserved(s) && Truthful(s) && Next(s, e).Some?
    ensures Truthful(Next(s, e).value)
  {
    if e.NewRound? {
      hide Group, Applicable, AllOpen, AllAhead, Is;
    } else if MovesLane(e) {
      hide Next, Counter, AllHeld, HowMany;
      forall k: Class { ClassStep(s, e, k); }
      RecordStep(s, e);
    }
  }

  // ------------------------------------------------------------------------- cooldown

  /** Finished syncs of one cloud lie apart, and the lane remembers when the next may start. */
  ghost predicate Spaced(s: State) {
    && (forall i, j :: 0 <= i < j < |s.spans| && s.spans[i].ct == s.spans[j].ct
          ==> s.spans[i].end + Cooldown(s.spans[i].ct) <= s.spans[j].begin)
    && (forall x :: x in s.spans ==> x.end + Cooldown(x.ct) <= Of(s.lanes, x.ct).next)
    && (forall ct :: LaneTimed(Of(s.lanes, ct), s.now))
  }

  predicate LaneTimed(l: Lane, now: int) { l.stage.Running? ==> l.next <= l.stage.began <= now }

  lemma SpacedKept(s: State, e: Event)
    requires Spaced(s) && Next(s, e).Some?
    ensures Spaced(Next(s, e).value)
  {
    hide Group, Cooldown, Applicable, Tallied;
    var t := Next(s, e).value;
    forall ct ensures LaneTimed(Of(t.lanes, ct), t.now) {
      assert LaneTimed(Of(s.lanes, ct), s.now);
    }
    if e.End? {
      SpacedAtEnd(s, e.ct, t);
    } else {
      assert t.spans == s.spans && forall ct :: Of(t.lanes, ct).next == Of(s.lanes, ct).next;
    }
  }

  lemma SpacedAtEnd(s: State, ct: CloudType, t: State)
    requires Spaced(s) && Of(s.lanes, ct).stage.Running?
    requires t.spans == s.spans + [Span(ct, Of(s.lanes, ct).stage.began, s.now)] && t.now == s.now
    requires forall c :: Of(t.lanes, c).next == if c == ct then s.now + Cooldown(ct) else Of(s.lanes, c).next
    requires forall c :: LaneTimed(Of(t.lanes, c), t.now)
    ensures Spaced(t)
  {
    hide Of, Cooldown;
    assert LaneTimed(Of(s.lanes, ct), s.now);
    forall x | x in t.spans ensures x.end + Cooldown(x.ct) <= Of(t.lanes, x.ct).next {
      if x in s.spans { assert x.end + Cooldown(x.ct) <= Of(s.lanes, x.ct).next; }
    }
  }

  // ----------------------------------------------------------------------- whole runs

  ghost predicate IsRun(ss: seq<State>, es: seq<Event>) {
    && |ss| == |es| + 1 && (exists now :: ss[0] == Init(now))
    && forall i :: 0 <= i < |es| ==> Next(ss[i], es[i]) == Some(ss[i + 1])
  }

  lemma {:induction false} RunHolds(ss: seq<State>, es: seq<Event>, n: nat)
    requires IsRun(ss, es) && n <= |es|
    ensures Conserved(ss[n]) && Spaced(ss[n]) && Truthful(ss[n])
    decreases n
  {
    hide Next, Conserved, Spaced, Truthful;
    if n == 0 {
      var now :| ss[0] == Init(now);
      InitHolds(now);
    } else {
      RunHolds(ss, es, n - 1);
      assert Next(ss[n - 1], es[n - 1]) == Some(ss[n - 1 + 1]);
      ConservedKept(ss[n - 1], es[n - 1]);
      SpacedKept(ss[n - 1], es[n - 1]);
      TruthfulKept(ss[n - 1], es[n - 1]);
    }
  }

  lemma InitHolds(now: int)
    ensures Conserved(Init(now)) && Spaced(Init(now)) && Truthful(Init(now))
  {
    hide Applicable;
    NothingApplies();
  }

  /** Whatever the schedule of the four groups, when a round is over every target with an applicable rule has
      been classified once, and its observation falls into exactly one of the four classes. */
  lemma RoundConserves(ss: seq<State>, es: seq<Event>)
    requires IsRun(ss, es) && AllDone(ss[|es|].lanes)
    ensures var s := ss[|es|];
            && Classified(s.counters) == s.total == |s.notes|
            && Count(s.notes, Observed) + Count(s.notes, Estimated) + Count(s.notes, Historical) + Count(s.notes, Unknown) == s.total
  {
    hide Next, Spaced, Truthful, Count;
    RunHolds(ss, es, |es|);
    ClassesPartition(ss[|es|].notes);
  }

  /** Two syncs of one cloud are separated, end to start, by five seconds at Alibaba SWAS and Tencent Lighthouse and by
      200 ms at the others, within a round and across rounds. */
  lemma SyncsKeepTheirDistance(ss: seq<State>, es: seq<Event>, i: nat, j: nat)
    requires IsRun(ss, es) && i < j < |ss[|es|].spans|
    ensures var spans := ss[|es|].spans;
            spans[i].ct == spans[j].ct
            ==> spans[i].end + (if spans[i].ct == AliSWAS || spans[i].ct == TCLighthouse then 5000 else 200) <= spans[j].begin
  {
    hide Next, Conserved, Truthful;
    RunHolds(ss, es, |es|);
  }

  // ---------------------------------------------------------------------- the verdict

  datatype RoundOutcome = RoundSuccess | RoundFailed | RoundPartial | RoundIdle

  function OutcomeOf(total: nat, c: Counters): RoundOutcome {
    if total == 0 then RoundIdle
    else if c.failed > 0 then RoundFailed
    else if c.skipped > 0 then RoundPartial
    else RoundSuccess
  }

  /** When a round is over, each counter is the number of target syncs that returned what it counts, and there
      is one of them for every target with an applicable rule. */
  lemma CountersAreFindings(ss: seq<State>, es: seq<Event>)
    requires IsRun(ss, es) && AllDone(ss[|es|].lanes)
    ensures var s := ss[|es|];
            && |s.findings| == s.total && s.counters.failed == HowMany(AsFailed, s.findings) && s.counters.skipped == HowMany(AsSkipped, s.findings)
            && s.counters.changed == HowMany(AsChanged, s.findings) && s.counters.ok == HowMany(AsOk, s.findings)
  {
    hide Next, Spaced, Applicable, HowMany;
    RunHolds(ss, es, |es|);
    NothingApplies();
    var s := ss[|es|];
    assert forall k: Class :: Counter(k, s.counters) == HowMany(k, s.findings);
    assert Counter(AsFailed, s.counters) == s.counters.failed && Counter(AsSkipped, s.counters) == s.counters.skipped;
    assert Counter(AsChanged, s.counters) == s.counters.changed && Counter(AsOk, s.counters) == s.counters.ok;
  }

  lemma {:induction false} NoneOf(k: Class, fs: seq<Finding>)
    ensures HowMany(k, fs) == 0 <==> forall f :: f in fs ==> !Is(k, f)
  {
    hide Is;
    if fs != [] {
      var init, last := fs[..|fs| - 1], fs[|fs| - 1];
      NoneOf(k, init);
      assert fs == init + [last];
    }
  }

  /** The verdict of a round, from what its target syncs returned: a success exactly when there was one and all
      succeeded, failed exactly when one failed, partial when none failed and one was partial, and idle
      exactly when there was none. */
  lemma SuccessMeansAllDone(ss: seq<State>, es: seq<Event>)
    requires IsRun(ss, es) && AllDone(ss[|es|].lanes)
    ensures var (s, fs) := (ss[|es|], ss[|es|].findings);
            && (OutcomeOf(s.total, s.counters) == RoundSuccess <==> fs != [] && forall f :: f in fs ==> f.outcome == Success)
            && (OutcomeOf(s.total, s.counters) == RoundFailed <==> exists f :: f in fs && f.outcome == Failed)
            && (OutcomeOf(s.total, s.counters) == RoundPartial
                <==> (exists f :: f in fs && f.outcome == Partial) && forall f :: f in fs ==> f.outcome != Failed)
            && (OutcomeOf(s.total, s.counters) == RoundIdle <==> fs == [])
            && (OutcomeOf(s.total, s.counters) == RoundSuccess <==> s.total > 0 && s.counters.ok + s.counters.changed == s.total)
  {
    hide Next, HowMany, AllDone;
    CountersAreFindings(ss, es);
    assert Classified(ss[|es|].counters) == ss[|es|].total by { RoundConserves(ss, es); }
    NoneOf(AsFailed, ss[|es|].findings);
    NoneOf(AsSkipped, ss[|es|].findings);
  }
}
