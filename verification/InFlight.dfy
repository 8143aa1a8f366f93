/** In-flight slots and the rate-limited drop diagnostics of notifier/inflight.go: who owns which timer
    callback, and where every dropped notification is accounted for. */
module InFlight {
  import opened Text

  // --------------------------------------------------------------------------- slots

  /** One channel's slots. A release function gives its slot back once, however often it is called. */
  class Limiter {
    const capacity: nat
    var slots: nat
    /** The grants that have not been released. */
    ghost var held: set<Grant>

    ghost predicate Valid()
      reads this, held
    {
      && capacity >= 1 && slots == |held| && slots <= capacity
      && forall g :: g in held ==> !g.released
    }

    constructor (capacity: int)
      ensures Valid() && this.capacity == (if capacity <= 0 then 1 else capacity) && held == {}
    {
      this.capacity := if capacity <= 0 then 1 else capacity;
      slots, held := 0, {};
    }

    /** Takes a slot if one is free; never waits. */
    method Acquire() returns (grant: Grant?)
      requires Valid()
      modifies this`slots, this`held
      ensures Valid() && (grant != null <==> old(slots) < capacity)
      ensures grant == null ==> held == old(held)
      ensures grant != null ==> fresh(grant) && held == old(held) + {grant} && !grant.released
    {
      if slots >= capacity {
        return null;
      }
      var g := new Grant();
      slots := slots + 1;
      held := held + {g};
      grant := g;
    }

    /** Calls a release function, once or again. */
    method Release(grant: Grant)
      requires Valid() && (grant.released || grant in held)
      modifies this`slots, this`held, grant
      ensures Valid() && grant.released && held == old(held) - {grant}
    {
      if grant.released {
        assert grant !in held;
        return;
      }
      grant.released := true;
      slots := slots - 1;
      held := held - {grant};
    }
  }

  class Grant {
    var released: bool

    constructor ()
      ensures !released
    {
      released := false;
    }
  }

  // ------------------------------------------------------------------- drop diagnostics

  datatype Channel = Email | Dingtalk | Feishu | Slack | Unknown
  datatype Kind = DNSFailed | SyncError | OperationalUnhealthy

  /** A dropped notification of a known kind. */
  datatype Drop = Drop(channel: Channel, kind: Kind)

  /** Fixed counters per channel and per kind of event. */
  datatype Counts = Counts(channels: map<Channel, nat>, kinds: map<Kind, nat>)

  function Get<K>(m: map<K, nat>, k: K): nat { if k in m then m[k] else 0 }

  /** The counts of a list of drops. */
  function CountsOf(ds: seq<Drop>): Counts {
    if ds == [] then Counts(map[], map[]) else Counted(CountsOf(ds[..|ds| - 1]), ds[|ds| - 1])
  }

  function Counted(c: Counts, d: Drop): Counts {
    Counts(c.channels[d.channel := Get(c.channels, d.channel) + 1], c.kinds[d.kind := Get(c.kinds, d.kind) + 1])
  }

  function ChannelSum(c: Counts): nat {
    Get(c.channels, Email) + Get(c.channels, Dingtalk) + Get(c.channels, Feishu) + Get(c.channels, Slack) + Get(c.channels, Unknown)
  }

  function KindSum(c: Counts): nat { Get(c.kinds, DNSFailed) + Get(c.kinds, SyncError) + Get(c.kinds, OperationalUnhealthy) }

  /** Channel sums and event sums both count the drops. */
  lemma {:induction false} SumsAgree(ds: seq<Drop>)
    ensures ChannelSum(CountsOf(ds)) == KindSum(CountsOf(ds)) == |ds|
  {
    hide ChannelSum, KindSum, Counted;
    if ds == [] {
      EmptySums();
    } else {
      SumsAgree(ds[..|ds| - 1]);
      OneMore(CountsOf(ds[..|ds| - 1]), ds[|ds| - 1]);
    }
  }

  lemma EmptySums()
    ensures ChannelSum(Counts(map[], map[])) == KindSum(Counts(map[], map[])) == 0
  {
  }

  lemma OneMore(c: Counts, d: Drop)
    ensures ChannelSum(Counted(c, d)) == ChannelSum(c) + 1 && KindSum(Counted(c, d)) == KindSum(c) + 1
  {
    match d.channel { case Email => case Dingtalk => case Feishu => case Slack => case Unknown => }
    match d.kind { case DNSFailed => case SyncError => case OperationalUnhealthy => }
  }

  /** The drops of one channel, and of one kind of event. */
  function OfChannel(m: multiset<Drop>, c: Channel): nat {
    m[Drop(c, DNSFailed)] + m[Drop(c, SyncError)] + m[Drop(c, OperationalUnhealthy)]
  }

  function OfKind(m: multiset<Drop>, k: Kind): nat {
    m[Drop(Email, k)] + m[Drop(Dingtalk, k)] + m[Drop(Feishu, k)] + m[Drop(Slack, k)] + m[Drop(Unknown, k)]
  }

  function ByChannel(m: multiset<Drop>): nat {
    OfChannel(m, Email) + OfChannel(m, Dingtalk) + OfChannel(m, Feishu) + OfChannel(m, Slack) + OfChannel(m, Unknown)
  }

  function ByKind(m: multiset<Drop>): nat { OfKind(m, DNSFailed) + OfKind(m, SyncError) + OfKind(m, OperationalUnhealthy) }

  /** The counters of a list of drops say exactly how many of each channel and of each kind there are. */
  lemma {:induction false} CountsAreExact(ds: seq<Drop>)
    ensures forall c :: Get(CountsOf(ds).channels, c) == OfChannel(multiset(ds), c)
    ensures forall k :: Get(CountsOf(ds).kinds, k) == OfKind(multiset(ds), k)
  {
    if ds != [] {
      var (init, last) := (ds[..|ds| - 1], ds[|ds| - 1]);
      CountsAreExact(init);
      assert ds == init + [last];
      forall c ensures Get(CountsOf(ds).channels, c) == OfChannel(multiset(ds), c) { OneMoreOfChannel(multiset(init), last, c); }
      forall k ensures Get(CountsOf(ds).kinds, k) == OfKind(multiset(ds), k) { OneMoreOfKind(multiset(init), last, k); }
    }
  }

  lemma OneMoreOfChannel(m: multiset<Drop>, d: Drop, c: Channel)
    ensures OfChannel(m + multiset{d}, c) == OfChannel(m, c) + if d.channel == c then 1 else 0
  {
    match d.kind { case DNSFailed => case SyncError => case OperationalUnhealthy => }
  }

  lemma OneMoreOfKind(m: multiset<Drop>, d: Drop, k: Kind)
    ensures OfKind(m + multiset{d}, k) == OfKind(m, k) + if d.kind == k then 1 else 0
  {
    match d.channel { case Email => case Dingtalk => case Feishu => case Slack => case Unknown => }
  }

  /** Where drops are: `pending` in the counters, `held` taken out by someone about to write them, `written`,
      or `discarded` at the stop. */
  datatype Ledger = Ledger(dropped: multiset<Drop>, pending: seq<Drop>, held: multiset<Drop>, written: multiset<Drop>,
                           discarded: multiset<Drop>)

  const NOTHING := Ledger(multiset{}, [], multiset{}, multiset{}, multiset{})

  function Noted(l: Ledger, d: Drop): Ledger { l.(dropped := l.dropped + multiset{d}, pending := l.pending + [d]) }

  function TakenOut(l: Ledger): Ledger { l.(pending := [], held := l.held + multiset(l.pending)) }

  function Wrote(l: Ledger, batch: multiset<Drop>): Ledger { l.(held := l.held - batch, written := l.written + batch) }

  function Discarded(l: Ledger): Ledger { l.(pending := [], discarded := l.discarded + multiset(l.pending)) }

  /** Every drop is in exactly one place. */
  predicate Accounted(l: Ledger) { l.written + l.held + multiset(l.pending) + l.discarded == l.dropped }

  lemma LedgerKept(l: Ledger, d: Drop, batch: multiset<Drop>)
    requires Accounted(l)
    ensures Accounted(Noted(l, d)) && Accounted(TakenOut(l)) && Accounted(Discarded(l))
    ensures batch <= l.held ==> Accounted(Wrote(l, batch))
  {
    assert multiset(l.pending + [d]) == multiset(l.pending) + multiset{d};
  }

  /** The timer the limiter points to: none, armed, or fired with its callback on the way. */
  datatype Timer = NoTimer | Armed | Fired

  /** The diagnostics: the ledger, the timer, the wait group, and how many callbacks are before their first
      locked step, writing a summary, or about to leave; `reporters` are first drops being written. */
  datatype Diagnostics = Diagnostics(ledger: Ledger, timer: Timer, closed: bool, waitGroup: int,
                                     starting: nat, writing: nat, leaving: nat, summary: multiset<Drop>, reporters: seq<multiset<Drop>>,
                                     waited: bool)

  datatype Event =
    | Dropped(drop: Drop)      // logDropped: the locked step
    | WroteFirst               // the first drop of a window has been written
    | Fire                     // the armed timer starts its callback
    | Flush                    // flushDrops: the first locked step
    | WroteSummary             // the summary has been written; the second locked step
    | Leave                    // the callback's deferred Done
    | StopStep                 // StopDiagnostics: the locked step
    | WaitReturns              // StopDiagnostics: the wait ends

  function Start(): Diagnostics { Diagnostics(NOTHING, NoTimer, false, 0, 0, 0, 0, multiset{}, [], false) }

  /** `scheduleDropTimerLocked`. */
  function Schedule(d: Diagnostics): Diagnostics { d.(timer := Armed, waitGroup := d.waitGroup + 1) }

  function Next(d: Diagnostics, e: Event): Option<Diagnostics> {
    match e
    case Dropped(drop) =>
      if d.closed then Some(d)
      else
        var l := Noted(d.ledger, drop);
        if d.timer != NoTimer then Some(d.(ledger := l))
        else
          Some(Schedule(d.(ledger := TakenOut(l), reporters := d.reporters + [multiset(l.pending)])))
    case WroteFirst =>
      if d.reporters == [] || !(d.reporters[0] <= d.ledger.held) then None
      else
        Some(d.(reporters := d.reporters[1..], ledger := Wrote(d.ledger, d.reporters[0])))
    case Fire => if d.timer == Armed then Some(d.(timer := Fired, starting := d.starting + 1)) else None
    case Flush =>
      if d.starting == 0 then None
      else if d.closed then Some(d.(starting := d.starting - 1, leaving := d.leaving + 1))
      else if d.ledger.pending == [] then Some(d.(timer := NoTimer, starting := d.starting - 1, leaving := d.leaving + 1))
      else
        Some(d.(starting := d.starting - 1, writing := d.writing + 1, summary := d.summary + multiset(d.ledger.pending),
                ledger := TakenOut(d.ledger)))
    case WroteSummary =>
      if d.writing == 0 || !(d.summary <= d.ledger.held) then None
      else
        var next := d.(ledger := Wrote(d.ledger, d.summary), summary := multiset{}, writing := d.writing - 1, leaving := d.leaving + 1);
        Some(if d.closed then next else Schedule(next))
    case Leave => if d.leaving == 0 then None else Some(d.(leaving := d.leaving - 1, waitGroup := d.waitGroup - 1))
    case StopStep =>
      Some(d.(closed := true, timer := NoTimer, waitGroup := d.waitGroup - if d.timer == Armed then 1 else 0,
              ledger := Discarded(d.ledger)))
    case WaitReturns => if d.closed && d.waitGroup == 0 then Some(d.(waited := true)) else None
  }

  function Sum(ms: seq<multiset<Drop>>): multiset<Drop> { if ms == [] then multiset{} else ms[0] + Sum(ms[1..]) }

  lemma {:induction false} SumAppend(ms: seq<multiset<Drop>>, m: multiset<Drop>)
    ensures Sum(ms + [m]) == Sum(ms) + m
  {
    if ms == [] {
      assert [m][1..] == [];
    } else {
      assert (ms + [m])[1..] == ms[1..] + [m];
      SumAppend(ms[1..], m);
    }
  }

  /** Callbacks that have been started and have not left. */
  function Running(d: Diagnostics): nat { d.starting + d.writing + d.leaving }

  predicate Balanced(d: Diagnostics) { d.waitGroup == (if d.timer == Armed then 1 else 0) + Running(d) }

  /** What was taken out is with those who are about to write it. */
  predicate Shared(d: Diagnostics) { d.ledger.held == Sum(d.reporters) + d.summary }

  predicate Conserved(d: Diagnostics) { Accounted(d.ledger) && Shared(d) }

  /** At most one callback is between its start and its second locked step, and it is the one of the timer the
      limiter points to; a closed limiter has no timer and nothing pending. */
  predicate Owned(d: Diagnostics) {
    && (!d.closed ==> d.starting + d.writing == (if d.timer == Fired then 1 else 0))
    && d.starting + d.writing <= 1
    && (d.writing == 0 ==> d.summary == multiset{})
    && (d.closed ==> d.timer == NoTimer && d.ledger.pending == [])
    && (d.timer == NoTimer ==> d.ledger.pending == [])
    && (d.waited ==> d.closed && Running(d) == 0)
  }

  predicate Inv(d: Diagnostics) { Balanced(d) && Conserved(d) && Owned(d) }

  lemma OwnedKept(d: Diagnostics, e: Event)
    requires Inv(d) && Next(d, e).Some?
    ensures Owned(Next(d, e).value)
  {
    hide Sum;
  }

  lemma BalancedKept(d: Diagnostics, e: Event)
    requires Inv(d) && Next(d, e).Some?
    ensures Balanced(Next(d, e).value)
  {
    hide Sum;
  }

  lemma ConservedKept(d: Diagnostics, e: Event)
    requires Inv(d) && Next(d, e).Some?
    ensures Conserved(Next(d, e).value)
  {
    hide Next, Accounted, Shared, Balanced, Owned;
    AccountsKept(d, e);
    SharesKept(d, e);
  }

  lemma AccountsKept(d: Diagnostics, e: Event)
    requires Accounted(d.ledger) && Next(d, e).Some?
    ensures Accounted(Next(d, e).value.ledger)
  {
    hide Accounted, Noted, TakenOut, Wrote, Discarded;
    var (l, some) := (d.ledger, Drop(Email, DNSFailed));
    match e
    case Dropped(drop) =>
      LedgerKept(l, drop, multiset{});
      LedgerKept(Noted(l, drop), drop, multiset{});
    case WroteFirst => LedgerKept(l, some, if d.reporters == [] then multiset{} else d.reporters[0]);
    case _ => LedgerKept(l, some, d.summary);
  }

  lemma SharesKept(d: Diagnostics, e: Event)
    requires Shared(d) && Owned(d) && Next(d, e).Some?
    ensures Shared(Next(d, e).value)
  {
    hide Sum;
    match e
    case Dropped(drop) => SumAppend(d.reporters, multiset(Noted(d.ledger, drop).pending));
    case WroteFirst => SumHead(d.reporters);
    case _ =>
  }

  lemma SumHead(ms: seq<multiset<Drop>>)
    ensures ms != [] ==> Sum(ms) == ms[0] + Sum(ms[1..])
  {
  }

  ghost predicate IsRun(ds: seq<Diagnostics>, es: seq<Event>) {
    && |ds| == |es| + 1 && ds[0] == Start()
    && forall i :: 0 <= i < |es| ==> Next(ds[i], es[i]) == Some(ds[i + 1])
  }

  lemma {:induction false} RunHolds(ds: seq<Diagnostics>, es: seq<Event>, n: nat)
    requires IsRun(ds, es) && n <= |es|
    ensures Inv(ds[n])
    decreases n
  {
    hide Next, Balanced, Conserved, Owned;
    if n == 0 {
      StartHolds();
    } else {
      RunHolds(ds, es, n - 1);
      assert Next(ds[n - 1], es[n - 1]) == Some(ds[n - 1 + 1]);
      OwnedKept(ds[n - 1], es[n - 1]);
      BalancedKept(ds[n - 1], es[n - 1]);
      ConservedKept(ds[n - 1], es[n - 1]);
    }
  }

  lemma StartHolds()
    ensures Inv(Start())
  {
    hide Inv;
    NothingYet(Start());
  }

  lemma NothingYet(d: Diagnostics)
    requires d.ledger == NOTHING
    requires d.timer == NoTimer && d.waitGroup == 0 && Running(d) == 0 && d.summary == multiset{} && d.reporters == [] && !d.waited
    ensures Inv(d)
  {
  }

  /** Both sums over the classes of drops count every drop. */
  lemma {:induction false} SumsOfParts(m: multiset<Drop>)
    ensures ByChannel(m) == ByKind(m) == |m|
    decreases |m|
  {
    hide ByChannel, ByKind;
    SameBothWays(m);
    if m == multiset{} {
      NoDrops();
    } else {
      var d :| d in m;
      var rest := m - multiset{d};
      assert m == rest + multiset{d};
      SumsOfParts(rest);
      OneMoreInAll(rest, d);
    }
  }

  lemma NoDrops()
    ensures ByChannel(multiset{}) == 0
  {
  }

  lemma OneMoreInAll(m: multiset<Drop>, d: Drop)
    ensures ByChannel(m + multiset{d}) == ByChannel(m) + 1
  {
    hide OfChannel;
    forall c ensures OfChannel(m + multiset{d}, c) == OfChannel(m, c) + if d.channel == c then 1 else 0 { OneMoreOfChannel(m, d, c); }
    match d.channel { case Email => case Dingtalk => case Feishu => case Slack => case Unknown => }
  }

  lemma SameBothWays(m: multiset<Drop>)
    ensures ByChannel(m) == ByKind(m)
  {
  }

  /** In every interleaving of drops, timer callbacks and stops: the wait group counts exactly the armed timer
      and the callbacks under way, so it never goes negative; every counted drop has been written, is about to
      be, is pending or was discarded, drop by drop; and in each of these places, as in the counters, channel
      sum and event sum agree. */
  lemma DiagnosticsBalance(ds: seq<Diagnostics>, es: seq<Event>)
    requires IsRun(ds, es)
    ensures var d := ds[|es|];
            && d.waitGroup == (if d.timer == Armed then 1 else 0) + Running(d) >= 0
            && d.ledger.written + d.ledger.held + multiset(d.ledger.pending) + d.ledger.discarded == d.ledger.dropped
            && ChannelSum(CountsOf(d.ledger.pending)) == KindSum(CountsOf(d.ledger.pending)) == |d.ledger.pending|
            && ByChannel(d.ledger.written) == ByKind(d.ledger.written) == |d.ledger.written|
            && ByChannel(d.ledger.held) == ByKind(d.ledger.held) == |d.ledger.held|
            && ByChannel(d.ledger.discarded) == ByKind(d.ledger.discarded) == |d.ledger.discarded|
  {
    hide Next, CountsOf, ByChannel, ByKind;
    RunHolds(ds, es, |es|);
    var l := ds[|es|].ledger;
    SumsAgree(l.pending);
    SumsOfParts(l.written);
    SumsOfParts(l.held);
    SumsOfParts(l.discarded);
  }

  /** Once the wait of a stop has returned no callback runs and none can start again. */
  lemma NothingRunsAfterStop(ds: seq<Diagnostics>, es: seq<Event>, n: nat)
    requires IsRun(ds, es) && n <= |es| && ds[n].waited
    ensures Running(ds[n]) == 0 && ds[n].timer == NoTimer
    ensures Next(ds[n], Fire).None? && Next(ds[n], Flush).None? && Next(ds[n], WroteSummary).None?
    ensures n < |es| ==> ds[n + 1].waited
  {
    RunHolds(ds, es, n);
    if n < |es| { assert Next(ds[n], es[n]) == Some(ds[n + 1]); }
  }

  // ------------------------------------------------------------------- the rate limit

  /** What a step does to a drop: it is counted if the limiter is open, and discarded only by a stop while it
      is pending. */
  lemma DropsAreBooked(d: Diagnostics, e: Event)
    requires Next(d, e).Some?
    ensures var (l, m) := (d.ledger, Next(d, e).value.ledger);
            && m.dropped == (if e.Dropped? && !d.closed then l.dropped + multiset{e.drop} else l.dropped)
            && m.discarded == (if e == StopStep then l.discarded + multiset(l.pending) else l.discarded)
  {
    hide Sum, Accounted, Shared;
  }

  lemma LinesAreWritten(d: Diagnostics, e: Event)
    requires Next(d, e).Some? && (e == WroteFirst || e == WroteSummary)
    ensures Next(d, e).value.ledger.written == d.ledger.written + if e == WroteFirst then FirstOf(d.reporters) else d.summary
  {
    hide Sum;
  }

  function FirstOf(ms: seq<multiset<Drop>>): multiset<Drop> { if ms == [] then multiset{} else ms[0] }

  /** A step with which a log line is taken on, as a first drop or as a summary. */
  predicate TakesLine(d: Diagnostics, t: Diagnostics) { |t.reporters| > |d.reporters| || t.writing > d.writing }

  predicate OpensWindow(d: Diagnostics, t: Diagnostics) { d.timer != Armed && t.timer == Armed }

  function Lines(ds: seq<Diagnostics>, n: nat): nat
    requires n < |ds|
  {
    if n == 0 then 0 else Lines(ds, n - 1) + if TakesLine(ds[n - 1], ds[n]) then 1 else 0
  }

  function Windows(ds: seq<Diagnostics>, n: nat): nat
    requires n < |ds|
  {
    if n == 0 then 0 else Windows(ds, n - 1) + if OpensWindow(ds[n - 1], ds[n]) then 1 else 0
  }

  lemma LineStep(d: Diagnostics, e: Event)
    requires Owned(d) && Next(d, e).Some?
    ensures var t := Next(d, e).value;
            && (d.closed ==> t.closed && !TakesLine(d, t) && !OpensWindow(d, t))
            && (!d.closed && t.closed ==> !TakesLine(d, t) && !OpensWindow(d, t))
            && (!t.closed ==> d.writing + (if TakesLine(d, t) then 1 else 0) == t.writing + if OpensWindow(d, t) then 1 else 0)
  {
    hide Sum, Noted, TakenOut, Wrote, Discarded;
  }

  /** However many notifications are dropped, there is at most one line more than there are windows of the
      timer; and no drop is pending without a window that will report it. */
  lemma {:induction false} LinesAreLimited(ds: seq<Diagnostics>, es: seq<Event>, n: nat)
    requires IsRun(ds, es) && n <= |es|
    ensures Lines(ds, n) <= Windows(ds, n) + 1
    ensures !ds[n].closed ==> Lines(ds, n) == Windows(ds, n) + ds[n].writing
    ensures ds[n].ledger.pending != [] ==> ds[n].timer != NoTimer
    decreases n
  {
    hide Next, Balanced, Conserved, TakesLine, OpensWindow;
    RunHolds(ds, es, n);
    if n > 0 {
      LinesAreLimited(ds, es, n - 1);
      RunHolds(ds, es, n - 1);
      assert Next(ds[n - 1], es[n - 1]) == Some(ds[n - 1 + 1]);
      LineStep(ds[n - 1], es[n - 1]);
    }
  }
}
