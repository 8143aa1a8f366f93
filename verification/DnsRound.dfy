/** The circuit breaker of dns/circuitbreaker.go and the one-prober protocol that all targets of a round
    share (syncer/dns_round.go). Counts are kept per host key. */
module DnsRound {
  import opened Text
  import opened Resolution

  // ---------------------------------------------------------------------- the breaker

  function CountOf(counts: map<string, nat>, key: string): nat { if key in counts then counts[key] else 0 }

  predicate IsOpenAt(counts: map<string, nat>, threshold: int, key: string) { CountOf(counts, key) >= threshold }

  function Succeeded(counts: map<string, nat>, key: string): map<string, nat> { counts - {key} }

  function Failed(counts: map<string, nat>, threshold: int, key: string): map<string, nat> {
    if IsOpenAt(counts, threshold, key) then counts else counts[key := CountOf(counts, key) + 1]
  }

  /** A host key is its own key: recording under a key or under a host that has it is the same. */
  lemma KeyOfKey(host: string)
    ensures HostKey(HostKey(host)) == HostKey(host)
  {
    FoldedIsFixed(host);
  }

  class CircuitBreaker {
    var failCount: map<string, nat>
    var threshold: int

    constructor (threshold: int)
      ensures failCount == map[] && this.threshold == threshold
    {
      failCount, this.threshold := map[], threshold;
    }

    /** A threshold that is not positive is ignored; counts are kept. */
    method SetThreshold(threshold: int)
      modifies this`threshold
      ensures this.threshold == if threshold <= 0 then old(this.threshold) else threshold
    {
      if threshold <= 0 {
        return;
      }
      this.threshold := threshold;
    }

    function IsOpen(domain: string): bool
      reads this
    {
      IsOpenAt(failCount, threshold, HostKey(domain))
    }

    method RecordSuccess(domain: string)
      modifies this`failCount
      ensures failCount == Succeeded(old(failCount), HostKey(domain))
    {
      failCount := failCount - {HostKey(domain)};
    }

    method RecordFailure(domain: string)
      modifies this`failCount
      ensures failCount == Failed(old(failCount), threshold, HostKey(domain))
    {
      var key := HostKey(domain);
      if CountOf(failCount, key) >= threshold {
        return;
      }
      failCount := failCount[key := CountOf(failCount, key) + 1];
    }

    /** A copy for a new configuration: only its hosts, only positive counts, and no sharing. */
    method CloneForDomains(domains: seq<string>) returns (copy: CircuitBreaker)
      ensures fresh(copy) && copy.threshold == threshold
      ensures forall key :: CountOf(copy.failCount, key) ==
                if exists d :: d in domains && HostKey(d) == key then CountOf(failCount, key) else 0
      ensures forall key :: key in copy.failCount ==> copy.failCount[key] > 0
    {
      hide HostKey;
      var kept: map<string, nat> := map[];
      for i := 0 to |domains|
        invariant forall key :: key in kept ==> kept[key] > 0 && kept[key] == CountOf(failCount, key)
        invariant forall key :: key in kept ==> exists d :: d in domains[..i] && HostKey(d) == key
        invariant forall j :: 0 <= j < i ==> CountOf(kept, HostKey(domains[j])) == CountOf(failCount, HostKey(domains[j]))
      {
        var key := HostKey(domains[i]);
        assert domains[i] in domains[..i + 1] && forall d :: d in domains[..i] ==> d in domains[..i + 1];
        if CountOf(failCount, key) > 0 {
          kept := kept[key := CountOf(failCount, key)];
        }
      }
      copy := new CircuitBreaker(threshold);
      copy.failCount := kept;
      assert domains[..|domains|] == domains;
    }
  }

  // ------------------------------------------------------------------------ the round

  /** How far the one probe of an open host is; a finished probe keeps whether it failed. */
  datatype Probe = NotProbed | Probing | Probed(failed: bool)

  /** A host of the round. `wasOpen`, `before` and `calls` are history: whether it was open when the round
      began, its count then, and how often it was really resolved. */
  datatype Host = Host(open: bool, probe: Probe, attempted: bool, success: bool, wasOpen: bool, before: nat, calls: nat)

  /** What one target's goroutine is doing. */
  datatype Task = Free | Waiting(host: string) | Resolving(host: string, probe: bool)

  datatype Round = Round(hosts: map<string, Host>, tasks: seq<Task>, counts: map<string, nat>, threshold: int)

  datatype Event =
    | Call(task: nat, host: string)   // resolve: a target asks for a host
    | Wake(task: nat)                 // a waiter sees the probe finished
    | Return(task: nat, ok: bool)     // run: the network answered

  function NewHost(counts: map<string, nat>, threshold: int, key: string): Host {
    Host(IsOpenAt(counts, threshold, key), NotProbed, false, false, IsOpenAt(counts, threshold, key), CountOf(counts, key), 0)
  }

  function Started(h: Host): Host { h.(calls := h.calls + 1) }

  function Answered(h: Host, probe: bool, ok: bool): Host {
    h.(attempted := true, success := h.success || ok,
       probe := if probe then Probed(!ok) else h.probe,
       open := h.open && !(probe && ok))
  }

  function Enter(r: Round, i: nat, task: Task, key: string, h: Host): Round
    requires i < |r.tasks|
  {
    r.(tasks := r.tasks[i := task], hosts := r.hosts[key := h])
  }

  /** One locked step of one target. */
  function Next(r: Round, e: Event): Option<Round> {
    if e.task >= |r.tasks| then None
    else
      var (i, t) := (e.task, r.tasks[e.task]);
      match e
      case Call(_, key) =>
        if t != Free || key !in r.hosts then None
        else
          var h := r.hosts[key];
          if !h.open then Some(Enter(r, i, Resolving(key, false), key, Started(h)))
          else if h.probe == NotProbed then Some(Enter(r, i, Resolving(key, true), key, Started(h).(probe := Probing)))
          else Some(Enter(r, i, Waiting(key), key, h))
      case Wake(_) =>
        if !t.Waiting? || t.host !in r.hosts then None
        else
          var h := r.hosts[t.host];
          if !h.probe.Probed? then None
          else if h.probe.failed then Some(Enter(r, i, Free, t.host, h))
          else Some(Enter(r, i, Resolving(t.host, false), t.host, Started(h)))
      case Return(_, ok) =>
        if !t.Resolving? || t.host !in r.hosts then None
        else
          Some(Enter(r, i, Free, t.host, Answered(r.hosts[t.host], t.probe, ok))
               .(counts := if ok then Succeeded(r.counts, t.host) else r.counts))
  }

  // ---------------------------------------------------------------------- invariants

  predicate Prober(t: Task, key: string) { t == Resolving(key, true) }

  /** One host, given how many probers it has. */
  predicate HostOK(h: Host) {
    && (h.wasOpen && h.probe == NotProbed ==> h.open && h.calls == 0 && !h.attempted)
    && (h.wasOpen && h.probe == Probing ==> h.open && h.calls == 1 && !h.attempted && !h.success)
    && (h.wasOpen && h.probe == Probed(true) ==> h.open && h.calls == 1 && h.attempted && !h.success)
    && (h.wasOpen && h.probe == Probed(false) ==> !h.open && h.attempted && h.success)
    && (!h.wasOpen ==> !h.open && h.probe == NotProbed)
    && (h.success ==> h.attempted)
  }

  ghost predicate TaskOK(r: Round, t: Task) {
    match t
    case Free => true
    case Waiting(key) => key in r.hosts && r.hosts[key].probe != NotProbed
    case Resolving(key, probe) =>
      key in r.hosts && (if probe then r.hosts[key].probe == Probing
                         else !r.hosts[key].wasOpen || r.hosts[key].probe == Probed(false))
  }

  /** A probe in progress belongs to exactly one target. */
  ghost predicate ProbersOK(r: Round) {
    && (forall key :: key in r.hosts && r.hosts[key].probe == Probing ==> exists i :: 0 <= i < |r.tasks| && Prober(r.tasks[i], key))
    && (forall i, j, key :: 0 <= i < j < |r.tasks| && Prober(r.tasks[i], key) ==> !Prober(r.tasks[j], key))
  }

  /** Counts: gone after a success, untouched before the end of the round otherwise. */
  ghost predicate CountsOK(r: Round) {
    forall key :: key in r.hosts ==> CountOf(r.counts, key) == if r.hosts[key].success then 0 else r.hosts[key].before
  }

  ghost predicate OpenOK(r: Round) {
    forall key :: key in r.hosts ==> HostOK(r.hosts[key]) && (r.hosts[key].wasOpen <==> r.hosts[key].before >= r.threshold)
  }

  ghost predicate Inv(r: Round) {
    OpenOK(r) && CountsOK(r) && ProbersOK(r) && forall i :: 0 <= i < |r.tasks| ==> TaskOK(r, r.tasks[i])
  }

  function Begin(keys: set<string>, tasks: nat, counts: map<string, nat>, threshold: int): Round {
    Round(map key | key in keys :: NewHost(counts, threshold, key), seq(tasks, _ => Free), counts, threshold)
  }

  lemma BeginHolds(keys: set<string>, tasks: nat, counts: map<string, nat>, threshold: int)
    ensures Inv(Begin(keys, tasks, counts, threshold))
  {
  }

  lemma HostStep(r: Round, e: Event)
    requires Inv(r) && Next(r, e).Some?
    ensures OpenOK(Next(r, e).value)
  {
    hide ProbersOK, CountsOK, Succeeded;
    assert TaskOK(r, r.tasks[e.task]);
  }

  lemma CountStep(r: Round, e: Event)
    requires CountsOK(r) && Next(r, e).Some?
    ensures CountsOK(Next(r, e).value)
  {
  }

  lemma ProberStep(r: Round, e: Event)
    requires Inv(r) && Next(r, e).Some?
    ensures ProbersOK(Next(r, e).value)
  {
    hide OpenOK, CountsOK, Succeeded;
    assert TaskOK(r, r.tasks[e.task]);
    var n := Next(r, e).value;
    forall key | key in n.hosts && n.hosts[key].probe == Probing ensures exists i :: 0 <= i < |n.tasks| && Prober(n.tasks[i], key) {
      if r.hosts[key].probe == Probing {
        var w :| 0 <= w < |r.tasks| && Prober(r.tasks[w], key);
        assert w != e.task && n.tasks[w] == r.tasks[w];
      } else {
        assert Prober(n.tasks[e.task], key);
      }
    }
    forall i, j, key | 0 <= i < j < |n.tasks| && Prober(n.tasks[i], key) ensures !Prober(n.tasks[j], key) {
      assert TaskOK(r, r.tasks[i]) && TaskOK(r, r.tasks[j]);
    }
  }

  lemma TaskStep(r: Round, e: Event)
    requires Inv(r) && Next(r, e).Some?
    ensures forall i :: 0 <= i < |Next(r, e).value.tasks| ==> TaskOK(Next(r, e).value, Next(r, e).value.tasks[i])
  {
    hide CountsOK, Succeeded;
    assert TaskOK(r, r.tasks[e.task]);
  }

  lemma StepKeepsInv(r: Round, e: Event)
    requires Inv(r) && Next(r, e).Some?
    ensures Inv(Next(r, e).value)
  {
    hide Next, OpenOK, CountsOK, ProbersOK, TaskOK;
    HostStep(r, e);
    CountStep(r, e);
    ProberStep(r, e);
    TaskStep(r, e);
  }

  // -------------------------------------------------------------------- the end of a round

  /** What `finish` does to one host. */
  function Finished(counts: map<string, nat>, threshold: int, key: string, h: Host): map<string, nat> {
    if h.attempted && !h.success then Failed(counts, threshold, key) else counts
  }

  /** The count a host ends a round with: cleared by any success, one more for a failed round below the
      threshold, otherwise as before. */
  function FinalCount(h: Host, threshold: int): nat {
    if h.success then 0 else if h.attempted && h.before < threshold then h.before + 1 else h.before
  }

  /** `finish`: one failure for every host that was tried in vain, in any order. */
  method FinishRound(r: Round) returns (counts: map<string, nat>)
    requires Inv(r)
    ensures forall key :: key in r.hosts ==> CountOf(counts, key) == FinalCount(r.hosts[key], r.threshold)
    ensures forall key :: key !in r.hosts ==> CountOf(counts, key) == CountOf(r.counts, key)
  {
    hide ProbersOK, TaskOK, HostOK;
    counts := r.counts;
    var left := r.hosts.Keys;
    while left != {}
      invariant left <= r.hosts.Keys
      invariant forall key :: key in left || key !in r.hosts ==> CountOf(counts, key) == CountOf(r.counts, key)
      invariant forall key :: key in r.hosts && key !in left ==> CountOf(counts, key) == FinalCount(r.hosts[key], r.threshold)
      decreases |left|
    {
      var key :| key in left;
      assert r.hosts[key].success ==> r.hosts[key].attempted by { SuccessWasTried(r, key); }
      counts := Finished(counts, r.threshold, key, r.hosts[key]);
      left := left - {key};
    }
  }

  lemma SuccessWasTried(r: Round, key: string)
    requires Inv(r) && key in r.hosts
    ensures r.hosts[key].success ==> r.hosts[key].attempted
  {
  }

  // ------------------------------------------------------------------------- whole rounds

  ghost predicate IsRun(rs: seq<Round>, es: seq<Event>, keys: set<string>, counts: map<string, nat>, threshold: int) {
    && |rs| == |es| + 1 && (exists tasks: nat :: rs[0] == Begin(keys, tasks, counts, threshold))
    && forall i :: 0 <= i < |es| ==> Next(rs[i], es[i]) == Some(rs[i + 1])
  }

  /** The outcome of the schedule as far as a host is concerned: whether any resolution of it succeeded, and
      whether any was made. */
  ghost predicate AnyReturn(rs: seq<Round>, es: seq<Event>, key: string, ok: bool)
    requires |rs| == |es| + 1
  {
    exists i :: 0 <= i < |es| && ReturnOf(rs[i], es[i], key) == Some(ok)
  }

  function ReturnOf(r: Round, e: Event, key: string): Option<bool> {
    if e.Return? && e.task < |r.tasks| && r.tasks[e.task].Resolving? && r.tasks[e.task].host == key then Some(e.ok) else None
  }

  lemma ReturnCounts(r: Round, e: Event, key: string)
    requires Inv(r) && Next(r, e).Some? && key in r.hosts
    ensures var (h, n) := (r.hosts[key], Next(r, e).value);
            && key in n.hosts && n.threshold == r.threshold && n.hosts.Keys == r.hosts.Keys
            && n.hosts[key].before == h.before && n.hosts[key].wasOpen == h.wasOpen
            && n.hosts[key].success == (h.success || ReturnOf(r, e, key) == Some(true))
            && n.hosts[key].attempted == (h.attempted || ReturnOf(r, e, key).Some?)
  {
    hide ProbersOK, CountsOK, OpenOK, Succeeded;
    assert TaskOK(r, r.tasks[e.task]);
  }

  lemma {:induction false} RunHolds(rs: seq<Round>, es: seq<Event>, keys: set<string>, counts: map<string, nat>, threshold: int, n: nat)
    requires IsRun(rs, es, keys, counts, threshold) && n <= |es|
    ensures Inv(rs[n]) && rs[n].hosts.Keys == keys && rs[n].threshold == threshold
    decreases n
  {
    hide Next, Inv, Begin;
    if n == 0 {
      var tasks: nat :| rs[0] == Begin(keys, tasks, counts, threshold);
      BeginHolds(keys, tasks, counts, threshold);
      BeginHosts(keys, tasks, counts, threshold);
    } else {
      RunHolds(rs, es, keys, counts, threshold, n - 1);
      assert Next(rs[n - 1], es[n - 1]) == Some(rs[n - 1 + 1]);
      StepKeepsInv(rs[n - 1], es[n - 1]);
      HostsStay(rs[n - 1], es[n - 1]);
    }
  }

  lemma BeginHosts(keys: set<string>, tasks: nat, counts: map<string, nat>, threshold: int)
    ensures var r := Begin(keys, tasks, counts, threshold);
            r.hosts.Keys == keys && r.threshold == threshold
            && forall key :: key in keys ==> r.hosts[key].before == CountOf(counts, key) && !r.hosts[key].success && !r.hosts[key].attempted
  {
  }

  lemma HostsStay(r: Round, e: Event)
    requires Next(r, e).Some?
    ensures Next(r, e).value.hosts.Keys == r.hosts.Keys && Next(r, e).value.threshold == r.threshold
  {
    hide Succeeded, Started, Answered;
  }

  lemma {:induction false} HistoryOfHost(rs: seq<Round>, es: seq<Event>, keys: set<string>, counts: map<string, nat>, threshold: int,
                                         n: nat, key: string)
    requires IsRun(rs, es, keys, counts, threshold) && n <= |es| && key in keys
    ensures key in rs[n].hosts && rs[n].hosts[key].before == CountOf(counts, key)
    ensures rs[n].hosts[key].success <==> AnyReturn(rs[..n + 1], es[..n], key, true)
    ensures rs[n].hosts[key].attempted <==> AnyReturn(rs[..n + 1], es[..n], key, true) || AnyReturn(rs[..n + 1], es[..n], key, false)
    decreases n
  {
    hide Next, Inv, Begin, ReturnOf;
    if n == 0 {
      var tasks: nat :| rs[0] == Begin(keys, tasks, counts, threshold);
      BeginHosts(keys, tasks, counts, threshold);
    } else {
      RunHolds(rs, es, keys, counts, threshold, n - 1);
      HistoryOfHost(rs, es, keys, counts, threshold, n - 1, key);
      assert Next(rs[n - 1], es[n - 1]) == Some(rs[n - 1 + 1]);
      ReturnCounts(rs[n - 1], es[n - 1], key);
      var o := ReturnOf(rs[n - 1], es[n - 1], key);
      BothAnswers(o);
      OneMoreReturn(rs, es, n, key, true);
      OneMoreReturn(rs, es, n, key, false);
    }
  }

  lemma BothAnswers(o: Option<bool>)
    ensures o.Some? <==> o == Some(true) || o == Some(false)
  {
    match o
    case None =>
    case Some(b) => if b { assert o == Some(true); } else { assert o == Some(false); }
  }

  lemma OneMoreReturn(rs: seq<Round>, es: seq<Event>, n: nat, key: string, ok: bool)
    requires |rs| == |es| + 1 && 0 < n <= |es|
    ensures AnyReturn(rs[..n + 1], es[..n], key, ok)
            <==> AnyReturn(rs[..n], es[..n - 1], key, ok) || ReturnOf(rs[n - 1], es[n - 1], key) == Some(ok)
  {
    hide ReturnOf;
    var (a, b) := (rs[..n + 1], es[..n]);
    if AnyReturn(a, b, key, ok) {
      var i :| 0 <= i < |b| && ReturnOf(a[i], b[i], key) == Some(ok);
      if i < n - 1 { assert ReturnOf(rs[..n][i], es[..n - 1][i], key) == Some(ok); }
    }
    if AnyReturn(rs[..n], es[..n - 1], key, ok) {
      var i :| 0 <= i < n - 1 && ReturnOf(rs[..n][i], es[..n - 1][i], key) == Some(ok);
      assert ReturnOf(a[i], b[i], key) == Some(ok);
    }
    if ReturnOf(rs[n - 1], es[n - 1], key) == Some(ok) { assert ReturnOf(a[n - 1], b[n - 1], key) == Some(ok); }
  }

  /** The count after a round does not depend on the schedule, only on what the resolutions of the host
      brought: 0 if any succeeded, one more if some were made, none succeeded and the host was below the
      threshold, otherwise what it was. */
  lemma CountIsScheduleIndependent(rs: seq<Round>, es: seq<Event>, keys: set<string>, counts: map<string, nat>, threshold: int, key: string)
    requires IsRun(rs, es, keys, counts, threshold) && key in keys
    ensures var old_ := CountOf(counts, key);
            key in rs[|es|].hosts &&
            FinalCount(rs[|es|].hosts[key], threshold)
            == if AnyReturn(rs, es, key, true) then 0
               else if AnyReturn(rs, es, key, false) && old_ < threshold then old_ + 1 else old_
  {
    hide Next, Inv, Begin, ReturnOf, AnyReturn, IsRun;
    HistoryOfHost(rs, es, keys, counts, threshold, |es|, key);
    assert |rs| == |es| + 1 by { RunLength(rs, es, keys, counts, threshold); }
    assert rs[..|es| + 1] == rs && es[..|es|] == es;
  }

  lemma RunLength(rs: seq<Round>, es: seq<Event>, keys: set<string>, counts: map<string, nat>, threshold: int)
    requires IsRun(rs, es, keys, counts, threshold)
    ensures |rs| == |es| + 1
  {
  }

  /** A host that was open when the round began is really resolved at most once, unless that one probe
      succeeds and closes the breaker; and nobody ever waits for a probe that is not under way or over. */
  lemma OneProbePerOpenHost(rs: seq<Round>, es: seq<Event>, keys: set<string>, counts: map<string, nat>, threshold: int, key: string)
    requires IsRun(rs, es, keys, counts, threshold) && key in keys && CountOf(counts, key) >= threshold
    ensures var r := rs[|es|];
            && key in r.hosts && (r.hosts[key].calls <= 1 || (r.hosts[key].probe == Probed(false) && r.hosts[key].success && !r.hosts[key].open))
            && forall i :: 0 <= i < |r.tasks| && r.tasks[i] == Waiting(key)
                 ==> r.hosts[key].probe.Probed? || exists j :: 0 <= j < |r.tasks| && Prober(r.tasks[j], key)
  {
    hide Next, Begin, CountsOK;
    RunHolds(rs, es, keys, counts, threshold, |es|);
    HistoryOfHost(rs, es, keys, counts, threshold, |es|, key);
    var r := rs[|es|];
    assert HostOK(r.hosts[key]);
    forall i | 0 <= i < |r.tasks| && r.tasks[i] == Waiting(key)
      ensures r.hosts[key].probe.Probed? || exists j :: 0 <= j < |r.tasks| && Prober(r.tasks[j], key)
    {
      assert TaskOK(r, r.tasks[i]);
    }
  }

  // ------------------------------------------------------------------- every call is answered

  predicate OnHost(t: Task, key: string) { !t.Free? && t.host == key }

  /** How many targets wait for the host or resolve it. */
  function Busy(tasks: seq<Task>, key: string): nat {
    if tasks == [] then 0 else Busy(tasks[..|tasks| - 1], key) + if OnHost(tasks[|tasks| - 1], key) then 1 else 0
  }

  lemma {:induction false} BusyUpdate(tasks: seq<Task>, i: nat, t: Task, key: string)
    requires i < |tasks|
    ensures Busy(tasks[i := t], key) + (if OnHost(tasks[i], key) then 1 else 0) == Busy(tasks, key) + if OnHost(t, key) then 1 else 0
  {
    hide OnHost;
    var last := |tasks| - 1;
    if i < last {
      BusyUpdate(tasks[..last], i, t, key);
      assert tasks[i := t][..last] == tasks[..last][i := t];
    } else {
      assert tasks[i := t][..last] == tasks[..last];
    }
  }

  /** What a step means for the calls for a host: one is made, one ends with an answer of the network, or one
      is turned away because the probe it waited for failed. */
  datatype Fate = Called | Served | TurnedAway

  predicate Befalls(f: Fate, r: Round, e: Event, key: string) {
    match f
    case Called => e.Call? && e.host == key
    case Served => ReturnOf(r, e, key).Some?
    case TurnedAway =>
      e.Wake? && e.task < |r.tasks| && r.tasks[e.task] == Waiting(key) && key in r.hosts && r.hosts[key].probe == Probed(true)
  }

  function Number(f: Fate, rs: seq<Round>, es: seq<Event>, key: string, n: nat): nat
    requires |rs| == |es| + 1 && n <= |es|
  {
    if n == 0 then 0 else Number(f, rs, es, key, n - 1) + if Befalls(f, rs[n - 1], es[n - 1], key) then 1 else 0
  }

  lemma CallStep(r: Round, e: Event, key: string)
    requires Next(r, e).Some?
    ensures Busy(r.tasks, key) + (if Befalls(Called, r, e, key) then 1 else 0)
            == Busy(Next(r, e).value.tasks, key) + (if Befalls(Served, r, e, key) then 1 else 0)
               + if Befalls(TurnedAway, r, e, key) then 1 else 0
  {
    hide Busy, Succeeded, Answered, Started;
    BusyUpdate(r.tasks, e.task, Next(r, e).value.tasks[e.task], key);
  }

  lemma {:induction false} NobodyBusy(n: nat, key: string)
    ensures Busy(seq(n, _ => Free), key) == 0
  {
    if n > 0 {
      NobodyBusy(n - 1, key);
      assert seq(n, _ => Free)[..n - 1] == seq(n - 1, _ => Free);
    }
  }

  /** Every call for a host is answered by the network, turned away by a failed probe, or still under way; and
      nobody is turned away from a host whose breaker was closed when the round began. */
  lemma {:induction false} EveryCallIsAnswered(rs: seq<Round>, es: seq<Event>, keys: set<string>, counts: map<string, nat>, threshold: int,
                                               key: string, n: nat)
    requires IsRun(rs, es, keys, counts, threshold) && key in keys && n <= |es|
    ensures Number(Called, rs, es, key, n)
            == Number(Served, rs, es, key, n) + Number(TurnedAway, rs, es, key, n) + Busy(rs[n].tasks, key)
    ensures CountOf(counts, key) < threshold ==> Number(TurnedAway, rs, es, key, n) == 0
    decreases n
  {
    hide Next, Busy, Inv, HostOK, ReturnOf, AnyReturn;
    if n == 0 {
      var tasks: nat :| rs[0] == Begin(keys, tasks, counts, threshold);
      NobodyBusy(tasks, key);
    } else {
      EveryCallIsAnswered(rs, es, keys, counts, threshold, key, n - 1);
      assert Next(rs[n - 1], es[n - 1]) == Some(rs[n - 1 + 1]);
      CallStep(rs[n - 1], es[n - 1], key);
      if CountOf(counts, key) < threshold {
        RunHolds(rs, es, keys, counts, threshold, n - 1);
        HistoryOfHost(rs, es, keys, counts, threshold, n - 1, key);
        ClosedIsNotProbed(rs[n - 1], key);
      }
    }
  }

  lemma ClosedIsNotProbed(r: Round, key: string)
    requires Inv(r) && key in r.hosts && r.hosts[key].before < r.threshold
    ensures r.hosts[key].probe == NotProbed
  {
    assert HostOK(r.hosts[key]);
  }
}
