/** The event bus of notifier/bus.go: subscriber tables edited in place, and the drain that freezes ordinary
    callbacks and waits for those already admitted. */
module Bus {
  import opened Text

  // ----------------------------------------------------------------------- the tables

  /** The list without the first occurrence of `x`. */
  function Without<T(==)>(xs: seq<T>, x: T): seq<T> {
    if xs == [] then [] else if xs[0] == x then xs[1..] else [xs[0]] + Without(xs[1..], x)
  }

  lemma {:induction false} WithoutAt<T>(xs: seq<T>, x: T, i: nat)
    requires i < |xs| && xs[i] == x && forall j :: 0 <= j < i ==> xs[j] != x
    ensures Without(xs, x) == xs[..i] + xs[i + 1..]
  {
    if i > 0 {
      WithoutAt(xs[1..], x, i - 1);
      assert xs[..i] == [xs[0]] + xs[1..][..i - 1];
      assert xs[1..][i..] == xs[i + 1..];
    }
  }

  lemma {:induction false} WithoutAbsent<T>(xs: seq<T>, x: T)
    requires x !in xs
    ensures Without(xs, x) == xs
  {
    if xs != [] { WithoutAbsent(xs[1..], x); }
  }

  /** Unsubscribing takes out one registration and leaves every other one, in order. */
  lemma {:induction false} WithoutCounts<T>(xs: seq<T>, x: T, y: T)
    ensures multiset(Without(xs, x))[y] == multiset(xs)[y] - if x == y && x in xs then 1 else 0
  {
    if xs != [] {
      assert xs == [xs[0]] + xs[1..];
      if xs[0] != x {
        WithoutCounts(xs[1..], x, y);
      }
    }
  }

  type EventType = string
  type Subscriber = int

  function SubscribersOf(table: map<EventType, seq<Subscriber>>, t: EventType): seq<Subscriber> {
    if t in table then table[t] else []
  }

  class EventBus {
    var subscribers: map<EventType, seq<Subscriber>>
    var chanSubs: set<int>
    var nextID: int
    var callbacksStopped: bool
    var callbackWG: nat

    ghost predicate Valid()
      reads this
    {
      forall id :: id in chanSubs ==> id < nextID
    }

    constructor ()
      ensures Valid() && subscribers == map[] && chanSubs == {} && !callbacksStopped && callbackWG == 0
    {
      subscribers, chanSubs, nextID, callbacksStopped, callbackWG := map[], {}, 0, false, 0;
    }

    method Subscribe(t: EventType, sub: Subscriber)
      requires Valid()
      modifies this`subscribers
      ensures Valid()
      ensures forall u :: SubscribersOf(subscribers, u) == SubscribersOf(old(subscribers), u) + if u == t then [sub] else []
    {
      subscribers := subscribers[t := SubscribersOf(subscribers, t) + [sub]];
    }

    /** Takes out the first registration of `sub`; unknown ones are left alone. */
    method Unsubscribe(t: EventType, sub: Subscriber)
      requires Valid()
      modifies this`subscribers
      ensures Valid() && SubscribersOf(subscribers, t) == Without(SubscribersOf(old(subscribers), t), sub)
      ensures forall u :: u != t ==> SubscribersOf(subscribers, u) == SubscribersOf(old(subscribers), u)
    {
      var subs := SubscribersOf(subscribers, t);
      for i := 0 to |subs|
        invariant subscribers == old(subscribers)
        invariant forall j :: 0 <= j < i ==> subs[j] != sub
      {
        if subs[i] == sub {
          WithoutAt(subs, sub, i);
          subscribers := subscribers[t := subs[..i] + subs[i + 1..]];
          return;
        }
      }
      WithoutAbsent(subs, sub);
    }

    /** A channel subscription under an ID never used before. */
    method SubscribeChan() returns (id: int)
      requires Valid()
      modifies this`chanSubs, this`nextID
      ensures Valid() && id !in old(chanSubs) && chanSubs == old(chanSubs) + {id} && id == old(nextID) < nextID
    {
      id := nextID;
      nextID := nextID + 1;
      chanSubs := chanSubs + {id};
    }

    /** Cancels it, once or again; the channel itself is never closed. */
    method CancelChan(id: int)
      requires Valid()
      modifies this`chanSubs
      ensures Valid() && chanSubs == old(chanSubs) - {id}
    {
      chanSubs := chanSubs - {id};
    }

    /** The locked part of `Publish`: whom to call back, registered before the lock is left. */
    method Admit(t: EventType) returns (subs: seq<Subscriber>)
      requires Valid()
      modifies this`callbackWG
      ensures Valid() && subs == if callbacksStopped then [] else SubscribersOf(subscribers, t)
      ensures callbackWG == old(callbackWG) + |subs|
    {
      subs := SubscribersOf(subscribers, t);
      if callbacksStopped {
        subs := [];
      }
      callbackWG := callbackWG + |subs|;
    }
  }

  // ------------------------------------------------------------------------- the drain

  /** Callbacks admitted but not started, running, and the drains that are waiting or have returned. */
  datatype Drain = Drain(stopped: bool, waitGroup: int, admitted: nat, running: nat, waiting: nat, returned: nat)

  datatype Event =
    | Publish(subscribers: nat)  // the locked part
    | StartCallback | EndCallback
    | Freeze                     // DrainSubscribers: the locked part
    | WaitReturns                // DrainSubscribers: the wait ends

  function Start(): Drain { Drain(false, 0, 0, 0, 0, 0) }

  function Next(d: Drain, e: Event): Option<Drain> {
    match e
    case Publish(n) =>
      Some(if d.stopped then d else d.(waitGroup := d.waitGroup + n, admitted := d.admitted + n))
    case StartCallback => if d.admitted == 0 then None else Some(d.(admitted := d.admitted - 1, running := d.running + 1))
    case EndCallback => if d.running == 0 then None else Some(d.(running := d.running - 1, waitGroup := d.waitGroup - 1))
    case Freeze => Some(d.(stopped := true, waiting := d.waiting + 1))
    case WaitReturns =>
      if d.waiting == 0 || d.waitGroup != 0 then None else Some(d.(waiting := d.waiting - 1, returned := d.returned + 1))
  }

  predicate Inv(d: Drain) {
    && d.waitGroup == d.admitted + d.running
    && (d.waiting > 0 || d.returned > 0 ==> d.stopped)
    && (d.returned > 0 ==> d.waitGroup == 0)
  }

  ghost predicate IsRun(ds: seq<Drain>, es: seq<Event>) {
    && |ds| == |es| + 1 && ds[0] == Start()
    && forall i :: 0 <= i < |es| ==> Next(ds[i], es[i]) == Some(ds[i + 1])
  }

  lemma {:induction false} RunHolds(ds: seq<Drain>, es: seq<Event>, n: nat)
    requires IsRun(ds, es) && n <= |es|
    ensures Inv(ds[n])
    decreases n
  {
    if n > 0 {
      RunHolds(ds, es, n - 1);
      assert Next(ds[n - 1], es[n - 1]) == Some(ds[n - 1 + 1]);
    }
  }

  /** After any drain has returned no subscriber callback runs, none is left to start, and none is ever
      admitted again, whatever is published afterwards. */
  lemma {:induction false} DrainIsFinal(ds: seq<Drain>, es: seq<Event>, i: nat, j: nat)
    requires IsRun(ds, es) && i <= j <= |es| && ds[i].returned > 0
    ensures ds[j].admitted == 0 && ds[j].running == 0 && ds[j].returned > 0
    decreases j
  {
    RunHolds(ds, es, j);
    if i < j {
      DrainIsFinal(ds, es, i, j - 1);
      assert Next(ds[j - 1], es[j - 1]) == Some(ds[j - 1 + 1]);
    }
  }

  /** The callbacks that the first `n` publications owe: those of every subscriber, until the freeze. */
  function Owed(ds: seq<Drain>, es: seq<Event>, n: nat): nat
    requires |ds| == |es| + 1 && n <= |es|
  {
    if n == 0 then 0
    else Owed(ds, es, n - 1) + if es[n - 1].Publish? && Freeze !in es[..n - 1] then es[n - 1].subscribers else 0
  }

  function Ended(es: seq<Event>): nat {
    if es == [] then 0 else Ended(es[..|es| - 1]) + if es[|es| - 1] == EndCallback then 1 else 0
  }

  lemma StepOwes(d: Drain, e: Event)
    requires Next(d, e).Some?
    ensures var t := Next(d, e).value;
            && t.stopped == (d.stopped || e == Freeze)
            && d.admitted + d.running + (if e.Publish? && !d.stopped then e.subscribers else 0)
               == t.admitted + t.running + if e == EndCallback then 1 else 0
  {
  }

  /** Every callback owed is still to start, running, or has ended; after a drain has returned all of them have
      ended. */
  lemma {:induction false} EveryCallbackRuns(ds: seq<Drain>, es: seq<Event>, n: nat)
    requires IsRun(ds, es) && n <= |es|
    ensures ds[n].stopped <==> Freeze in es[..n]
    ensures Owed(ds, es, n) == ds[n].admitted + ds[n].running + Ended(es[..n])
    ensures ds[n].returned > 0 ==> Owed(ds, es, n) == Ended(es[..n])
    decreases n
  {
    hide Next;
    RunHolds(ds, es, n);
    if n > 0 {
      EveryCallbackRuns(ds, es, n - 1);
      assert Next(ds[n - 1], es[n - 1]) == Some(ds[n - 1 + 1]);
      assert es[..n] == es[..n - 1] + [es[n - 1]];
      StepOwes(ds[n - 1], es[n - 1]);
    }
  }
}
