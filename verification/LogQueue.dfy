/** The bounded log queue of webui/api/logqueue.go: a ring that drops its oldest record, one worker that
    drains it, and a stop that freezes admission and may expire what is left. */
module LogQueue {
  import opened Text

  // -------------------------------------------------------------- the queue as a sequence

  /** What the ring stands for. `taken` are the positions, among all accepted records, of the ones handed to
      the writer; `overflow` and `abandoned` count all records ever lost. */
  datatype Queue<T> = Queue(accepted: seq<T>, pending: seq<T>, taken: seq<nat>, overflow: nat, abandoned: nat,
                            accepting: bool, expired: bool)

  function Admit<T>(q: Queue<T>, r: T, capacity: nat): Queue<T>
    requires capacity > 0
  {
    if !q.accepting then q
    else if |q.pending| == capacity then
      q.(accepted := q.accepted + [r], pending := q.pending[1..] + [r], overflow := q.overflow + 1)
    else q.(accepted := q.accepted + [r], pending := q.pending + [r])
  }

  function TakeFront<T>(q: Queue<T>): Queue<T>
    requires q.pending != [] && |q.pending| <= |q.accepted|
  {
    q.(pending := q.pending[1..], taken := q.taken + [|q.accepted| - |q.pending|])
  }

  function Expire<T>(q: Queue<T>): Queue<T> {
    if q.expired then q
    else q.(expired := true, accepting := false, abandoned := q.abandoned + |q.pending|, pending := [])
  }

  function Freeze<T>(q: Queue<T>): Queue<T> { q.(accepting := false) }

  ghost predicate Increasing(s: seq<nat>) { forall i, j :: 0 <= i < j < |s| ==> s[i] < s[j] }

  /** Pending records are the newest accepted ones, what was written is an in-order selection without
      repeats from the older ones, and every accepted record is accounted for. */
  ghost predicate Accounted<T>(q: Queue<T>, capacity: nat) {
    && |q.pending| <= capacity && |q.pending| <= |q.accepted|
    && q.pending == q.accepted[|q.accepted| - |q.pending|..]
    && Increasing(q.taken) && (forall i :: 0 <= i < |q.taken| ==> q.taken[i] < |q.accepted| - |q.pending|)
    && |q.accepted| == |q.taken| + q.overflow + q.abandoned + |q.pending|
    && (q.expired ==> q.pending == [] && !q.accepting)
  }

  lemma AdmitAccounted<T>(q: Queue<T>, r: T, capacity: nat)
    requires capacity > 0 && Accounted(q, capacity)
    ensures Accounted(Admit(q, r, capacity), capacity)
  {
  }

  lemma TakeAccounted<T>(q: Queue<T>, capacity: nat)
    requires Accounted(q, capacity) && q.pending != []
    ensures Accounted(TakeFront(q), capacity)
    ensures q.accepted[TakeFront(q).taken[|q.taken|]] == q.pending[0]
  {
  }

  lemma TakenPosition<T>(q: Queue<T>, capacity: nat)
    requires Accounted(q, capacity) && q.pending != []
    ensures |q.pending| <= |q.accepted| && TakeFront(q).taken == q.taken + [|q.accepted| - |q.pending|]
  {
  }

  lemma ExpireAccounted<T>(q: Queue<T>, capacity: nat)
    requires Accounted(q, capacity)
    ensures Accounted(Expire(q), capacity) && Accounted(Freeze(q), capacity)
  {
  }

  // ------------------------------------------------------------------------- the ring

  /** The position `i` places after `head` on a ring. */
  function Index(head: nat, i: nat, length: nat): (at: nat)
    requires head < length && i <= length
    ensures at < length
  {
    if head + i < length then head + i else head + i - length
  }

  lemma IndexIsModulo(head: nat, i: nat, length: nat)
    requires head < length && i <= length
    ensures (head + i) % length == Index(head, i, length)
  {
    var (x, q) := (head + i, (head + i) / length);
    var r := x % length;
    assert x == q * length + r && r < length;
    if q >= 2 { AtLeastTwice(q, length); }
    assert q < 2;
    assert q == 0 || q == 1;
    assert x == r || x == length + r;
  }

  lemma AtLeastTwice(q: int, n: nat)
    requires q >= 2
    ensures q * n >= 2 * n
  {
    assert (q - 2) * n >= 0;
    assert q * n == (q - 2) * n + 2 * n;
  }

  /** The `size` cells from `head` on, going round. */
  function Window<T>(cells: seq<T>, head: nat, size: nat): (w: seq<T>)
    requires head < |cells| && size <= |cells|
    ensures |w| == size && forall i :: 0 <= i < size ==> w[i] == cells[Index(head, i, |cells|)]
  {
    seq(size, i requires 0 <= i < size => cells[Index(head, i, |cells|)])
  }

  class QueuedLogWriter<T(0)> {
    const ring: array<T>
    var head: nat
    var size: nat
    var accepting: bool
    var expired: bool
    /** Losses not reported yet. */
    var overflow: nat
    var abandoned: nat
    ghost var accepted: seq<T>
    ghost var taken: seq<nat>
    ghost var reportedOverflow: nat
    ghost var reportedAbandoned: nat

    ghost predicate Valid()
      reads this, ring
    {
      ring.Length > 0 && head < ring.Length && size <= ring.Length && Accounted(View(), ring.Length)
    }

    /** The pending records, oldest first. */
    ghost function Pending(): seq<T>
      reads this, ring
    {
      if head < ring.Length && size <= ring.Length then Window(ring[..], head, size) else []
    }

    ghost function View(): Queue<T>
      reads this, ring
    {
      Queue(accepted, Pending(), taken, overflow + reportedOverflow, abandoned + reportedAbandoned, accepting, expired)
    }

    constructor (capacity: nat)
      requires capacity > 0
      ensures Valid() && fresh(ring) && ring.Length == capacity
      ensures View() == Queue([], [], [], 0, 0, true, false)
    {
      ring := new T[capacity];
      head, size, accepting, expired, overflow, abandoned := 0, 0, true, false, 0, 0;
      accepted, taken, reportedOverflow, reportedAbandoned := [], [], 0, 0;
    }

    /** Makes room by dropping the oldest record. */
    method DropOldest()
      requires ring.Length > 0 && head < ring.Length && 0 < size <= ring.Length
      modifies this`head, this`size, this`overflow
      ensures head < ring.Length && size == old(size) - 1 && overflow == old(overflow) + 1
      ensures Pending() == old(Pending())[1..]
    {
      Advance();
      overflow := overflow + 1;
    }

    method Advance()
      requires head < ring.Length && 0 < size <= ring.Length
      modifies this`head, this`size
      ensures head < ring.Length && size == old(size) - 1 && Pending() == old(Pending())[1..]
    {
      ghost var was := Pending();
      IndexIsModulo(head, 1, ring.Length);
      head := (head + 1) % ring.Length;
      size := size - 1;
      assert Pending() == was[1..];
    }

    method Append(r: T)
      requires ring.Length > 0 && head < ring.Length && size < ring.Length
      modifies this`size, ring
      ensures size == old(size) + 1 && Pending() == old(Pending()) + [r]
    {
      ghost var was := Pending();
      IndexIsModulo(head, size, ring.Length);
      ring[(head + size) % ring.Length] := r;
      size := size + 1;
      assert Pending() == was + [r];
    }

    /** The locked part of `Enqueue`; the caller then wakes the worker. */
    method Enqueue(r: T) returns (admitted: bool)
      requires Valid()
      modifies this`head, this`size, this`overflow, this`accepted, ring
      ensures Valid() && View() == Admit(old(View()), r, ring.Length) && admitted == accepting
    {
      hide Accounted;
      AdmitAccounted(View(), r, ring.Length);
      if !accepting {
        return false;
      }
      if size == ring.Length {
        DropOldest();
      }
      Append(r);
      accepted := accepted + [r];
      admitted := true;
    }

    /** Takes the next record for the writer. */
    method Take() returns (r: T)
      requires Valid() && size > 0
      modifies this`head, this`size, this`taken
      ensures Valid() && r == old(Pending())[0] && View() == TakeFront(old(View()))
    {
      hide Accounted;
      ghost var before, was := View(), Pending();
      TakeAccounted(before, ring.Length);
      TakenPosition(before, ring.Length);
      r := ring[head];
      assert was[0] == ring[..][head];
      Advance();
      taken := taken + [|accepted| - |was|];
    }

    /** Gives up what is pending before the active write is cancelled. */
    method ExpireNow()
      requires Valid()
      modifies this`expired, this`accepting, this`abandoned, this`size
      ensures Valid() && View() == Expire(old(View()))
    {
      hide Accounted;
      ExpireAccounted(View(), ring.Length);
      if expired {
        return;
      }
      expired, accepting := true, false;
      abandoned := abandoned + size;
      size := 0;
      assert Pending() == [];
    }

    method StopAdmission()
      requires Valid()
      modifies this`accepting
      ensures Valid() && View() == Freeze(old(View()))
    {
      hide Accounted;
      ExpireAccounted(View(), ring.Length);
      accepting := false;
    }

    /** Reporting moves counts, it loses none. */
    method ReportDrops(due: bool) returns (reported: bool)
      requires Valid()
      modifies this`overflow, this`abandoned, this`reportedOverflow, this`reportedAbandoned
      ensures Valid() && View() == old(View())
      ensures reported == (due && old(overflow) + old(abandoned) > 0) && (reported ==> overflow == 0 && abandoned == 0)
    {
      if overflow + abandoned == 0 || !due {
        return false;
      }
      reportedOverflow, reportedAbandoned := reportedOverflow + overflow, reportedAbandoned + abandoned;
      overflow, abandoned := 0, 0;
      reported := true;
    }
  }

  // ------------------------------------------------------------- producers, worker and stop

  /** Where the worker is; `Writing` and `Reporting` happen outside the lock. */
  datatype Worker = Locking | Expiring | Writing | Reporting | Sleeping | Done

  /** The queue, the records handed to the writer, the wake token, the producers between unlocking and waking,
      and the worker. */
  datatype System<T> = System(queue: Queue<T>, handed: seq<T>, wake: bool, notifying: nat, worker: Worker, deadline: bool)

  datatype Event<T> =
    | Offer(record: T)   // Enqueue: the locked part
    | Notify             // somebody offers the wake token
    | Stop               // Stop: the locked part; its own wake-up follows
    | Timer              // the drain timer expires the queue
    | Deadline           // the worker itself sees the deadline passed
    | Work               // the worker's next step

  function Next<T>(s: System<T>, e: Event<T>, capacity: nat): Option<System<T>>
    requires capacity > 0
  {
    match e
    case Offer(r) =>
      Some(s.(queue := Admit(s.queue, r, capacity), notifying := s.notifying + if s.queue.accepting then 1 else 0))
    case Notify => if s.notifying == 0 then None else Some(s.(notifying := s.notifying - 1, wake := true))
    case Stop => Some(s.(queue := Freeze(s.queue), deadline := true, notifying := s.notifying + 1))
    case Timer =>
      if !s.deadline then None
      else Some(s.(queue := Expire(s.queue), notifying := s.notifying + if s.queue.expired then 0 else 1))
    case Deadline => if s.worker == Locking && s.deadline && !s.queue.expired then Some(s.(worker := Expiring)) else None
    case Work =>
      match s.worker
      case Locking =>
        if s.queue.pending != [] && |s.queue.pending| <= |s.queue.accepted|
        then Some(s.(queue := TakeFront(s.queue), handed := s.handed + [s.queue.pending[0]], worker := Writing))
        else Some(s.(worker := if s.queue.accepting then Sleeping else Done))
      case Expiring => Some(s.(queue := Expire(s.queue), wake := s.wake || !s.queue.expired, worker := Locking))
      case Writing => Some(s.(worker := Reporting))
      case Reporting => Some(s.(worker := Locking))
      case Sleeping => if s.wake then Some(s.(wake := false, worker := Locking)) else None
      case Done => None
  }

  /** Whether this step gives up what is pending: the drain timer, or the worker past the deadline, whichever
      comes first. */
  predicate GivesUp<T>(s: System<T>, e: Event<T>) {
    (e.Timer? || (e.Work? && s.worker == Expiring)) && !s.queue.expired
  }

  /** What a step adds to the books, and nothing else does: a record is lost to overflow only on a full ring,
      abandoned only when the queue is given up, and refused only after a stop. */
  lemma StepIsBooked<T>(s: System<T>, e: Event<T>, capacity: nat)
    requires capacity > 0 && Accounted(s.queue, capacity) && Next(s, e, capacity).Some?
    ensures var (q, r) := (s.queue, Next(s, e, capacity).value.queue);
            && r.accepted == (if e.Offer? && q.accepting then q.accepted + [e.record] else q.accepted)
            && r.overflow == q.overflow + (if e.Offer? && q.accepting && |q.pending| == capacity then 1 else 0)
            && r.abandoned == q.abandoned + (if GivesUp(s, e) then |q.pending| else 0)
            && r.expired == (q.expired || GivesUp(s, e)) && r.accepting == (q.accepting && !e.Stop? && !GivesUp(s, e))
    ensures Next(s, e, capacity).value.handed
            == if e.Work? && s.worker == Locking && s.queue.pending != [] then s.handed + [s.queue.pending[0]] else s.handed
  {
    assert |s.queue.pending| <= |s.queue.accepted|;
    hide Accounted;
  }

  /** The records handed to the writer are, in order, the accepted ones at the taken positions. */
  ghost predicate HandedAreTaken<T>(s: System<T>) { AreAt(s.handed, s.queue.taken, s.queue.accepted) }

  ghost predicate AreAt<T>(handed: seq<T>, taken: seq<nat>, accepted: seq<T>) {
    |handed| == |taken| && forall i :: 0 <= i < |handed| ==> taken[i] < |accepted| && handed[i] == accepted[taken[i]]
  }

  /** The worker never sleeps on work: with a record pending or admission closed there is a token or somebody
      about to send one; and it leaves only a queue that is empty and stays so. */
  ghost predicate Inv<T>(s: System<T>, capacity: nat) {
    && Accounted(s.queue, capacity) && HandedAreTaken(s)
    && (s.worker == Sleeping && (s.queue.pending != [] || !s.queue.accepting) ==> s.wake || s.notifying > 0)
    && (s.worker == Done ==> s.queue.pending == [] && !s.queue.accepting)
    && (s.deadline ==> !s.queue.accepting)
  }

  lemma StepKeepsInv<T>(s: System<T>, e: Event<T>, capacity: nat)
    requires capacity > 0 && Inv(s, capacity) && Next(s, e, capacity).Some?
    ensures Inv(Next(s, e, capacity).value, capacity)
  {
    hide Accounted;
    HandedKept(s, e, capacity);
    match e
    case Offer(r) => AdmitAccounted(s.queue, r, capacity);
    case Work =>
      if s.worker == Locking && s.queue.pending != [] && |s.queue.pending| <= |s.queue.accepted| { TakeAccounted(s.queue, capacity); }
      ExpireAccounted(s.queue, capacity);
      assert |s.queue.pending| <= |s.queue.accepted|;
    case _ => ExpireAccounted(s.queue, capacity);
  }

  lemma HandedKept<T>(s: System<T>, e: Event<T>, capacity: nat)
    requires capacity > 0 && Accounted(s.queue, capacity) && HandedAreTaken(s) && Next(s, e, capacity).Some?
    ensures HandedAreTaken(Next(s, e, capacity).value)
  {
    hide AreAt;
    var q := s.queue;
    match e
    case Offer(r) => StillAt(s.handed, q.taken, q.accepted, r);
    case Work =>
      if s.worker == Locking && q.pending != [] { OneMoreAt(s.handed, q.taken, q.accepted, |q.accepted| - |q.pending|); }
    case _ =>
  }

  lemma StillAt<T>(handed: seq<T>, taken: seq<nat>, accepted: seq<T>, r: T)
    requires AreAt(handed, taken, accepted)
    ensures AreAt(handed, taken, accepted + [r])
  {
  }

  lemma OneMoreAt<T>(handed: seq<T>, taken: seq<nat>, accepted: seq<T>, k: nat)
    requires AreAt(handed, taken, accepted) && k < |accepted|
    ensures AreAt(handed + [accepted[k]], taken + [k], accepted)
  {
  }


  function Start<T>(): System<T> { System(Queue([], [], [], 0, 0, true, false), [], false, 0, Locking, false) }

  ghost predicate IsRun<T>(ss: seq<System<T>>, es: seq<Event<T>>, capacity: nat)
    requires capacity > 0
  {
    && |ss| == |es| + 1 && ss[0] == Start()
    && forall i :: 0 <= i < |es| ==> Next(ss[i], es[i], capacity) == Some(ss[i + 1])
  }

  lemma {:induction false} RunHolds<T>(ss: seq<System<T>>, es: seq<Event<T>>, capacity: nat, n: nat)
    requires capacity > 0 && IsRun(ss, es, capacity) && n <= |es|
    ensures Inv(ss[n], capacity)
    decreases n
  {
    hide Next, Inv;
    if n == 0 {
      StartHolds<T>(capacity);
    } else {
      RunHolds(ss, es, capacity, n - 1);
      assert Next(ss[n - 1], es[n - 1], capacity) == Some(ss[n - 1 + 1]);
      StepKeepsInv(ss[n - 1], es[n - 1], capacity);
    }
  }

  lemma StartHolds<T>(capacity: nat)
    ensures Inv(Start<T>(), capacity)
  {
  }

  /** In every interleaving of producers, worker, stop and timer, every accepted record was handed to the writer,
      dropped as the oldest, abandoned or is still pending; the pending ones are the newest accepted, those
      handed over an in-order selection without repeats from the older; and a sleeping worker with something to
      do can be woken. */
  lemma NothingIsLostUnseen<T>(ss: seq<System<T>>, es: seq<Event<T>>, capacity: nat)
    requires capacity > 0 && IsRun(ss, es, capacity)
    ensures var s := ss[|es|];
            && |s.queue.accepted| == |s.queue.taken| + s.queue.overflow + s.queue.abandoned + |s.queue.pending|
            && |s.queue.pending| <= |s.queue.accepted| && s.queue.pending == s.queue.accepted[|s.queue.accepted| - |s.queue.pending|..]
            && Increasing(s.queue.taken) && HandedAreTaken(s)
            && (forall i :: 0 <= i < |s.queue.taken| ==> s.queue.taken[i] < |s.queue.accepted| - |s.queue.pending|)
            && (s.worker == Sleeping && s.queue.pending != [] ==> Next(s, Work, capacity).Some? || Next(s, Notify, capacity).Some?)
  {
    RunHolds(ss, es, capacity, |es|);
  }

  /** When the worker has left, the queue is drained for good. */
  lemma DrainedAtExit<T>(ss: seq<System<T>>, es: seq<Event<T>>, capacity: nat, n: nat)
    requires capacity > 0 && IsRun(ss, es, capacity) && n < |es| && ss[n].worker == Done
    ensures ss[n].queue.pending == [] && |ss[n].queue.accepted| == |ss[n].queue.taken| + ss[n].queue.overflow + ss[n].queue.abandoned
    ensures ss[n + 1].queue.accepted == ss[n].queue.accepted && ss[n + 1].queue.pending == [] && ss[n + 1].worker == Done
  {
    RunHolds(ss, es, capacity, n);
    assert Next(ss[n], es[n], capacity) == Some(ss[n + 1]);
  }
}
