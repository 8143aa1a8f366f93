/** The log stream of webui/api/logstream.go: a ring of the last thousand entries, cursors that resume in it,
    and one bounded channel per subscriber. */
module LogStream {
  import opened Text

  datatype Entry = Entry(number: nat, line: string)

  const RING: nat := 1000
  const CHANNEL: nat := RING + 256

  /** Everything logged after number `after`, in order: `after + 1`, `after + 2`, ... */
  function Tail(lines: seq<string>, after: nat): (es: seq<Entry>)
    requires after <= |lines|
    ensures |es| == |lines| - after
    ensures forall i :: 0 <= i < |es| ==> es[i] == Entry(after + i + 1, lines[after + i])
  {
    seq(|lines| - after, i requires 0 <= i < |lines| - after => Entry(after + i + 1, lines[after + i]))
  }

  // ---------------------------------------------------------------------------- cursors

  datatype Reason = Initial | InvalidCursor | InstanceChanged | HistoryExpired

  /** Where a subscriber resumes, and why it cannot resume where it asked to. */
  datatype Resume = Resume(after: nat, reason: Option<Reason>)

  function Decide(epoch: string, newest: nat, baseline: nat, cursor: string): Resume {
    if cursor == "" then Resume(baseline, Some(Initial))
    else
      var cut := IndexOf(cursor, ':');
      if cut == |cursor| then Resume(baseline, Some(InvalidCursor))
      else
        match ParseUint64(cursor[cut + 1..])
        case None => Resume(baseline, Some(InvalidCursor))
        case Some(n) =>
          if Decimal(n) != cursor[cut + 1..] then Resume(baseline, Some(InvalidCursor))
          else if cursor[..cut] != epoch then Resume(baseline, Some(InstanceChanged))
          else if n > newest then Resume(baseline, Some(InvalidCursor))
          else if n < baseline then Resume(baseline, Some(HistoryExpired))
          else Resume(n, None)
  }

  /** The cursor a subscriber was given with entry `n`. */
  function Cursor(epoch: string, n: nat): string { epoch + ":" + Decimal(n) }

  /** A subscriber resumes without a reset exactly at the cursors of this instance that are still within
      reach, and then right after the entry it names. */
  lemma ResumesExactlyAtValidCursors(epoch: string, newest: nat, baseline: nat, cursor: string)
    requires ':' !in epoch && newest <= MAX_UINT64
    ensures var d := Decide(epoch, newest, baseline, cursor);
            && (d.reason == None ==> baseline <= d.after <= newest && cursor == Cursor(epoch, d.after))
            && (forall n :: baseline <= n <= newest && cursor == Cursor(epoch, n) ==> d == Resume(n, None))
            && (d.reason != None ==> d.after == baseline)
  {
    hide Decimal, ParseUint64;
    var cut := IndexOf(cursor, ':');
    if cut < |cursor| {
      assert cursor == cursor[..cut] + [cursor[cut]] + cursor[cut + 1..];
    }
    forall n | baseline <= n <= newest && cursor == Cursor(epoch, n) ensures Decide(epoch, newest, baseline, cursor) == Resume(n, None) {
      CutOfCursor(epoch, n);
      NumberOfCursor(n);
    }
  }

  /** Why a subscriber cannot resume: it named nothing, an entry that has left the ring, or an entry of another
      instance; any other text is an invalid cursor. */
  lemma ReasonsExactly(epoch: string, newest: nat, baseline: nat, cursor: string)
    requires ':' !in epoch && baseline <= newest <= MAX_UINT64
    ensures var why := Decide(epoch, newest, baseline, cursor).reason;
            && (why == Some(Initial) <==> cursor == "")
            && (why == Some(HistoryExpired) <==> exists n: nat :: n < baseline && cursor == Cursor(epoch, n))
            && (why == Some(InstanceChanged)
                <==> exists other, n: nat :: ':' !in other && other != epoch && n <= MAX_UINT64 && cursor == Cursor(other, n))
  {
    var cut := IndexOf(cursor, ':');
    if cut < |cursor| {
      var n := ParseUint64(cursor[cut + 1..]);
      assert n.Some? ==> n.value <= MAX_UINT64;
      hide Decimal, ParseUint64;
      assert cursor == cursor[..cut] + ":" + cursor[cut + 1..] && ':' !in cursor[..cut];
      if n.Some? && Decimal(n.value) == cursor[cut + 1..] {
        assert cursor == Cursor(cursor[..cut], n.value);
      }
    }
    hide Decimal, ParseUint64, Cursor;
    if other: string, n: nat :| ':' !in other && n <= MAX_UINT64 && cursor == Cursor(other, n) { ReasonAt(epoch, newest, baseline, other, n); }
  }

  lemma ReasonAt(epoch: string, newest: nat, baseline: nat, other: string, n: nat)
    requires baseline <= newest && ':' !in other && n <= MAX_UINT64
    ensures Cursor(other, n) != ""
    ensures Decide(epoch, newest, baseline, Cursor(other, n)).reason
            == if other != epoch then Some(InstanceChanged) else if n > newest then Some(InvalidCursor)
               else if n < baseline then Some(HistoryExpired) else None
    ensures forall o: string, m: nat :: ':' !in o && m <= MAX_UINT64 && Cursor(o, m) == Cursor(other, n) ==> o == other && m == n
  {
    hide Decimal, ParseUint64;
    CutOfCursor(other, n);
    NumberOfCursor(n);
    forall o: string, m: nat | ':' !in o && m <= MAX_UINT64 && Cursor(o, m) == Cursor(other, n) ensures o == other && m == n {
      CutOfCursor(o, m);
      NumberOfCursor(m);
    }
  }

  lemma CutOfCursor(epoch: string, n: nat)
    requires ':' !in epoch
    ensures var c := Cursor(epoch, n);
            IndexOf(c, ':') == |epoch| && c[..|epoch|] == epoch && |epoch| < |c| && c[|epoch| + 1..] == Decimal(n) && c != ""
  {
    hide Decimal;
    var c := Cursor(epoch, n);
    assert c[|epoch|] == ':';
    assert forall k :: 0 <= k < |epoch| ==> c[k] == epoch[k];
    IndexOfAt(c, ':', |epoch|);
  }

  lemma NumberOfCursor(n: nat)
    requires n <= MAX_UINT64
    ensures ParseUint64(Decimal(n)) == Some(n)
  {
    hide Decimal;
  }

  // ------------------------------------------------------------------------------ the ring

  ghost predicate RingOK(cells: seq<Entry>, pos: nat, count: nat, lines: seq<string>) {
    && |cells| == RING && pos == |lines| % RING && count == (if |lines| < RING then |lines| else RING)
    && forall k :: |lines| - count <= k < |lines| ==> cells[k % RING] == Entry(k + 1, lines[k])
  }

  lemma RingStep(cells: seq<Entry>, pos: nat, count: nat, lines: seq<string>, line: string)
    requires RingOK(cells, pos, count, lines)
    ensures RingOK(cells[pos := Entry(|lines| + 1, line)], (pos + 1) % RING, if count < RING then count + 1 else count, lines + [line])
  {
  }

  lemma RingRead(cells: seq<Entry>, pos: nat, count: nat, lines: seq<string>, i: nat)
    requires RingOK(cells, pos, count, lines) && i < count
    ensures var start := (pos - count + RING) % RING;
            cells[(start + i) % RING] == Entry(|lines| - count + i + 1, lines[|lines| - count + i])
  {
    var k := |lines| - count + i;
    SamePlace(|lines|, pos, count, i);
  }

  lemma SamePlace(logged: nat, pos: nat, count: nat, i: nat)
    requires pos == logged % RING && i < count <= RING && count <= logged
    ensures ((pos - count + RING) % RING + i) % RING == (logged - count + i) % RING
  {
    var (q, x) := (logged / RING, pos - count + i);
    assert logged == q * RING + pos;
    if x >= 0 {
      assert (logged - count + i) == q * RING + x;
    } else {
      assert (logged - count + i) == (q - 1) * RING + (x + RING);
    }
  }

  // ------------------------------------------------------------------------- subscribers

  /** A subscriber's channel and its history: where it resumed, all that was ever put into the channel, and
      how much that was when an entry first found the channel full. */
  datatype Sub = Sub(queue: seq<Entry>, after: nat, sent: seq<Entry>, overflowAt: Option<nat>)

  /** The channel holds the end of what was sent; what was sent is genuine and in order, and complete from
      the resumption on up to the first overflow, where the gap begins. */
  ghost predicate SubOK(sub: Sub, lines: seq<string>) { InOrder(sub, lines) && GapFree(sub, lines) }

  ghost predicate InOrder(sub: Sub, lines: seq<string>) {
    && sub.after <= |lines| && |sub.queue| <= CHANNEL && |sub.queue| <= |sub.sent|
    && sub.queue == sub.sent[|sub.sent| - |sub.queue|..]
    && (forall i :: 0 <= i < |sub.sent| ==> Genuine(sub.sent[i], lines) && sub.sent[i].number > sub.after)
    && (forall i, j :: 0 <= i < j < |sub.sent| ==> sub.sent[i].number < sub.sent[j].number)
  }

  ghost predicate GapFree(sub: Sub, lines: seq<string>) {
    sub.after <= |lines| &&
    match sub.overflowAt
    case None => sub.sent == Tail(lines, sub.after)
    case Some(n) => n <= |sub.sent| && sub.after + n < |lines| && sub.sent[..n] == Tail(lines, sub.after)[..n]
                    && (n < |sub.sent| ==> sub.sent[n].number > sub.after + n + 1)
  }

  predicate Genuine(e: Entry, lines: seq<string>) { 0 < e.number <= |lines| && e.line == lines[e.number - 1] }

  function Offered(sub: Sub, e: Entry): Sub {
    if |sub.queue| < CHANNEL then sub.(queue := sub.queue + [e], sent := sub.sent + [e])
    else sub.(overflowAt := if sub.overflowAt.None? then Some(|sub.sent|) else sub.overflowAt)
  }

  /** Only a full channel, 1256 entries behind, misses an entry, and the first miss is remembered. */
  lemma OnlyFullChannelsMiss(sub: Sub, e: Entry)
    ensures Offered(sub, e)
            == if |sub.queue| < 1256 then Sub(sub.queue + [e], sub.after, sub.sent + [e], sub.overflowAt)
               else Sub(sub.queue, sub.after, sub.sent, if sub.overflowAt == None then Some(|sub.sent|) else sub.overflowAt)
  {
  }

  lemma StillGenuine(sub: Sub, lines: seq<string>, line: string)
    requires InOrder(sub, lines)
    ensures forall i :: 0 <= i < |sub.sent| ==> Genuine(sub.sent[i], lines + [line]) && sub.sent[i].number <= |lines|
  {
    forall i | 0 <= i < |sub.sent| ensures Genuine(sub.sent[i], lines + [line]) && sub.sent[i].number <= |lines| {
      assert Genuine(sub.sent[i], lines);
    }
  }

  lemma OfferKeeps(sub: Sub, lines: seq<string>, line: string)
    requires SubOK(sub, lines)
    ensures SubOK(Offered(sub, Entry(|lines| + 1, line)), lines + [line])
  {
    hide InOrder, GapFree, Offered;
    OfferInOrder(sub, lines, line);
    OfferGapFree(sub, lines, line);
  }

  lemma OfferInOrder(sub: Sub, lines: seq<string>, line: string)
    requires InOrder(sub, lines)
    ensures InOrder(Offered(sub, Entry(|lines| + 1, line)), lines + [line])
  {
    hide Genuine, Tail;
    var (more, e) := (lines + [line], Entry(|lines| + 1, line));
    StillGenuine(sub, lines, line);
    assert Genuine(e, more) by { NewestIsGenuine(lines, line); }
    var next := Offered(sub, e);
    if |sub.queue| < CHANNEL {
      assert next.sent == sub.sent + [e] && next.queue == sub.queue + [e];
    }
  }

  lemma OfferGapFree(sub: Sub, lines: seq<string>, line: string)
    requires GapFree(sub, lines)
    ensures GapFree(Offered(sub, Entry(|lines| + 1, line)), lines + [line])
  {
    hide Tail;
    var (more, e) := (lines + [line], Entry(|lines| + 1, line));
    assert Tail(lines + [line], sub.after) == Tail(lines, sub.after) + [Entry(|lines| + 1, line)];
    var next := Offered(sub, e);
    if sub.overflowAt.Some? {
      var n := sub.overflowAt.value;
      assert Tail(more, sub.after)[..n] == Tail(lines, sub.after)[..n] && next.sent[..n] == sub.sent[..n];
    } else {
      var whole := sub.sent;
      assert Tail(more, sub.after)[..|whole|] == whole && whole[..|whole|] == whole;
    }
  }

  lemma NewestIsGenuine(lines: seq<string>, line: string)
    ensures Genuine(Entry(|lines| + 1, line), lines + [line])
  {
  }

  lemma ReceiveKeeps(sub: Sub, lines: seq<string>)
    requires SubOK(sub, lines) && sub.queue != []
    ensures SubOK(sub.(queue := sub.queue[1..]), lines)
    ensures sub.queue[0] == sub.sent[|sub.sent| - |sub.queue|]
  {
  }

  lemma FreshSub(lines: seq<string>, after: nat)
    requires after <= |lines| && |lines| - after <= RING
    ensures SubOK(Sub(Tail(lines, after), after, Tail(lines, after), None), lines)
  {
  }

  class LogBroadcaster {
    const epoch: string
    var seqNo: nat
    var ring: array<Entry>
    var ringPos: nat
    var ringCnt: nat
    var subs: map<int, Sub>
    var nextID: nat
    /** Every line ever logged, and the channels closed so far. */
    ghost var lines: seq<string>
    ghost var closed: set<int>

    ghost predicate Valid()
      reads this, ring
    {
      && ':' !in epoch && seqNo == |lines| && ring.Length == RING && RingOK(ring[..], ringPos, ringCnt, lines)
      && (forall id :: id in subs ==> SubOK(subs[id], lines) && 0 <= id < nextID && id !in closed)
      && (forall id :: id in closed ==> id < nextID)
    }

    constructor (epoch: string)
      requires ':' !in epoch
      ensures Valid() && fresh(ring) && lines == [] && subs == map[] && this.epoch == epoch
    {
      this.epoch := epoch;
      ring := new Entry[RING](_ => Entry(0, ""));
      seqNo, ringPos, ringCnt, subs, nextID := 0, 0, 0, map[], 0;
      lines, closed := [], {};
    }

    /** Offers an entry to every open channel; a full one is passed over. The channels are independent, so
        their order does not matter. */
    method Broadcast(entry: Entry)
      requires forall id :: id in subs ==> 0 <= id < nextID
      modifies this`subs
      ensures subs.Keys == old(subs).Keys
      ensures forall id :: id in subs ==> subs[id] == Offered(old(subs)[id], entry)
    {
      hide Offered;
      for next := 0 to nextID
        invariant subs.Keys == old(subs).Keys
        invariant forall id :: id in subs ==> subs[id] == if id < next then Offered(old(subs)[id], entry) else old(subs)[id]
      {
        if next in subs {
          subs := subs[next := Offered(subs[next], entry)];
        }
      }
    }

    /** Logs a line: into the ring and, without waiting, to every open channel. */
    method Handle(line: string)
      requires Valid()
      modifies this`seqNo, this`ringPos, this`ringCnt, this`subs, this`lines, ring
      ensures Valid() && lines == old(lines) + [line]
      ensures subs.Keys == old(subs).Keys
      ensures forall id :: id in subs ==> subs[id] == Offered(old(subs)[id], Entry(|lines|, line))
    {
      hide RingOK, SubOK, Offered;
      RingStep(ring[..], ringPos, ringCnt, lines, line);
      assert ringPos < RING by { RingPosition(ring[..], ringPos, ringCnt, lines); }
      seqNo := seqNo + 1;
      var entry := Entry(seqNo, line);
      ghost var cells := ring[..];
      ring[ringPos] := entry;
      assert ring[..] == cells[ringPos := entry];
      ringPos := (ringPos + 1) % RING;
      if ringCnt < RING {
        ringCnt := ringCnt + 1;
      }
      Broadcast(entry);
      lines := lines + [line];
      forall id | id in subs ensures SubOK(subs[id], lines) {
        OfferKeeps(old(subs)[id], old(lines), line);
      }
    }

    /** The entries of the ring after a number within reach. */
    method ReadHistory(after: nat) returns (history: seq<Entry>)
      requires ring.Length == RING && RingOK(ring[..], ringPos, ringCnt, lines) && |lines| - ringCnt <= after <= |lines|
      ensures history == Tail(lines, after)
    {
      hide RingOK;
      RingPosition(ring[..], ringPos, ringCnt, lines);
      var start := (ringPos - ringCnt + RING) % RING;
      history := [];
      ghost var skipped := after - (|lines| - ringCnt);
      for i := 0 to ringCnt
        invariant |history| == if i < skipped then 0 else i - skipped
        invariant history == Tail(lines, after)[..|history|]
      {
        RingRead(ring[..], ringPos, ringCnt, lines, i);
        var entry := ring[(start + i) % RING];
        if entry.number > after {
          assert entry == Tail(lines, after)[|history|];
          history := history + [entry];
        }
      }
    }

    /** Registers a subscriber; its channel starts with the history after its cursor, in one locked step, so
        nothing falls between history and live entries. */
    method Subscribe(cursor: string) returns (id: int, reason: Option<Reason>, baseline: nat)
      requires Valid()
      modifies this`subs, this`nextID
      ensures Valid() && id !in old(subs) && id !in closed && baseline == |lines| - ringCnt
      ensures var d := Decide(epoch, |lines|, baseline, cursor);
              reason == d.reason && d.after <= |lines|
              && subs == old(subs)[id := Sub(Tail(lines, d.after), d.after, Tail(lines, d.after), None)]
    {
      hide SubOK, RingOK, Decide;
      RingPosition(ring[..], ringPos, ringCnt, lines);
      baseline := seqNo - ringCnt;
      var decided := Decide(epoch, seqNo, baseline, cursor);
      reason := decided.reason;
      WithinReach(epoch, seqNo, baseline, cursor);
      var history := ReadHistory(decided.after);
      id := nextID;
      nextID := nextID + 1;
      FreshSub(lines, decided.after);
      subs := subs[id := Sub(history, decided.after, history, None)];
    }

    /** The connection takes the next entry: the very next one that was sent. */
    method Receive(id: int) returns (entry: Entry)
      requires Valid() && id in subs && subs[id].queue != []
      modifies this`subs
      ensures Valid() && subs == old(subs)[id := old(subs)[id].(queue := old(subs)[id].queue[1..])]
      ensures var sub := old(subs)[id];
              |sub.queue| <= |sub.sent| && entry == sub.sent[|sub.sent| - |sub.queue|]
    {
      hide RingOK;
      ReceiveKeeps(subs[id], lines);
      entry := subs[id].queue[0];
      subs := subs[id := subs[id].(queue := subs[id].queue[1..])];
    }

    /** Closes a channel once and takes it out of reach of `Handle` in the same locked step. */
    method Unsubscribe(id: int)
      requires Valid() && id < nextID
      modifies this`subs, this`closed
      ensures Valid() && subs == old(subs) - {id}
      ensures closed == if id in old(subs) then old(closed) + {id} else old(closed)
      ensures id in old(subs) ==> id !in old(closed)
    {
      hide RingOK, SubOK;
      if id in subs {
        closed := closed + {id};
        subs := subs - {id};
      }
    }
  }

  lemma RingPosition(cells: seq<Entry>, pos: nat, count: nat, lines: seq<string>)
    requires RingOK(cells, pos, count, lines)
    ensures pos < RING && count <= RING && count <= |lines| && |cells| == RING
  {
  }

  lemma WithinReach(epoch: string, newest: nat, baseline: nat, cursor: string)
    requires baseline <= newest
    ensures baseline <= Decide(epoch, newest, baseline, cursor).after <= newest
  {
    hide Decimal, ParseUint64;
  }

  lemma {:induction false} NumbersClimb(sub: Sub, lines: seq<string>, i: nat, j: nat)
    requires SubOK(sub, lines) && i <= j < |sub.sent|
    ensures sub.sent[j].number >= sub.sent[i].number + (j - i)
    decreases j
  {
    if i < j { NumbersClimb(sub, lines, i, j - 1); }
  }

  /** What a connection receives is, entry by entry, `after + 1`, `after + 2`, ...: no gap and no repeat, across
      the switch from history to live, for all that was sent before the channel first overflowed, received
      before or after that, and for nothing sent later. */
  lemma ReceivedIsConsecutive(sub: Sub, lines: seq<string>, i: nat)
    requires SubOK(sub, lines) && i < |sub.sent| - |sub.queue|
    ensures sub.sent[i].number == sub.after + i + 1 <==> sub.overflowAt.None? || i < sub.overflowAt.value
    ensures sub.overflowAt.None? || i < sub.overflowAt.value ==>
              sub.after + i < |lines| && sub.sent[i] == Entry(sub.after + i + 1, lines[sub.after + i])
    ensures sub.overflowAt.None? ==> |sub.sent| == |lines| - sub.after
  {
    if sub.overflowAt.Some? {
      var n := sub.overflowAt.value;
      if i < n {
        assert sub.sent[..n][i] == Tail(lines, sub.after)[..n][i];
      } else {
        NumbersClimb(sub, lines, n, i);
      }
    }
  }
}
