/** Which rule an Alibaba rule ID names, over time. An ID is bound when it is handed out, and bound anew when
    somebody edits the rule behind it in place; a deletion by ID takes whatever the ID names at that moment. */
module Bindings {
  import opened Text
  import opened Keys

  datatype Binding = Binding(id: string, body: RuleInfo)

  /** A rule this client took out by ID: what the ID named then, and how many bindings had been made. */
  datatype Strike = Strike(id: string, body: RuleInfo, at: nat)

  /** What an ID names after these bindings. */
  function Bound(bs: seq<Binding>, id: string): Option<RuleInfo> {
    if bs == [] then None
    else if bs[|bs| - 1].id == id then Some(bs[|bs| - 1].body)
    else Bound(bs[..|bs| - 1], id)
  }

  ghost predicate BoundAt(bs: seq<Binding>, n: nat, id: string, body: RuleInfo) {
    n <= |bs| && Bound(bs[..n], id) == Some(body)
  }

  /** Binding `e` is the last of an ID among the first `n`. */
  ghost predicate LastBinding(bs: seq<Binding>, n: nat, id: string, e: nat) {
    e < n <= |bs| && bs[e].id == id && forall k :: e < k < n ==> bs[k].id != id
  }

  lemma {:induction false} BoundIsLast(bs: seq<Binding>, n: nat, id: string)
    requires n <= |bs|
    ensures forall e: nat :: LastBinding(bs, n, id, e) ==> Bound(bs[..n], id) == Some(bs[e].body)
    ensures Bound(bs[..n], id).Some? ==> exists e: nat :: LastBinding(bs, n, id, e)
    decreases n
  {
    if n > 0 {
      assert bs[..n][..n - 1] == bs[..n - 1] && bs[..n][n - 1] == bs[n - 1];
      BoundIsLast(bs, n - 1, id);
      forall e: nat | LastBinding(bs, n, id, e) ensures Bound(bs[..n], id) == Some(bs[e].body) {
        if bs[n - 1].id != id { assert LastBinding(bs, n - 1, id, e); }
      }
      if bs[n - 1].id == id {
        assert LastBinding(bs, n, id, n - 1);
      } else {
        if Bound(bs[..n], id).Some? {
          var e: nat :| LastBinding(bs, n - 1, id, e);
          assert LastBinding(bs, n, id, e);
        }
      }
    }
  }

  /** All later bindings are of IDs never seen before: nothing was edited in place. */
  ghost predicate OnlyNewIDs(before: seq<Binding>, after: seq<Binding>) {
    before <= after && forall i :: |before| <= i < |after| ==> Bound(after[..i], after[i].id) == None
  }

  lemma OnlyNewTransitive(a: seq<Binding>, b: seq<Binding>, c: seq<Binding>)
    requires OnlyNewIDs(a, b) && OnlyNewIDs(b, c)
    ensures OnlyNewIDs(a, c)
  {
    forall i | |a| <= i < |c| ensures Bound(c[..i], c[i].id) == None {
      if i < |b| { assert c[..i] == b[..i] && c[i] == b[i]; }
    }
  }

  /** Without edits an ID names the same rule for good. */
  lemma {:induction false} BoundForGood(bs: seq<Binding>, from: nat, n: nat, m: nat, id: string)
    requires from <= n <= m <= |bs| && OnlyNewIDs(bs[..from], bs) && Bound(bs[..n], id).Some?
    ensures Bound(bs[..m], id) == Bound(bs[..n], id)
    decreases m
  {
    hide OnlyNewIDs;
    if n < m {
      BoundForGood(bs, from, n, m - 1, id);
      assert bs[..m][..m - 1] == bs[..m - 1] && bs[..m][m - 1] == bs[m - 1];
      BoundOnce(bs, from, m - 1);
    }
  }

  lemma BoundOnce(bs: seq<Binding>, from: nat, i: nat)
    requires from <= i < |bs| && OnlyNewIDs(bs[..from], bs)
    ensures Bound(bs[..i], bs[i].id) == None
  {
  }

  // ------------------------------------------------------------------------ strikes

  /** The bodies of some strikes. */
  ghost function StruckBodies(ss: seq<Strike>): multiset<RuleInfo> {
    if ss == [] then multiset{} else StruckBodies(ss[..|ss| - 1]) + multiset{ss[|ss| - 1].body}
  }

  lemma {:induction false} StruckConcat(x: seq<Strike>, y: seq<Strike>)
    ensures StruckBodies(x + y) == StruckBodies(x) + StruckBodies(y)
  {
    if y == [] {
      assert x + y == x;
    } else {
      var init := y[..|y| - 1];
      assert (x + y)[..|x + y| - 1] == x + init;
      StruckConcat(x, init);
    }
  }

  lemma {:induction false} StruckIs(ss: seq<Strike>, b: RuleInfo)
    ensures b in StruckBodies(ss) <==> exists i :: 0 <= i < |ss| && ss[i].body == b
  {
    if ss != [] {
      var init := ss[..|ss| - 1];
      StruckIs(init, b);
      if b in StruckBodies(init) {
        var i :| 0 <= i < |init| && init[i].body == b;
        assert ss[i].body == b;
      }
    }
  }

  /** The strikes from number `from` on fit the bindings, none of them older than binding number `since`. */
  ghost predicate StrikesFit(ss: seq<Strike>, from: nat, bs: seq<Binding>, since: nat) {
    forall i :: from <= i < |ss| ==> since <= ss[i].at && BoundAt(bs, ss[i].at, ss[i].id, ss[i].body)
  }

  lemma StrikesStillFit(ss: seq<Strike>, more: seq<Strike>, from: nat, bs: seq<Binding>, later: seq<Binding>, since: nat)
    requires StrikesFit(ss, from, bs, since) && ss <= more && bs <= later && since <= |bs|
    requires StrikesFit(more, |ss|, later, |bs|)
    ensures StrikesFit(more, from, later, since)
  {
    forall i | from <= i < |more| ensures since <= more[i].at && BoundAt(later, more[i].at, more[i].id, more[i].body) {
      if i < |ss| {
        assert more[i] == ss[i] && BoundAt(bs, ss[i].at, ss[i].id, ss[i].body);
        assert later[..ss[i].at] == bs[..ss[i].at];
      }
    }
  }
}
