/** One cloud resource behind its API. By contract it can fail, apply a request only in part, be changed by
    others between and during requests, and renumber what it holds; callers are verified against the contracts
    alone. The bodies are one cloud that does as it is told, so the contracts can be met, undisturbed runs
    included. */
module CloudAPI {
  import opened Text
  import opened Tag
  import opened Ports
  import opened PortRoundTrip
  import opened Keys
  import opened Bindings
  import opened Plan
  import opened PlanCleanup
  import opened Wire

  /** What error classification (syncer/retry.go, tc_cvm.go) can tell about an error. */
  datatype Failure = Failure(retryable: bool, alreadyExists: bool, alreadyGone: bool, versionMismatch: bool,
                             notFound: bool)

  /** A version mismatch is always among the retryable errors. */
  predicate Classified(f: Failure) { f.versionMismatch ==> f.retryable }

  datatype Snapshot = Read(snapshot: RuleSnapshot) | Unread(failure: Failure)

  /** A rule without the locators the cloud assigns. */
  function Body(r: RuleInfo): RuleInfo { r.(policyIndex := "", ruleID := "") }

  function Bodies(rs: seq<RuleInfo>): (b: seq<RuleInfo>)
    ensures |b| == |rs| && forall i :: 0 <= i < |rs| ==> b[i] == Body(rs[i])
  {
    seq(|rs|, i requires 0 <= i < |rs| => Body(rs[i]))
  }

  function DecodeAll(ct: CloudType, rules: seq<CloudRule>): (rs: seq<RuleInfo>)
    ensures |rs| == |rules| && forall i :: 0 <= i < |rs| ==> rs[i] == Decode(ct, rules[i])
  {
    seq(|rules|, i requires 0 <= i < |rules| => Decode(ct, rules[i]))
  }

  /** The body a request entry will be read back as. */
  function StoredBody(ct: CloudType, w: WireRule): RuleInfo { Body(Decode(ct, CloudRule(Stored(w), "", None))) }

  function StoredBodies(ct: CloudType, ws: seq<WireRule>): (bs: seq<RuleInfo>)
    ensures |bs| == |ws| && forall i :: 0 <= i < |ws| ==> bs[i] == StoredBody(ct, ws[i])
  {
    seq(|ws|, i requires 0 <= i < |ws| => StoredBody(ct, ws[i]))
  }

  /** What one ECS request may carry. */
  const ECS_BATCH: nat := 100

  /** How a delete request names its rules. */
  datatype Locator = ByValue(rules: seq<RuleInfo>) | ByIndex(indexes: seq<int>) | ByID(ids: seq<string>)

  /** Whether a delete request names this rule. */
  predicate Hits(l: Locator, r: RuleInfo) {
    match l
    case ByValue(rs) => exists x :: x in rs && ValueMatches(x, r)
    case ByIndex(ixs) => exists i :: i in ixs && ParseInt64(Trim(r.policyIndex)) == Some(i)
    case ByID(ids) => r.ruleID in ids
  }

  ghost function Unhit(l: Locator, rs: seq<RuleInfo>): seq<RuleInfo> {
    if rs == [] then []
    else Unhit(l, rs[..|rs| - 1]) + (if Hits(l, rs[|rs| - 1]) then [] else [rs[|rs| - 1]])
  }

  predicate HasID(r: RuleInfo) { Trim(r.ruleID) != "" }

  /** Usable locators name at most one rule. */
  ghost predicate UniqueLocators(ct: CloudType, rs: seq<RuleInfo>) {
    forall i, j :: 0 <= i < j < |rs| ==>
      && (Alibaba(ct) && HasID(rs[i]) ==> rs[i].ruleID != rs[j].ruleID)
      && (ct == TCCVM && ParseInt64(Trim(rs[i].policyIndex)).Some?
          ==> ParseInt64(Trim(rs[i].policyIndex)) != ParseInt64(Trim(rs[j].policyIndex)))
  }

  /** Every rule is there under what its ID names. */
  ghost predicate KnownIDs(bs: seq<Binding>, rs: seq<RuleInfo>) {
    forall r :: r in rs && HasID(r) ==> Bound(bs, r.ruleID) == Some(Body(r))
  }

  /** All there is to know about the cloud at one instant: what a complete read would show, and the history
      that led there. */
  datatype Moment = Moment(
    view: seq<RuleInfo>, revision: nat,
    /** Every rule ID handed out or rebound, in order. */
    bindings: seq<Binding>,
    /** The rules this client's requests took out by ID. */
    strikes: seq<Strike>,
    /** Bodies this client's own requests put in and took out. */
    added: multiset<RuleInfo>, removed: multiset<RuleInfo>,
    /** Create and delete requests sent. */
    creates: nat, deletes: nat,
    /** Changes made by anybody else, and requests this cloud did not carry out as asked. */
    foreign: nat, faults: nat)

  ghost function Contents(m: Moment): multiset<RuleInfo> { multiset(Bodies(m.view)) }

  ghost predicate Sound(ct: CloudType, m: Moment) {
    UniqueLocators(ct, m.view) && (Alibaba(ct) ==> KnownIDs(m.bindings, m.view))
  }

  /** While nobody else interferes, what is there is what was there plus what this client added minus what
      it removed. */
  ghost predicate Balanced(a: Moment, b: Moment) {
    b.foreign == a.foreign ==> Contents(b) + b.removed + a.added == Contents(a) + a.removed + b.added
  }

  /** The books of rule IDs only grow; an ID is rebound only by somebody else, and what was taken out by ID
      is what the ID named at that moment. */
  ghost predicate Booked(a: Moment, b: Moment) {
    && a.bindings <= b.bindings && (b.foreign == a.foreign ==> OnlyNewIDs(a.bindings, b.bindings))
    && a.strikes <= b.strikes && StrikesFit(b.strikes, |a.strikes|, b.bindings, |a.bindings|)
  }

  /** What any stretch of time keeps: revisions grow with every change, books and counters only grow. */
  ghost predicate Later(a: Moment, b: Moment) {
    && a.revision <= b.revision && (a.revision == b.revision ==> a.view == b.view)
    && Booked(a, b)
    && a.added <= b.added && a.removed <= b.removed
    && a.creates <= b.creates && a.deletes <= b.deletes
    && a.foreign <= b.foreign && a.faults <= b.faults
    && Balanced(a, b)
  }

  lemma LaterTransitive(a: Moment, b: Moment, c: Moment)
    requires Later(a, b) && Later(b, c)
    ensures Later(a, c)
  {
    hide Contents, Balanced, Booked;
    BalancedTransitive(a, b, c);
    BookedTransitive(a, b, c);
  }

  lemma BookedTransitive(a: Moment, b: Moment, c: Moment)
    requires Booked(a, b) && Booked(b, c) && a.foreign <= b.foreign <= c.foreign
    ensures Booked(a, c)
  {
    hide StrikesFit, OnlyNewIDs, BoundAt;
    if c.foreign == a.foreign { OnlyNewTransitive(a.bindings, b.bindings, c.bindings); }
    StrikesStillFit(b.strikes, c.strikes, |a.strikes|, b.bindings, c.bindings, |a.bindings|);
  }

  lemma BalancedTransitive(a: Moment, b: Moment, c: Moment)
    requires Balanced(a, b) && Balanced(b, c) && a.foreign <= b.foreign <= c.foreign
    ensures Balanced(a, c)
  {
    hide Contents;
    if c.foreign == a.foreign {
      var (x, y, z) := (Contents(a), Contents(b), Contents(c));
      var (was, is_) := (x + a.removed + c.added, z + c.removed + a.added);
      forall r ensures is_[r] == was[r] {
        assert (y + b.removed + a.added)[r] == (x + a.removed + b.added)[r];
        assert (z + c.removed + b.added)[r] == (y + b.removed + c.added)[r];
      }
      assert is_ == was;
    }
  }

  /** Neither other clients nor faults between the two instants. */
  predicate Quiet(a: Moment, b: Moment) { b.foreign == a.foreign && b.faults == a.faults }

  function Put(a: Moment, b: Moment): multiset<RuleInfo> { b.added - a.added }

  function Taken(a: Moment, b: Moment): multiset<RuleInfo> { b.removed - a.removed }

  function RevisionText(ct: CloudType, revision: nat): string {
    if Tencent(ct) then Decimal(revision) else ""
  }

  /** When a snapshot was taken: at which revision, and after how many bindings its reading began. */
  datatype Stamp = Stamp(revision: nat, since: nat)

  /** Every rule was there under its ID at some instant of the reading. */
  ghost predicate SeenIDs(bs: seq<Binding>, since: nat, rs: seq<RuleInfo>) {
    forall r :: r in rs && HasID(r) ==> exists n: nat :: since <= n && BoundAt(bs, n, r.ruleID, Body(r))
  }

  /** A snapshot taken at revision `v`, at this instant or before. */
  ghost predicate Seen(ct: CloudType, m: Moment, s: RuleSnapshot, v: Stamp) {
    && v.revision <= m.revision && v.since <= |m.bindings| && s.revision == RevisionText(ct, v.revision)
    && (Tencent(ct) && v.revision == m.revision ==> s.rules == m.view)
    && (Alibaba(ct) ==> SeenIDs(m.bindings, v.since, s.rules))
  }

  // ------------------------------------------------------------- a cloud that behaves

  /** Every rule carries a serial number of its own, which serves as index and as ID. */
  ghost predicate Numbered(rules: seq<CloudRule>, serial: nat) {
    && (forall i :: 0 <= i < |rules| ==> rules[i].policyIndex.Some? && 0 <= rules[i].policyIndex.value < serial
                                         && rules[i].ruleID == Decimal(rules[i].policyIndex.value))
    && forall i, j :: 0 <= i < j < |rules| ==> rules[i].policyIndex != rules[j].policyIndex
  }

  ghost predicate IDsBelow(bs: seq<Binding>, serial: nat) {
    forall i :: 0 <= i < |bs| ==> Digits(bs[i].id) && DigitsValue(bs[i].id) < serial
  }

  lemma {:induction false} FreeAbove(bs: seq<Binding>, serial: nat, n: nat)
    requires IDsBelow(bs, serial) && serial <= n
    ensures Bound(bs, Decimal(n)) == None
  {
    hide Decimal, Digits, DigitsValue;
    if bs != [] { FreeAbove(bs[..|bs| - 1], serial, n); }
  }

  lemma SerialTexts(a: nat, b: nat)
    requires a != b
    ensures Decimal(a) != Decimal(b) && Trim(Decimal(a)) != ""
    ensures ParseInt64(Trim(Decimal(a))).Some? ==> ParseInt64(Trim(Decimal(a))) != ParseInt64(Trim(Decimal(b)))
  {
    hide Decimal, Trim;
    TrimOfTrimmed(Decimal(a));
    TrimOfTrimmed(Decimal(b));
    assert Digit(Decimal(a)[0]) && Digit(Decimal(b)[0]);
  }

  lemma NumberedIsUnique(ct: CloudType, rules: seq<CloudRule>, serial: nat)
    requires Numbered(rules, serial)
    ensures UniqueLocators(ct, DecodeAll(ct, rules))
  {
    hide Decimal, Trim, ParseInt64, Digits, NormalizeAliPort, Upper;
    var view := DecodeAll(ct, rules);
    forall i, j | 0 <= i < j < |view|
      ensures Alibaba(ct) && HasID(view[i]) ==> view[i].ruleID != view[j].ruleID
      ensures ct == TCCVM && ParseInt64(Trim(view[i].policyIndex)).Some?
              ==> ParseInt64(Trim(view[i].policyIndex)) != ParseInt64(Trim(view[j].policyIndex))
    {
      SerialTexts(rules[i].policyIndex.value, rules[j].policyIndex.value);
    }
  }

  /** The stored rules of a request, numbered from `serial` on. */
  function Fresh(entries: seq<WireRule>, serial: nat): (rs: seq<CloudRule>)
    ensures |rs| == |entries|
  {
    seq(|entries|, i requires 0 <= i < |entries| => CloudRule(Stored(entries[i]), Decimal(serial + i), Some(serial + i)))
  }

  lemma FreshIsNumbered(rules: seq<CloudRule>, entries: seq<WireRule>, serial: nat)
    requires Numbered(rules, serial)
    ensures Numbered(rules + Fresh(entries, serial), serial + |entries|)
  {
    hide Decimal;
  }

  lemma DecodedBody(ct: CloudType, w: WireRule, id: string, index: Option<int>)
    ensures Body(Decode(ct, CloudRule(Stored(w), id, index))) == StoredBody(ct, w)
  {
    hide Stored, Upper, NormalizeAliPort, IndexText;
  }

  lemma BodiesAppend(ct: CloudType, rules: seq<CloudRule>, entries: seq<WireRule>, serial: nat)
    ensures Bodies(DecodeAll(ct, rules + Fresh(entries, serial))) == Bodies(DecodeAll(ct, rules)) + StoredBodies(ct, entries)
  {
    hide Decode, Stored, Body, StoredBody, Decimal;
    var all := DecodeAll(ct, rules + Fresh(entries, serial));
    forall i | 0 <= i < |all|
      ensures Bodies(all)[i] == (Bodies(DecodeAll(ct, rules)) + StoredBodies(ct, entries))[i]
    {
      if i >= |rules| {
        DecodedBody(ct, entries[i - |rules|], Decimal(serial + (i - |rules|)), Some(serial + (i - |rules|)));
      }
    }
  }

  /** The bindings after the rules of a request got their IDs. */
  ghost function Learned(ct: CloudType, bs: seq<Binding>, entries: seq<WireRule>, serial: nat): seq<Binding> {
    if entries == [] then bs
    else
      var n := |entries| - 1;
      Learned(ct, bs, entries[..n], serial) + [Binding(Decimal(serial + n), StoredBody(ct, entries[n]))]
  }

  ghost predicate Learnt(ct: CloudType, all: seq<Binding>, entries: seq<WireRule>, serial: nat, i: nat)
    requires i < |entries|
  {
    Bound(all, Decimal(serial + i)) == Some(StoredBody(ct, entries[i]))
  }

  lemma LearntThen(ct: CloudType, before: seq<Binding>, entries: seq<WireRule>, serial: nat, i: nat)
    requires i < |entries| && (i < |entries| - 1 ==> Learnt(ct, before, entries[..|entries| - 1], serial, i))
    ensures Learnt(ct, before + [Binding(Decimal(serial + |entries| - 1), StoredBody(ct, entries[|entries| - 1]))], entries, serial, i)
  {
    hide Decimal, StoredBody;
    var n := |entries| - 1;
    var all := before + [Binding(Decimal(serial + n), StoredBody(ct, entries[n]))];
    assert all[..|all| - 1] == before;
    if i < n { SerialTexts(serial + i, serial + n); }
  }

  lemma {:induction false} LearnedFits(ct: CloudType, bs: seq<Binding>, entries: seq<WireRule>, serial: nat)
    requires IDsBelow(bs, serial)
    ensures var all := Learned(ct, bs, entries, serial);
            OnlyNewIDs(bs, all) && IDsBelow(all, serial + |entries|) && forall i :: 0 <= i < |entries| ==> Learnt(ct, all, entries, serial, i)
  {
    hide Decimal, StoredBody, Digits, DigitsValue, OnlyNewIDs, IDsBelow, Bound, Learnt;
    if entries == [] {
      NothingNew(bs);
    } else {
      var n := |entries| - 1;
      LearnedFits(ct, bs, entries[..n], serial);
      var (before, all) := (Learned(ct, bs, entries[..n], serial), Learned(ct, bs, entries, serial));
      FreeAbove(before, serial + n, serial + n);
      OneNew(before, Binding(Decimal(serial + n), StoredBody(ct, entries[n])));
      assert Decimal(serial + n) == Decimal(serial + |entries| - 1);
      OnlyNewTransitive(bs, before, all);
      OneBelow(before, serial + n, StoredBody(ct, entries[n]));
      forall i | 0 <= i < |entries| ensures Learnt(ct, all, entries, serial, i) {
        if i < n { assert Learnt(ct, before, entries[..n], serial, i); }
        LearntThen(ct, before, entries, serial, i);
      }
    }
  }

  lemma NothingNew(bs: seq<Binding>)
    ensures OnlyNewIDs(bs, bs)
  {
  }

  lemma OneNew(bs: seq<Binding>, x: Binding)
    requires Bound(bs, x.id) == None
    ensures OnlyNewIDs(bs, bs + [x])
  {
    assert (bs + [x])[..|bs|] == bs;
  }

  lemma OneBelow(bs: seq<Binding>, n: nat, body: RuleInfo)
    requires IDsBelow(bs, n)
    ensures IDsBelow(bs + [Binding(Decimal(n), body)], n + 1)
  {
    hide Decimal, Digits, DigitsValue;
  }

  lemma KnowsAll(ct: CloudType, bs: seq<Binding>, rules: seq<CloudRule>, entries: seq<WireRule>, serial: nat)
    requires Alibaba(ct) && KnownIDs(bs, DecodeAll(ct, rules)) && IDsBelow(bs, serial)
    ensures KnownIDs(Learned(ct, bs, entries, serial), DecodeAll(ct, rules + Fresh(entries, serial)))
  {
    hide Decode, Stored, Body, StoredBody, Decimal, IDsBelow, Learned, HasID, OnlyNewIDs;
    LearnedFits(ct, bs, entries, serial);
    var (all, view) := (Learned(ct, bs, entries, serial), DecodeAll(ct, rules + Fresh(entries, serial)));
    forall r | r in view && HasID(r) ensures Bound(all, r.ruleID) == Some(Body(r)) {
      var i :| 0 <= i < |view| && view[i] == r;
      if i < |rules| {
        assert r == DecodeAll(ct, rules)[i];
        StillBound(bs, all, r.ruleID);
      } else {
        assert Learnt(ct, all, entries, serial, i - |rules|);
        DecodedBody(ct, entries[i - |rules|], Decimal(serial + (i - |rules|)), Some(serial + (i - |rules|)));
        AliKeepsID(ct, Stored(entries[i - |rules|]), Decimal(serial + (i - |rules|)), Some(serial + (i - |rules|)));
      }
    }
  }

  lemma StillBound(before: seq<Binding>, after: seq<Binding>, id: string)
    requires OnlyNewIDs(before, after) && Bound(before, id).Some?
    ensures Bound(after, id) == Bound(before, id)
  {
    assert after[..|before|] == before && after[..|after|] == after;
    BoundForGood(after, |before|, |before|, |after|, id);
  }

  lemma AliKeepsID(ct: CloudType, w: WireRule, id: string, index: Option<int>)
    requires Alibaba(ct)
    ensures Decode(ct, CloudRule(w, id, index)).ruleID == id
  {
    hide Upper, NormalizeAliPort;
  }

  /** The rules a delete request leaves. */
  ghost function Left(ct: CloudType, l: Locator, rules: seq<CloudRule>): seq<CloudRule> {
    if rules == [] then []
    else
      var last := rules[|rules| - 1];
      Left(ct, l, rules[..|rules| - 1]) + if Hits(l, Decode(ct, last)) then [] else [last]
  }

  lemma {:induction false} LeftIsUnhit(ct: CloudType, l: Locator, rules: seq<CloudRule>)
    ensures DecodeAll(ct, Left(ct, l, rules)) == Unhit(l, DecodeAll(ct, rules))
  {
    hide Hits, Decode;
    if rules != [] {
      var init, last := rules[..|rules| - 1], rules[|rules| - 1];
      LeftIsUnhit(ct, l, init);
      assert DecodeAll(ct, rules)[..|rules| - 1] == DecodeAll(ct, init);
      var left := Left(ct, l, init);
      if !Hits(l, Decode(ct, last)) { assert DecodeAll(ct, left + [last]) == DecodeAll(ct, left) + [Decode(ct, last)]; }
    }
  }

  lemma {:induction false} LeftIsPart(ct: CloudType, l: Locator, rules: seq<CloudRule>, serial: nat)
    requires Numbered(rules, serial)
    ensures Numbered(Left(ct, l, rules), serial) && forall r :: r in Left(ct, l, rules) ==> r in rules
  {
    hide Hits, Decode, Decimal;
    if rules != [] {
      var init, last := rules[..|rules| - 1], rules[|rules| - 1];
      assert rules == init + [last];
      LeftIsPart(ct, l, init, serial);
      var left := Left(ct, l, init);
      forall i | 0 <= i < |left| ensures left[i].policyIndex != last.policyIndex {
        assert left[i] in init;
        var j :| 0 <= j < |init| && init[j] == left[i];
        assert rules[j] == left[i] && rules[|rules| - 1] == last;
      }
    }
  }

  ghost function Gone(l: Locator, view: seq<RuleInfo>): multiset<RuleInfo> {
    if view == [] then multiset{}
    else Gone(l, view[..|view| - 1]) + if Hits(l, view[|view| - 1]) then multiset{Body(view[|view| - 1])} else multiset{}
  }

  lemma {:induction false} GoneAndLeft(l: Locator, view: seq<RuleInfo>)
    ensures multiset(Bodies(view)) == multiset(Bodies(Unhit(l, view))) + Gone(l, view)
  {
    hide Hits, Body;
    if view != [] {
      var init, last := view[..|view| - 1], view[|view| - 1];
      GoneAndLeft(l, init);
      assert view == init + [last];
      BodiesOneMore(init, last);
      if Hits(l, last) {
        assert Unhit(l, view) == Unhit(l, init) && Gone(l, view) == Gone(l, init) + multiset{Body(last)};
      } else {
        BodiesOneMore(Unhit(l, init), last);
        assert Unhit(l, view) == Unhit(l, init) + [last] && Gone(l, view) == Gone(l, init);
      }
    }
  }

  lemma BodiesOneMore(rs: seq<RuleInfo>, r: RuleInfo)
    ensures multiset(Bodies(rs + [r])) == multiset(Bodies(rs)) + multiset{Body(r)}
  {
    hide Body;
    assert Bodies(rs + [r]) == Bodies(rs) + [Body(r)];
  }

  ghost predicate HitWithBody(l: Locator, view: seq<RuleInfo>, b: RuleInfo) { exists r :: r in view && Hits(l, r) && Body(r) == b }

  lemma {:induction false} GoneWasHit(l: Locator, view: seq<RuleInfo>)
    ensures forall b :: b in Gone(l, view) ==> HitWithBody(l, view, b)
  {
    hide Hits, Body;
    if view != [] {
      var init, last := view[..|view| - 1], view[|view| - 1];
      GoneWasHit(l, init);
      forall b | b in Gone(l, view) ensures HitWithBody(l, view, b) {
        if b in Gone(l, init) {
          var r :| r in init && Hits(l, r) && Body(r) == b;
          assert r in view;
        } else {
          assert last in view && Hits(l, last) && Body(last) == b;
        }
      }
    }
  }

  lemma StillKnown(ct: CloudType, bs: seq<Binding>, l: Locator, rules: seq<CloudRule>)
    requires KnownIDs(bs, DecodeAll(ct, rules)) && forall r :: r in Left(ct, l, rules) ==> r in rules
    ensures KnownIDs(bs, DecodeAll(ct, Left(ct, l, rules)))
  {
    hide Hits, Decode, HasID, Body;
    var left := Left(ct, l, rules);
    forall r | r in DecodeAll(ct, left) && HasID(r) ensures Bound(bs, r.ruleID) == Some(Body(r)) {
      var i :| 0 <= i < |left| && DecodeAll(ct, left)[i] == r;
      assert left[i] in rules;
      var j :| 0 <= j < |rules| && rules[j] == left[i];
      assert DecodeAll(ct, rules)[j] == r;
    }
  }

  lemma RelocatedSelf(ct: CloudType, rs: seq<RuleInfo>)
    ensures RelocatedAll(ct, rs, rs)
  {
    hide ParseInt64, Trim;
  }

  ghost function AfterCreate(ct: CloudType, m: Moment, rules: seq<CloudRule>, entries: seq<WireRule>, serial: nat): Moment {
    m.(view := DecodeAll(ct, rules + Fresh(entries, serial)), revision := m.revision + 1,
       bindings := Learned(ct, m.bindings, entries, serial), added := m.added + multiset(StoredBodies(ct, entries)))
  }

  lemma AfterCreateFields(ct: CloudType, m: Moment, rules: seq<CloudRule>, entries: seq<WireRule>, serial: nat)
    ensures var b := AfterCreate(ct, m, rules, entries, serial);
            && b.view == DecodeAll(ct, rules + Fresh(entries, serial)) && b.revision == m.revision + 1 && b.removed == m.removed
            && b.strikes == m.strikes
            && b.creates == m.creates && b.deletes == m.deletes && b.foreign == m.foreign && b.faults == m.faults
  {
    hide DecodeAll, Fresh, Learned, StoredBodies;
  }

  lemma CreateBehaves(ct: CloudType, m: Moment, rules: seq<CloudRule>, entries: seq<WireRule>, serial: nat)
    requires m.view == DecodeAll(ct, rules) && Sound(ct, m) && Numbered(rules, serial) && IDsBelow(m.bindings, serial)
    ensures var b := AfterCreate(ct, m, rules, entries, serial);
            && Sound(ct, b) && Later(m, b) && Put(m, b) == multiset(StoredBodies(ct, entries))
            && Numbered(rules + Fresh(entries, serial), serial + |entries|) && IDsBelow(b.bindings, serial + |entries|)
  {
    hide UniqueLocators, Numbered, IDsBelow, KnownIDs, Learned, Learnt, Decode, StoredBody, Body, OnlyNewIDs, Fresh;
    FreshIsNumbered(rules, entries, serial);
    NumberedIsUnique(ct, rules + Fresh(entries, serial), serial + |entries|);
    BodiesAppend(ct, rules, entries, serial);
    LearnedFits(ct, m.bindings, entries, serial);
    if Alibaba(ct) { KnowsAll(ct, m.bindings, rules, entries, serial); }
    var b := AfterCreate(ct, m, rules, entries, serial);
    assert m.bindings <= b.bindings by { NewIsMore(m.bindings, b.bindings); }
    ContentsOfAppended(ct, m, b, multiset(StoredBodies(ct, entries)));
  }

  lemma NewIsMore(before: seq<Binding>, after: seq<Binding>)
    requires OnlyNewIDs(before, after)
    ensures before <= after
  {
  }

  lemma ContentsOfAppended(ct: CloudType, m: Moment, b: Moment, bodies: multiset<RuleInfo>)
    requires Contents(b) == Contents(m) + bodies && b.added == m.added + bodies && b.removed == m.removed
    ensures Balanced(m, b) && b.added - m.added == bodies
  {
    hide Contents;
  }

  /** The rules a delete request by ID takes out, as strikes. */
  ghost function Struck(l: Locator, view: seq<RuleInfo>, at: nat): seq<Strike> {
    if view == [] then []
    else
      var last := view[|view| - 1];
      Struck(l, view[..|view| - 1], at) + if Hits(l, last) then [Strike(last.ruleID, Body(last), at)] else []
  }

  lemma {:induction false} StruckAreGone(l: Locator, view: seq<RuleInfo>, at: nat)
    ensures StruckBodies(Struck(l, view, at)) == Gone(l, view)
  {
    hide Hits, Body;
    if view != [] {
      StruckAreGone(l, view[..|view| - 1], at);
      var (before, last) := (Struck(l, view[..|view| - 1], at), view[|view| - 1]);
      if Hits(l, last) {
        var all := before + [Strike(last.ruleID, Body(last), at)];
        assert all[..|all| - 1] == before;
        assert StruckBodies(all) == StruckBodies(before) + multiset{Body(last)};
      } else {
        assert Struck(l, view, at) == before;
      }
    }
  }

  lemma {:induction false} StruckWereBound(bs: seq<Binding>, l: Locator, view: seq<RuleInfo>)
    requires l.ByID? && forall r :: r in view ==> Bound(bs, r.ruleID) == Some(Body(r))
    ensures forall i :: 0 <= i < |Struck(l, view, |bs|)| ==>
              var x := Struck(l, view, |bs|)[i]; x.at == |bs| && x.id in l.ids && BoundAt(bs, |bs|, x.id, x.body)
  {
    hide Body;
    assert bs[..|bs|] == bs;
    if view != [] {
      assert forall r :: r in view[..|view| - 1] ==> r in view;
      StruckWereBound(bs, l, view[..|view| - 1]);
    }
  }

  ghost function StrikesOf(ct: CloudType, m: Moment, l: Locator): seq<Strike> {
    if Alibaba(ct) then Struck(l, m.view, |m.bindings|) else []
  }

  ghost function AfterDelete(ct: CloudType, m: Moment, rules: seq<CloudRule>, l: Locator): Moment {
    m.(view := DecodeAll(ct, Left(ct, l, rules)), revision := m.revision + 1, removed := m.removed + Gone(l, m.view),
       strikes := m.strikes + StrikesOf(ct, m, l))
  }

  /** What a delete request by ID took out is what its strikes say. */
  ghost predicate TookStruck(a: Moment, b: Moment, ids: seq<string>) {
    && a.strikes <= b.strikes && Taken(a, b) == StruckBodies(b.strikes[|a.strikes|..])
    && forall i :: |a.strikes| <= i < |b.strikes| ==> b.strikes[i].id in ids
  }

  lemma HonestStrikes(ct: CloudType, m: Moment, rules: seq<CloudRule>, l: Locator, serial: nat)
    requires m.view == DecodeAll(ct, rules) && Sound(ct, m) && Numbered(rules, serial) && (l.ByID? <==> Alibaba(ct))
    ensures var b := AfterDelete(ct, m, rules, l);
            StrikesFit(b.strikes, |m.strikes|, b.bindings, |m.bindings|) && (l.ByID? ==> TookStruck(m, b, l.ids))
  {
    hide UniqueLocators, Decode, Body, Left, Hits, Gone, Numbered, BoundAt;
    var b := AfterDelete(ct, m, rules, l);
    if l.ByID? {
      forall r | r in m.view ensures Bound(m.bindings, r.ruleID) == Some(Body(r)) { NumberedHasID(ct, rules, serial, r); }
      StruckWereBound(m.bindings, l, m.view);
      StruckAreGone(l, m.view, |m.bindings|);
      assert b.strikes[|m.strikes|..] == StrikesOf(ct, m, l);
      assert Taken(m, b) == Gone(l, m.view);
    }
  }

  lemma NumberedHasID(ct: CloudType, rules: seq<CloudRule>, serial: nat, r: RuleInfo)
    requires Alibaba(ct) && Numbered(rules, serial) && r in DecodeAll(ct, rules)
    ensures HasID(r)
  {
    hide Decode, Decimal, Trim;
    var i :| 0 <= i < |rules| && DecodeAll(ct, rules)[i] == r;
    AliKeepsID(ct, rules[i].wire, rules[i].ruleID, rules[i].policyIndex);
    DigitsAreNotBlank(r.ruleID);
  }

  lemma DeleteBehaves(ct: CloudType, m: Moment, rules: seq<CloudRule>, l: Locator, serial: nat)
    requires m.view == DecodeAll(ct, rules) && Sound(ct, m) && Numbered(rules, serial) && (l.ByID? <==> Alibaba(ct))
    ensures var b := AfterDelete(ct, m, rules, l);
            && Sound(ct, b) && Later(m, b) && Taken(m, b) == Gone(l, m.view) && Numbered(Left(ct, l, rules), serial)
            && RelocatedAll(ct, Unhit(l, m.view), b.view) && (l.ByID? ==> TookStruck(m, b, l.ids))
  {
    hide UniqueLocators, Numbered, KnownIDs, Decode, Body, Left, Hits, Unhit, Gone, RelocatedAll, StrikesOf, StrikesFit, TookStruck;
    HonestStrikes(ct, m, rules, l, serial);
    LeftIsUnhit(ct, l, rules);
    LeftIsPart(ct, l, rules, serial);
    NumberedIsUnique(ct, Left(ct, l, rules), serial);
    GoneAndLeft(l, m.view);
    RelocatedSelf(ct, Unhit(l, m.view));
    if Alibaba(ct) { StillKnown(ct, m.bindings, l, rules); }
    var b := AfterDelete(ct, m, rules, l);
    assert Contents(m) == Contents(b) + Gone(l, m.view);
    assert b.removed - m.removed == Gone(l, m.view);
  }

  lemma TriedOnly(ct: CloudType, m: Moment)
    requires Sound(ct, m)
    ensures Sound(ct, m.(creates := m.creates + 1)) && Later(m, m.(creates := m.creates + 1)) && Put(m, m) == multiset{}
    ensures Sound(ct, m.(deletes := m.deletes + 1)) && Later(m, m.(deletes := m.deletes + 1)) && Taken(m, m) == multiset{}
  {
    hide UniqueLocators, KnownIDs, Bodies;
  }

  class Cloud {
    const ct: CloudType
    var rules: seq<CloudRule>
    var revision: nat
    var serial: nat
    ghost var bindings: seq<Binding>
    ghost var strikes: seq<Strike>
    ghost var added: multiset<RuleInfo>
    ghost var removed: multiset<RuleInfo>
    ghost var creates: nat
    ghost var deletes: nat
    ghost var foreign: nat
    ghost var faults: nat

    ghost function Now(): Moment
      reads this
    {
      Moment(DecodeAll(ct, rules), revision, bindings, strikes, added, removed, creates, deletes, foreign, faults)
    }

    ghost predicate Valid()
      reads this
    {
      Sound(ct, Now()) && Numbered(rules, serial) && IDsBelow(bindings, serial)
    }

    constructor (ct: CloudType)
      ensures this.ct == ct && Valid() && Now() == Moment([], 0, [], [], multiset{}, multiset{}, 0, 0, 0, 0)
    {
      this.ct, rules, revision, serial := ct, [], 0, 0;
      bindings, strikes, added, removed := [], [], multiset{}, multiset{};
      creates, deletes, foreign, faults := 0, 0, 0, 0;
    }

    /** Reads the complete rule list. Tencent reads are atomic; an Alibaba read that others interfere
        with may mix states, but every rule in it was really there under its ID at some instant. */
    method Describe() returns (r: Snapshot, ghost v: Stamp)
      requires Valid()
      modifies this
      ensures Valid() && Later(old(Now()), Now())
      ensures unchanged(`added, `removed, `strikes, `creates, `deletes)
      ensures foreign == old(foreign) ==> Now().view == old(Now().view) && revision == old(revision)
      ensures r.Unread? ==> faults > old(faults) && Classified(r.failure)
      ensures r.Read? ==> Seen(ct, Now(), r.snapshot, v) && v.since >= |old(bindings)|
      ensures r.Read? && foreign == old(foreign) ==> r.snapshot.rules == Now().view && v.revision == revision
    {
      hide UniqueLocators, Numbered, IDsBelow, Decimal, HasID;
      assert bindings[..|bindings|] == bindings;
      assert Alibaba(ct) ==> forall r :: r in Now().view && HasID(r) ==> BoundAt(bindings, |bindings|, r.ruleID, Body(r));
      r := Read(RuleSnapshot(DecodeAll(ct, rules), RevisionText(ct, revision)));
      v := Stamp(revision, |bindings|);
    }

    /** The ingress statistics of a security group, which a response may leave out. */
    method Statistics() returns (total: Option<nat>)
    {
      total := None;
    }

    /** One create request; on Tencent it carries the version it is meant for. Any part of it may be carried
        out, whatever is reported. */
    method Create(guard: string, entries: seq<WireRule>) returns (err: Option<Failure>)
      requires Valid() && (ct == AliECS ==> |entries| <= ECS_BATCH)
      modifies this
      ensures Valid() && Later(old(Now()), Now())
      ensures unchanged(`removed, `strikes, `deletes) && creates == old(creates) + 1
      ensures Put(old(Now()), Now()) <= multiset(StoredBodies(ct, entries))
      ensures err.Some? ==> Classified(err.value)
      ensures Quiet(old(Now()), Now()) && (Tencent(ct) ==> guard == Decimal(old(revision)))
              ==> err.None? && Put(old(Now()), Now()) == multiset(StoredBodies(ct, entries))
    {
      hide Sound, Later, Numbered, IDsBelow, Decimal, Put, AfterCreate, StoredBodies;
      ghost var m := Now();
      TriedOnly(ct, m);
      creates := creates + 1;
      ghost var tried := Now();
      SamePut(m, m);
      SamePut(m, tried);
      if Tencent(ct) && guard != Decimal(revision) {
        return Some(Failure(true, false, false, true, false));
      }
      Insert(entries);
      LaterTransitive(m, tried, Now());
      SamePut(m, Now());
      SamePut(tried, Now());
      err := None;
    }

    /** Carries a create request out. */
    method Insert(entries: seq<WireRule>)
      requires Valid()
      modifies this`rules, this`serial, this`revision, this`bindings, this`added
      ensures Valid() && Later(old(Now()), Now()) && Put(old(Now()), Now()) == multiset(StoredBodies(ct, entries))
      ensures foreign == old(foreign) && faults == old(faults)
    {
      hide Sound, Later, Numbered, IDsBelow, Put, Learned, DecodeAll, AfterCreate;
      CreateBehaves(ct, Now(), rules, entries, serial);
      AfterCreateFields(ct, Now(), rules, entries, serial);
      Become(rules + Fresh(entries, serial), serial + |entries|, AfterCreate(ct, Now(), rules, entries, serial));
    }

    /** Takes on the state of a moment that holds these rules. */
    method Become(rules: seq<CloudRule>, serial: nat, ghost m: Moment)
      requires m.view == DecodeAll(ct, rules) && m.revision == revision + 1 && m.removed == removed && m.strikes == strikes
      requires m.creates == creates && m.deletes == deletes && m.foreign == foreign && m.faults == faults
      modifies this`rules, this`serial, this`revision, this`bindings, this`added
      ensures Now() == m && this.rules == rules && this.serial == serial
    {
      hide DecodeAll;
      this.rules, this.serial, revision := rules, serial, revision + 1;
      bindings, added := m.bindings, m.added;
    }

    /** One delete request. Whatever is reported, only rules it names disappear: under a version guard
        only if nothing changed since that version, by ID whatever the ID names at that moment. */
    method Delete(guard: string, l: Locator) returns (err: Option<Failure>)
      requires Valid() && l.ByID? == Alibaba(ct)
      requires ct == AliECS && l.ByID? ==> |l.ids| <= ECS_BATCH
      modifies this
      ensures Valid() && Later(old(Now()), Now())
      ensures unchanged(`added, `creates) && deletes == old(deletes) + 1
      ensures Tencent(ct) ==> forall b :: b in Taken(old(Now()), Now()) ==>
                guard == Decimal(old(revision)) && exists r :: r in old(Now().view) && Hits(l, r) && Body(r) == b
      ensures Tencent(ct) ==> strikes == old(strikes)
      ensures l.ByID? ==> TookStruck(old(Now()), Now(), l.ids)
      ensures err.Some? ==> Classified(err.value)
      ensures Quiet(old(Now()), Now()) && (Tencent(ct) ==> guard == Decimal(old(revision)))
              ==> err.None? && RelocatedAll(ct, Unhit(l, old(Now().view)), Now().view)
    {
      hide Sound, Later, Numbered, IDsBelow, Decimal, Taken, Gone, Hits, Unhit, RelocatedAll, Body, StruckBodies;
      ghost var m := Now();
      TriedOnly(ct, m);
      deletes := deletes + 1;
      ghost var tried := Now();
      SamePut(m, m);
      SamePut(m, tried);
      if Tencent(ct) && guard != Decimal(revision) {
        return Some(Failure(true, false, false, true, false));
      }
      Remove(l);
      LaterTransitive(m, tried, Now());
      SamePut(m, Now());
      SamePut(tried, Now());
      GoneWasHit(l, m.view);
      forall b | b in Gone(l, m.view) ensures exists r :: r in m.view && Hits(l, r) && Body(r) == b {
        assert HitWithBody(l, m.view, b);
      }
      err := None;
    }

    /** Carries a delete request out. */
    method Remove(l: Locator)
      requires Valid()
      requires l.ByID? <==> Alibaba(ct)
      modifies this`rules, this`revision, this`removed, this`strikes
      ensures Valid() && Later(old(Now()), Now()) && Taken(old(Now()), Now()) == Gone(l, old(Now().view))
      ensures if l.ByID? then TookStruck(old(Now()), Now(), l.ids) else strikes == old(strikes)
      ensures RelocatedAll(ct, Unhit(l, old(Now().view)), Now().view)
      ensures foreign == old(foreign) && faults == old(faults)
    {
      hide Sound, Later, Numbered, IDsBelow, Taken, Left, Gone, Unhit, RelocatedAll, DecodeAll;
      DeleteBehaves(ct, Now(), rules, l, serial);
      removed, strikes := removed + Gone(l, Now().view), strikes + StrikesOf(ct, Now(), l);
      KeepLeft(l);
    }

    /** Filters the stored rules. */
    method KeepLeft(l: Locator)
      modifies this`rules, this`revision
      ensures rules == Left(ct, l, old(rules)) && revision == old(revision) + 1
    {
      hide Decode, Hits;
      var kept: seq<CloudRule> := [];
      for i := 0 to |rules|
        invariant rules == old(rules) && revision == old(revision) && kept == Left(ct, l, rules[..i])
      {
        assert rules[..i + 1][..i] == rules[..i];
        if !Hits(l, Decode(ct, rules[i])) {
          kept := kept + [rules[i]];
        }
      }
      assert rules[..|rules|] == rules;
      rules, revision := kept, revision + 1;
    }
  }

  lemma SamePut(a: Moment, b: Moment)
    ensures Put(a, b) == b.added - a.added && Taken(a, b) == b.removed - a.removed
  {
  }

  lemma DigitsAreNotBlank(s: string)
    requires Digits(s)
    ensures Trim(s) != ""
  {
    hide Trim;
    assert s[0] in s && s[|s| - 1] in s;
    TrimOfTrimmed(s);
  }
}
