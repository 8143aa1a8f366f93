/** Importing a bundle into the store (webui/api/export.go, config/store.go), and the round trip: export,
    import, export is the identity up to a strictly increasing renaming of target IDs. */
module BundleRoundTrip {
  import opened Text
  import opened Tag
  import opened Plan
  import opened Validate
  import opened Config
  import opened Bundle

  ghost predicate Ascending(ids: seq<int>) { forall i, j :: 0 <= i < j < |ids| ==> ids[i] < ids[j] }

  // -------------------------------------------------------------------------- renaming

  /** The new ID of a target; IDs that are not renamed stay. */
  function Rename(from: seq<int>, to: seq<int>, x: int): int
    requires |from| == |to|
  {
    if from == [] then x else if from[0] == x then to[0] else Rename(from[1..], to[1..], x)
  }

  lemma {:induction false} RenameAt(from: seq<int>, to: seq<int>, i: nat)
    requires |from| == |to| && i < |from| && forall j :: 0 <= j < i ==> from[j] != from[i]
    ensures Rename(from, to, from[i]) == to[i]
  {
    if i > 0 {
      assert from[0] != from[i];
      assert from[1..][i - 1] == from[i];
      RenameAt(from[1..], to[1..], i - 1);
    }
  }

  function RenamedRefs(from: seq<int>, to: seq<int>, refs: seq<int>): (out: seq<int>)
    requires |from| == |to|
    ensures |out| == |refs| && forall i :: 0 <= i < |refs| ==> out[i] == Rename(from, to, refs[i])
  {
    seq(|refs|, i requires 0 <= i < |refs| => Rename(from, to, refs[i]))
  }

  function Renumbered(ts: seq<Target>, ids: seq<int>): (out: seq<Target>)
    requires |ts| == |ids|
    ensures |out| == |ts| && forall i :: 0 <= i < |ts| ==> out[i] == ts[i].(id := ids[i])
  {
    seq(|ts|, i requires 0 <= i < |ts| => ts[i].(id := ids[i]))
  }

  /** A bundle with other export IDs and every reference following them. */
  function RenamedRules(from: seq<int>, to: seq<int>, rs: seq<BundleRule>): (out: seq<BundleRule>)
    requires |from| == |to|
    ensures |out| == |rs| && forall i :: 0 <= i < |rs| ==> out[i] == rs[i].(refs := RenamedRefs(from, to, rs[i].refs))
  {
    seq(|rs|, i requires 0 <= i < |rs| => rs[i].(refs := RenamedRefs(from, to, rs[i].refs)))
  }

  function RenamedBundle(b: BundleV3, ids: seq<int>): BundleV3
    requires |ids| == |b.targets|
  {
    b.(targets := Renumbered(b.targets, ids), rules := RenamedRules(IDs(b.targets), ids, b.rules))
  }

  // ---------------------------------------------------------------------------- import

  function StoredRule(from: seq<int>, to: seq<int>, r: BundleRule, id: int): DomainRule
    requires |from| == |to|
  {
    DomainRule(id, r.host, r.protocol, r.ports, r.action, RenamedRefs(from, to, r.refs), r.comment, r.enableIPv6)
  }

  function StoredRules(from: seq<int>, to: seq<int>, rs: seq<BundleRule>, ids: seq<int>): (out: seq<DomainRule>)
    requires |from| == |to| && |ids| == |rs|
    ensures |out| == |rs| && forall i :: 0 <= i < |rs| ==> out[i] == StoredRule(from, to, rs[i], ids[i])
  {
    seq(|rs|, i requires 0 <= i < |rs| => StoredRule(from, to, rs[i], ids[i]))
  }

  /** The business tables after importing a checked bundle under the given new IDs. */
  function ImportedTables(c: BundleV3, ids: seq<int>, ruleIDs: seq<int>): Snapshot
    requires |ids| == |c.targets| && |ruleIDs| == |c.rules|
  {
    Snapshot(Renumbered(c.targets, ids), StoredRules(IDs(c.targets), ids, c.rules, ruleIDs), ToStore(c.settings),
             c.policy, c.email, c.webhook, c.push)
  }

  predicate Closed(s: Snapshot) {
    forall i, k :: 0 <= i < |s.rules| && 0 <= k < |s.rules[i].targets| ==> s.rules[i].targets[k] in IDSet(s.targets)
  }

  /** The map holds the new ID of each of the first `n` targets and nothing else. */
  ghost predicate Mapped(ts: seq<Target>, ids: seq<int>, idMap: map<int, int>, n: nat)
    requires n <= |ts|
  {
    && |ids| == n && idMap.Keys == IDSet(ts[..n])
    && forall j :: 0 <= j < n ==> ts[j].id in idMap && idMap[ts[j].id] == ids[j]
  }

  lemma NothingMapped(ts: seq<Target>)
    ensures Mapped(ts, [], map[], 0)
  {
  }

  lemma MapOne(ts: seq<Target>, ids: seq<int>, idMap: map<int, int>, n: nat, id: int)
    requires n < |ts| && Mapped(ts, ids, idMap, n) && AcceptedIDs(IDs(ts))
    ensures Mapped(ts, ids + [id], idMap[ts[n].id := id], n + 1)
  {
    assert ts[..n + 1] == ts[..n] + [ts[n]];
    assert IDSet(ts[..n + 1]) == IDSet(ts[..n]) + {ts[n].id};
    forall j | 0 <= j < n ensures ts[j].id != ts[n].id {
      assert IDs(ts)[j] != IDs(ts)[n];
    }
  }

  lemma AllMapped(ts: seq<Target>, ids: seq<int>, idMap: map<int, int>)
    requires Mapped(ts, ids, idMap, |ts|) && AcceptedIDs(IDs(ts))
    ensures idMap.Keys == IDSet(ts) && forall x :: x in idMap ==> idMap[x] == Rename(IDs(ts), ids, x)
  {
    hide Rename;
    assert ts[..|ts|] == ts;
    forall x | x in idMap ensures idMap[x] == Rename(IDs(ts), ids, x) {
      var t :| t in ts && t.id == x;
      var i :| 0 <= i < |ts| && ts[i] == t;
      assert IDs(ts)[i] == x;
      RenameAt(IDs(ts), ids, i);
    }
  }

  /** `LoadBusinessSnapshotTx`: a dangling reference or an invalid setting is an error, never repaired. */
  function Loaded(lib: Library, tables: Snapshot): Option<Snapshot> {
    if !Closed(tables) then None
    else match LoadSettings(lib, tables.settings) case None => None case Some(m) => Some(tables.(settings := m))
  }

  /** The business tables of the database. */
  class Store {
    var targets: seq<Target>
    var rules: seq<DomainRule>
    var settings: map<SettingKey, string>
    var policy: Policy
    var email: Email
    var webhook: Webhook
    var push: Push
    var scanned: seq<string>
    /** The next values of the two automatic IDs; deleting rows does not turn them back. */
    var nextTarget: int
    var nextRule: int

    ghost predicate Valid()
      reads this
    {
      && Ascending(IDs(targets)) && nextTarget > 0 && (forall t :: t in targets ==> 0 < t.id < nextTarget)
      && (forall r :: r in rules ==> r.id < nextRule)
    }

    ghost function Tables(): Snapshot
      reads this
    {
      Snapshot(targets, rules, settings, policy, email, webhook, push)
    }

    constructor ()
      ensures Valid()
    {
      targets, rules, settings, scanned, nextTarget, nextRule := [], [], map[], [], 1, 1;
      policy, email, webhook, push := DEFAULT_POLICY, NO_EMAIL, Webhook(false, "", ""), DEFAULT_PUSH;
    }

    /** Inserts a target under an ID that was never used before. */
    method AddTarget(t: Target) returns (id: int)
      requires Valid()
      modifies this`targets, this`nextTarget
      ensures Valid() && old(nextTarget) <= id < nextTarget && targets == old(targets) + [t.(id := id)]
    {
      var gap: int := *;
      id := if gap > 0 then nextTarget + gap else nextTarget;
      nextTarget := id + 1;
      targets := targets + [t.(id := id)];
    }

    method AddRule(r: DomainRule) returns (id: int)
      requires Valid()
      modifies this`rules, this`nextRule
      ensures Valid() && old(nextRule) <= id < nextRule && rules == old(rules) + [r.(id := id)]
    {
      var gap: int := *;
      id := if gap > 0 then nextRule + gap else nextRule;
      nextRule := id + 1;
      rules := rules + [r.(id := id)];
    }

    /** Inserts the targets of a bundle and remembers where each export ID went. */
    method InsertTargets(ts: seq<Target>) returns (idMap: map<int, int>, ids: seq<int>)
      requires Valid() && targets == [] && AcceptedIDs(IDs(ts))
      modifies this`targets, this`nextTarget
      ensures Valid() && |ids| == |ts| && Ascending(ids) && targets == Renumbered(ts, ids)
      ensures idMap.Keys == IDSet(ts)
      ensures forall x :: x in idMap ==> idMap[x] == Rename(IDs(ts), ids, x)
    {
      hide Rename, AcceptedIDs, Mapped;
      idMap, ids := map[], [];
      NothingMapped(ts);
      for i := 0 to |ts|
        invariant Valid() && |ids| == i && Ascending(ids) && (forall j :: 0 <= j < i ==> ids[j] < nextTarget)
        invariant targets == Renumbered(ts[..i], ids)
        invariant Mapped(ts, ids, idMap, i)
      {
        var id := AddTarget(ts[i]);
        MapOne(ts, ids, idMap, i, id);
        ids := ids + [id];
        idMap := idMap[ts[i].id := id];
        assert targets == Renumbered(ts[..i + 1], ids);
      }
      assert ts[..|ts|] == ts;
      AllMapped(ts, ids, idMap);
    }

    /** Rewrites and inserts the rules; a reference without a new ID aborts. */
    method InsertRules(rs: seq<BundleRule>, idMap: map<int, int>, ghost from: seq<int>, ghost to: seq<int>)
      returns (ok: bool, ids: seq<int>)
      requires Valid() && rules == [] && |from| == |to|
      requires forall x :: x in idMap ==> idMap[x] == Rename(from, to, x)
      modifies this`rules, this`nextRule
      ensures Valid()
      ensures ok <==> forall i, k :: 0 <= i < |rs| && 0 <= k < |rs[i].refs| ==> rs[i].refs[k] in idMap
      ensures ok ==> |ids| == |rs| && rules == StoredRules(from, to, rs, ids)
    {
      hide Rename;
      ids := [];
      for i := 0 to |rs|
        invariant Valid() && |ids| == i && rules == StoredRules(from, to, rs[..i], ids)
        invariant forall j, k :: 0 <= j < i && 0 <= k < |rs[j].refs| ==> rs[j].refs[k] in idMap
      {
        var r := rs[i];
        var remapped: seq<int> := [];
        for k := 0 to |r.refs|
          invariant remapped == RenamedRefs(from, to, r.refs)[..k]
          invariant forall m :: 0 <= m < k ==> r.refs[m] in idMap
          invariant rules == StoredRules(from, to, rs[..i], ids) && Valid()
        {
          if r.refs[k] !in idMap {
            return false, ids;
          }
          remapped := remapped + [idMap[r.refs[k]]];
        }
        assert rs[..i + 1] == rs[..i] + [r] && remapped == RenamedRefs(from, to, r.refs);
        var id := AddRule(DomainRule(0, r.host, r.protocol, r.ports, r.action, remapped, r.comment, r.enableIPv6));
        ids := ids + [id];
        assert rules == StoredRules(from, to, rs[..i + 1], ids);
      }
      assert rs[..|rs|] == rs;
      ok := true;
    }

    /** Every reference of the rules of a bundle names one of its targets. */
    static ghost predicate RefsExist(c: BundleV3) {
      forall i, k :: 0 <= i < |c.rules| && 0 <= k < |c.rules[i].refs| ==> c.rules[i].refs[k] in IDSet(c.targets)
    }

    /** Replaces targets and rules; on an abort what is left behind is up to the transaction. */
    method ReplaceRows(c: BundleV3) returns (ok: bool, ids: seq<int>, ruleIDs: seq<int>)
      requires Valid() && AcceptedIDs(IDs(c.targets))
      modifies this`targets, this`rules, this`nextTarget, this`nextRule
      ensures ok <==> RefsExist(c)
      ensures ok ==> Valid() && |ids| == |c.targets| && |ruleIDs| == |c.rules| && Ascending(ids)
                     && targets == Renumbered(c.targets, ids) && rules == StoredRules(IDs(c.targets), ids, c.rules, ruleIDs)
    {
      targets, rules := [], [];
      assert Ascending(IDs(targets));
      hide Rename, AcceptedIDs, Ascending, IDs;
      var idMap;
      idMap, ids := InsertTargets(c.targets);
      ok, ruleIDs := InsertRules(c.rules, idMap, IDs(c.targets), ids);
      assert forall x :: x in idMap <==> x in IDSet(c.targets);
    }

    /** The import transaction: all of it, or nothing. `failed` stands for any database error. */
    method Import(c: BundleV3, failed: bool) returns (ok: bool, ids: seq<int>, ruleIDs: seq<int>)
      requires Valid() && AcceptedIDs(IDs(c.targets))
      modifies this
      ensures Valid()
      ensures !ok ==> Tables() == old(Tables()) && scanned == old(scanned)
      ensures ok ==> |ids| == |c.targets| && |ruleIDs| == |c.rules| && Ascending(ids) && Tables() == ImportedTables(c, ids, ruleIDs)
                     && scanned == []
      ensures ok <==> !failed && RefsExist(c)
    {
      hide ToStore, AcceptedIDs, Ascending, IDs, Renumbered, StoredRules, RefsExist;
      var before := (targets, rules, nextTarget, nextRule);
      ok, ids, ruleIDs := ReplaceRows(c);
      if !ok || failed {
        ok := false;
        targets, rules, nextTarget, nextRule := before.0, before.1, before.2, before.3;
        return;
      }
      settings := ToStore(c.settings);
      policy, email, webhook, push, scanned := c.policy, c.email, c.webhook, c.push, [];
    }

    method LoadSnapshot(lib: Library) returns (s: Option<Snapshot>)
      requires Valid()
      ensures s == Loaded(lib, Tables())
    {
      hide LoadSettings;
      var existing := IDSet(targets);
      for i := 0 to |rules|
        invariant forall j, k :: 0 <= j < i && 0 <= k < |rules[j].targets| ==> rules[j].targets[k] in existing
      {
        for k := 0 to |rules[i].targets|
          invariant forall m :: 0 <= m < k ==> rules[i].targets[m] in existing
        {
          if rules[i].targets[k] !in existing {
            return None;
          }
        }
      }
      var loaded := LoadSettings(lib, settings);
      if loaded.None? {
        return None;
      }
      s := Some(Snapshot(targets, rules, loaded.value, policy, email, webhook, push));
    }
  }

  // ------------------------------------------------------------------------ round trip

  /** The library recognises the defaults an export fills in. */
  ghost predicate KnowsAlertDefaults(lib: Library) {
    && lib.duration(DEFAULT_POLICY.healthTimeout) > 0 && lib.duration(DEFAULT_PUSH.interval) >= MIN_PUSH_INTERVAL
    && lib.bytes(DEFAULT_BODY) <= MAX_BODY_BYTES
  }

  /** Alert rows that were saved after validation, or never. */
  ghost predicate StoredPolicy(lib: Library, p: Policy) { p.healthTimeout == "" || NormalizePolicy(lib, p) == Some(p) }

  ghost predicate StoredPush(lib: Library, u: Push) { u.interval == "" || NormalizePush(lib, u) == Some(u) }

  /** Security, port and subject may be blank each; where they are not, and in everything else, the row is one
      that validation leaves alone. */
  ghost predicate StoredEmail(lib: Library, e: Email) {
    && (e.security == "" || SecurityName(e.security))
    && (e.port == "" || NormalizePort(e.port) == Some(e.port))
    && Trim(e.host) == e.host && Trim(e.fromAddr) == e.fromAddr && Trim(e.toAddr) == e.toAddr && Trim(e.subject) == e.subject
    && (e.enabled ==> e.host != "" && e.fromAddr != "" && e.toAddr != "")
    && |e.subject| <= MAX_SUBJECT_RUNES && (forall c :: c in e.subject ==> !IsControl(c))
    && lib.bytes(e.body) <= MAX_BODY_BYTES
  }

  /** What an export fills in is valid, so that every stored row becomes one validation leaves alone. */
  lemma FilledIsNormal(lib: Library, p: Policy, e: Email, u: Push)
    requires KnowsAlertDefaults(lib) && StoredPolicy(lib, p) && StoredPush(lib, u) && (e == NO_EMAIL || StoredEmail(lib, e))
    ensures NormalizePolicy(lib, FilledPolicy(p)) == Some(FilledPolicy(p)) && NormalizePush(lib, FilledPush(u)) == Some(FilledPush(u))
    ensures NormalizeEmail(lib, FilledEmail(e)) == Some(FilledEmail(e))
  {
    hide Trim, NormalizePort, IsControl, SecurityName;
    TrimOfTrimmed(DEFAULT_POLICY.healthTimeout);
    TrimOfTrimmed(DEFAULT_PUSH.interval);
    TrimOfTrimmed("");
    DefaultSubject();
    DefaultPort();
    assert SecurityName("auto_starttls") by { SecurityDefault(); }
  }

  lemma SecurityDefault()
    ensures SecurityName("auto_starttls")
  {
  }

  lemma DefaultSubject()
    ensures Trim(DEFAULT_SUBJECT) == DEFAULT_SUBJECT && 0 < |DEFAULT_SUBJECT| <= MAX_SUBJECT_RUNES
    ensures forall c :: c in DEFAULT_SUBJECT ==> !IsControl(c)
  {
    hide Trim;
    TrimOfTrimmed(DEFAULT_SUBJECT);
    assert forall i :: 0 <= i < |DEFAULT_SUBJECT| ==> !IsControl(DEFAULT_SUBJECT[i]);
  }

  lemma DefaultPort()
    ensures NormalizePort("587") == Some("587")
  {
    hide Trim, Decimal;
    TrimOfTrimmed("587");
    var s := "587";
    assert s[..2] == "58" && s[..2][..1] == "5" && s[..2][..1][..0] == "";
    assert DigitsValue("5") == 5 && DigitsValue("58") == 58 && DigitsValue(s) == 587;
    DecimalOf587();
  }

  lemma DecimalOf587()
    ensures Decimal(587) == "587"
  {
    assert Decimal(5) == "5" && Decimal(58) == "5" + "8";
  }

  /** A snapshot whose values validation leaves alone, alert rows that were never saved aside, and whose
      references exist. */
  ghost predicate NormalSnapshot(lib: Library, s: Snapshot) {
    && Ascending(IDs(s.targets)) && (forall t :: t in s.targets ==> t.id > 0 && NormalizeTarget(t) == Some(t))
    && Closed(s) && (forall r :: r in s.rules ==> AcceptedIDs(r.targets) && Validated(r))
    && NormalSettings(lib, FromStore(s.settings))
    && StoredPolicy(lib, s.policy) && (s.email == NO_EMAIL || StoredEmail(lib, s.email))
    && NormalizeWebhook(lib, s.webhook) == Some(s.webhook) && StoredPush(lib, s.push)
  }

  lemma NothingToFill(lib: Library, p: Policy, e: Email, u: Push)
    requires Sane(lib)
    requires NormalizePolicy(lib, p) == Some(p) && NormalizeEmail(lib, e) == Some(e) && NormalizePush(lib, u) == Some(u)
    ensures FilledPolicy(p) == p && FilledEmail(e) == e && FilledPush(u) == u
  {
    hide Trim, NormalizePort, IsControl;
    assert p.healthTimeout != "" by { DurationIsFixed(lib, p.healthTimeout); }
    assert u.interval != "" by { DurationIsFixed(lib, u.interval); }
    assert e.port != "" by { PortIsFixed(e.port); }
    assert e.security != "";
  }

  lemma {:induction false} TargetsPass(ts: seq<Target>)
    requires forall t :: t in ts ==> NormalizeTarget(t) == Some(t)
    ensures CheckTargets(ts) == Some(ts)
  {
    hide NormalizeTarget;
    if ts != [] {
      var init, last := ts[..|ts| - 1], ts[|ts| - 1];
      assert last in ts && forall t :: t in init ==> t in ts;
      TargetsPass(init);
      assert init + [last] == ts;
    }
  }

  lemma SortedRefs(refs: seq<int>)
    requires AcceptedIDs(refs)
    ensures AcceptedIDs(Sort(IntLe, refs)) && Ascending(Sort(IntLe, refs)) && forall x :: x in Sort(IntLe, refs) <==> x in refs
  {
    hide Sort;
    var s := Sort(IntLe, refs);
    SortSorts(IntLe, refs);
    SortedElements(IntLe, refs);
    forall i, j | 0 <= i < j < |s| ensures s[i] < s[j] {
      assert IntLe(s[i], s[j]);
      if s[i] == s[j] {
        TwiceInMultiset(s, i, j);
        OnlyOne(refs, s[i]);
      }
    }
    forall i | 0 <= i < |s| ensures s[i] > 0 {
      assert s[i] in refs;
    }
  }

  lemma {:induction false} OnlyOne(s: seq<int>, x: int)
    requires Distinct(s)
    ensures multiset(s)[x] <= 1
  {
    if s != [] {
      var init := s[..|s| - 1];
      assert s == init + [s[|s| - 1]];
      OnlyOne(init, x);
      assert s[|s| - 1] !in init;
    }
  }

  lemma RulePasses(s: Snapshot, r: DomainRule)
    requires r in s.rules && Closed(s) && AcceptedIDs(r.targets) && NormalizeRule(r) == Some(r)
    ensures CheckRule(IDSet(s.targets), RuleOut(r)) == Some(RuleOut(r))
  {
    hide Trim, Upper, Sort, AcceptedIDs;
    SortedRefs(r.targets);
    var out := RuleOut(r);
    assert out.refs == Sort(IntLe, r.targets);
    forall k | 0 <= k < |out.refs| ensures out.refs[k] in IDSet(s.targets) {
      assert out.refs[k] in out.refs;
      assert out.refs[k] in r.targets;
      var m :| 0 <= m < |r.targets| && r.targets[m] == out.refs[k];
      var i :| 0 <= i < |s.rules| && s.rules[i] == r;
    }
  }

  ghost predicate PassesAlone(s: Snapshot, r: DomainRule) {
    r in s.rules && AcceptedIDs(r.targets) && NormalizeRule(r) == Some(r)
  }

  lemma {:induction false} RulesPass(s: Snapshot, rs: seq<DomainRule>)
    requires Closed(s) && forall r :: r in rs ==> PassesAlone(s, r)
    ensures CheckRules(IDSet(s.targets), RulesOut(rs)) == Some(RulesOut(rs))
  {
    hide CheckRule, RuleOut, Closed, PassesAlone, IDSet;
    if rs != [] {
      var init, last := rs[..|rs| - 1], rs[|rs| - 1];
      assert last in rs && forall r :: r in init ==> r in rs;
      RulesPass(s, init);
      assert CheckRule(IDSet(s.targets), RuleOut(last)) == Some(RuleOut(last)) by { PassesAsRule(s, last); }
      var out := RulesOut(rs);
      assert out[..|rs| - 1] == RulesOut(init) && out[|rs| - 1] == RuleOut(last);
      assert out == RulesOut(init) + [RuleOut(last)];
    }
  }

  lemma PassesAsRule(s: Snapshot, r: DomainRule)
    requires Closed(s) && PassesAlone(s, r)
    ensures CheckRule(IDSet(s.targets), RuleOut(r)) == Some(RuleOut(r))
  {
    hide CheckRule, RuleOut, Closed, NormalizeRule, AcceptedIDs;
    RulePasses(s, r);
  }

  lemma AscendingAreAccepted(ts: seq<Target>)
    requires Ascending(IDs(ts)) && forall t :: t in ts ==> t.id > 0
    ensures AcceptedIDs(IDs(ts))
  {
    forall i | 0 <= i < |ts| ensures IDs(ts)[i] > 0 { assert ts[i] in ts; }
  }

  /** Validation accepts every export of a normal snapshot and changes nothing in it. */
  lemma ExportIsAccepted(lib: Library, s: Snapshot)
    requires KnowsAlertDefaults(lib) && NormalSnapshot(lib, s)
    ensures Checked(lib, Exported(s)) == Some(Exported(s))
  {
    hide NormalizeTarget, NormalizeRule, Validated, AcceptedIDs, CheckRules, CheckTargets, FromStore, CheckSettings, Closed, NormalizePolicy, NormalizeEmail,
         NormalizeWebhook, NormalizePush, FilledEmail, FilledPolicy, FilledPush, Sort, StoredEmail, StoredPolicy, StoredPush;
    TargetsPass(s.targets);
    forall r | r in s.rules ensures PassesAlone(s, r) { NormalRulesStay(r); }
    RulesPass(s, s.rules);
    AscendingAreAccepted(s.targets);
    FilledIsNormal(lib, s.policy, s.email, s.push);
  }

  lemma RenamedAscending(from: seq<int>, to: seq<int>, refs: seq<int>)
    requires |from| == |to| && Ascending(from) && Ascending(to) && Ascending(refs)
    requires forall i :: 0 <= i < |refs| ==> refs[i] in from
    ensures Ascending(RenamedRefs(from, to, refs)) && forall i :: 0 <= i < |refs| ==> RenamedRefs(from, to, refs)[i] in to
  {
    hide Rename;
    forall i | 0 <= i < |refs| ensures RenamedRefs(from, to, refs)[i] in to {
      var a :| 0 <= a < |from| && from[a] == refs[i];
      RenameAt(from, to, a);
    }
    forall i, j | 0 <= i < j < |refs| ensures RenamedRefs(from, to, refs)[i] < RenamedRefs(from, to, refs)[j] {
      var a :| 0 <= a < |from| && from[a] == refs[i];
      var b :| 0 <= b < |from| && from[b] == refs[j];
      assert a < b;
      RenameAt(from, to, a);
      RenameAt(from, to, b);
    }
  }

  lemma RefsInIDs(ts: seq<Target>, x: int)
    ensures x in IDSet(ts) <==> x in IDs(ts)
  {
    if x in IDs(ts) {
      var i :| 0 <= i < |ts| && IDs(ts)[i] == x;
      assert ts[i] in ts;
    }
    if x in IDSet(ts) {
      var t :| t in ts && t.id == x;
      var i :| 0 <= i < |ts| && ts[i] == t;
      assert IDs(ts)[i] == x;
    }
  }

  /** Bundles as exports make them: references sorted, distinct and present. */
  ghost predicate ExportShaped(b: BundleV3) {
    && Ascending(IDs(b.targets))
    && forall i :: 0 <= i < |b.rules| ==> Ascending(b.rules[i].refs)
                                          && forall k :: 0 <= k < |b.rules[i].refs| ==> b.rules[i].refs[k] in IDSet(b.targets)
  }

  lemma ExportsAreShaped(lib: Library, s: Snapshot)
    requires NormalSnapshot(lib, s)
    ensures ExportShaped(Exported(s))
  {
    hide NormalizeTarget, NormalizeRule, Validated, AcceptedIDs, FromStore, CheckSettings, NormalizePolicy, NormalizeEmail, NormalizeWebhook, NormalizePush,
         FilledEmail, FilledPolicy, FilledPush, Sort, CheckRule, StoredEmail, StoredPolicy, StoredPush;
    var b := Exported(s);
    forall i | 0 <= i < |b.rules|
      ensures Ascending(b.rules[i].refs) && forall k :: 0 <= k < |b.rules[i].refs| ==> b.rules[i].refs[k] in IDSet(b.targets)
    {
      var r := s.rules[i];
      assert r in s.rules;
      SortedRefs(r.targets);
      NormalRulesStay(r);
      RulePasses(s, r);
      assert b.rules[i] == RuleOut(r);
      var refs := b.rules[i].refs;
      assert refs == Sort(IntLe, r.targets);
      forall k | 0 <= k < |refs| ensures refs[k] in IDSet(b.targets) {
        assert refs[k] in refs && refs[k] in r.targets;
        var m :| 0 <= m < |r.targets| && r.targets[m] == refs[k];
      }
    }
  }

  /** The snapshot loaded after an import is the imported one: no reference dangles, no setting changes. */
  lemma ImportLoads(lib: Library, c: BundleV3, ids: seq<int>, ruleIDs: seq<int>)
    requires Sane(lib) && NormalSettings(lib, c.settings) && ExportShaped(c) && Ascending(ids)
    requires |ids| == |c.targets| && |ruleIDs| == |c.rules|
    ensures Loaded(lib, ImportedTables(c, ids, ruleIDs)) == Some(ImportedTables(c, ids, ruleIDs))
  {
    hide LoadSettings, ToStore, NormalSettings, Rename;
    var t := ImportedTables(c, ids, ruleIDs);
    SettingsRoundTrip(lib, c.settings);
    forall i, k | 0 <= i < |t.rules| && 0 <= k < |t.rules[i].targets| ensures t.rules[i].targets[k] in IDSet(t.targets) {
      var refs := c.rules[i].refs;
      forall m | 0 <= m < |refs| ensures refs[m] in IDs(c.targets) { RefsInIDs(c.targets, refs[m]); }
      RenamedAscending(IDs(c.targets), ids, refs);
      assert t.rules[i].targets == RenamedRefs(IDs(c.targets), ids, refs);
      var a :| 0 <= a < |ids| && ids[a] == t.rules[i].targets[k];
      assert t.targets[a] in t.targets && t.targets[a].id == ids[a];
    }
  }

  lemma RuleComesBack(c: BundleV3, ids: seq<int>, ruleIDs: seq<int>, i: nat)
    requires ExportShaped(c) && Ascending(ids) && |ids| == |c.targets| && |ruleIDs| == |c.rules| && i < |c.rules|
    ensures RuleOut(ImportedTables(c, ids, ruleIDs).rules[i]) == RenamedBundle(c, ids).rules[i]
  {
    hide Sort, ToStore, Rename;
    var refs := c.rules[i].refs;
    forall m | 0 <= m < |refs| ensures refs[m] in IDs(c.targets) { RefsInIDs(c.targets, refs[m]); }
    RenamedAscending(IDs(c.targets), ids, refs);
    assert Sort(IntLe, RenamedRefs(IDs(c.targets), ids, refs)) == RenamedRefs(IDs(c.targets), ids, refs) by {
      hide Sort;
      SortedIs(RenamedRefs(IDs(c.targets), ids, refs), RenamedRefs(IDs(c.targets), ids, refs));
    }
  }

  /** Exporting what was imported gives the imported bundle back, with the target IDs the store handed out. */
  lemma ExportAfterImport(lib: Library, c: BundleV3, ids: seq<int>, ruleIDs: seq<int>)
    requires Sane(lib) && ExportShaped(c) && Ascending(ids) && |ids| == |c.targets| && |ruleIDs| == |c.rules| && c.version == VERSION
    requires NormalSettings(lib, c.settings)
    requires NormalizePolicy(lib, c.policy) == Some(c.policy) && NormalizeEmail(lib, c.email) == Some(c.email)
             && NormalizePush(lib, c.push) == Some(c.push)
    ensures Exported(ImportedTables(c, ids, ruleIDs)) == RenamedBundle(c, ids)
  {
    hide ToStore, FromStore, RuleOut, ExportShaped, FilledEmail, FilledPolicy, FilledPush, NormalizePolicy, NormalizeEmail, NormalizePush, NormalSettings,
         Rename, LoadSettings;
    SettingsRoundTrip(lib, c.settings);
    NothingToFill(lib, c.policy, c.email, c.push);
    RulesComeBack(c, ids, ruleIDs);
  }

  lemma RulesComeBack(c: BundleV3, ids: seq<int>, ruleIDs: seq<int>)
    requires ExportShaped(c) && Ascending(ids) && |ids| == |c.targets| && |ruleIDs| == |c.rules|
    ensures RulesOut(ImportedTables(c, ids, ruleIDs).rules) == RenamedBundle(c, ids).rules
  {
    hide ToStore, RuleOut, ExportShaped, Ascending, Rename;
    var t := ImportedTables(c, ids, ruleIDs);
    forall i | 0 <= i < |c.rules| ensures RulesOut(t.rules)[i] == RenamedBundle(c, ids).rules[i] {
      RuleComesBack(c, ids, ruleIDs, i);
    }
  }

  /** Export, import, export: for every normal snapshot the import accepts the export as it is, the imported
      tables load, and exporting them again gives the first bundle under a strictly increasing renaming of its
      target IDs that every reference follows. */
  lemma RoundTrip(lib: Library, s: Snapshot, ids: seq<int>, ruleIDs: seq<int>)
    requires Sane(lib) && KnowsAlertDefaults(lib) && NormalSnapshot(lib, s)
    requires Ascending(ids) && |ids| == |s.targets| && |ruleIDs| == |s.rules|
    ensures var b := Exported(s);
            && Checked(lib, b) == Some(b)
            && Loaded(lib, ImportedTables(b, ids, ruleIDs)) == Some(ImportedTables(b, ids, ruleIDs))
            && Exported(ImportedTables(b, ids, ruleIDs)) == RenamedBundle(b, ids)
  {
    hide Validated, Checked, ExportShaped, ImportedTables, Loaded, NormalizePolicy, NormalizeEmail, NormalizeWebhook, NormalizePush, FilledEmail, FilledPolicy,
         FilledPush, CheckSettings, FromStore, Closed, AcceptedIDs, NormalizeRule, NormalizeTarget, RenamedBundle, StoredEmail, StoredPolicy, StoredPush;
    ExportIsAccepted(lib, s);
    ExportsAreShaped(lib, s);
    FilledIsNormal(lib, s.policy, s.email, s.push);
    ImportLoads(lib, Exported(s), ids, ruleIDs);
    ExportAfterImport(lib, Exported(s), ids, ruleIDs);
  }
}
