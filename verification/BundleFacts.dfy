/** What an import accepts and stores, stated on the bundle and the snapshot themselves
    (webui/api/bundle_v3.go, webui/api/export.go, config/validate.go). */
module BundleFacts {
  import opened Text
  import opened Tag
  import opened Plan
  import opened Validate
  import opened Config
  import opened Bundle
  import opened BundleRoundTrip
  import opened StoredSettings

  // ------------------------------------------------------------------------- acceptance

  ghost predicate Exists(ts: seq<Target>, id: int) { exists j :: 0 <= j < |ts| && ts[j].id == id }

  /** Positive, no duplicate, and each the export ID of a target. */
  ghost predicate References(refs: seq<int>, ts: seq<Target>) {
    && (forall k :: 0 <= k < |refs| ==> refs[k] > 0 && Exists(ts, refs[k]))
    && forall j, k :: 0 <= j < k < |refs| ==> refs[j] != refs[k]
  }

  ghost predicate RuleFits(r: BundleRule) {
    && Trim(r.host) != "" && Upper(Trim(r.protocol)) in {"TCP", "UDP", "TCP+UDP", "ICMP"}
    && Upper(Trim(r.action)) in {"ACCEPT", "DROP"}
    && (Upper(Trim(r.protocol)) != "ICMP" ==> Trim(r.ports) != "")
  }

  ghost predicate TargetFits(t: Target) {
    && Trim(t.cloudType) in {"tc_lighthouse", "tc_cvm", "ali_swas", "ali_ecs"}
    && Trim(t.region) != "" && Trim(t.resourceID) != ""
  }

  ghost predicate TagFits(tag: string) {
    0 < |Trim(tag)| <= 48 && forall c :: c in Trim(tag) ==> c != '[' && c != ']' && !IsControl(c)
  }

  ghost predicate AddressFits(lib: Library, dns: string) { Trim(dns) != "" && lib.dnsAddress(Trim(dns)) }

  ghost predicate SettingsFit(lib: Library, s: Settings) {
    && TagFits(s.tag) && lib.duration(Trim(s.interval)) >= 1 && lib.duration(Trim(s.dnsTimeout)) >= 1
    && AddressFits(lib, s.dns) && 1 <= s.threshold <= MAX_INT64
    && Folded(s.logLevel) in {"debug", "info", "warn", "error"} && Folded(s.theme) in {"light", "dark"}
  }

  /** What is stored of an accepted rule: clean texts, and everything else as it was. */
  ghost function CleanRule(r: BundleRule): BundleRule {
    var protocol := Upper(Trim(r.protocol));
    BundleRule(Trim(r.host), protocol, if protocol == "ICMP" then "ALL" else Trim(r.ports), Upper(Trim(r.action)),
               r.refs, r.comment, r.enableIPv6)
  }

  ghost function CleanTarget(t: Target): Target { Target(t.id, Trim(t.cloudType), Trim(t.region), Trim(t.resourceID)) }

  ghost function CleanSettings(s: Settings): Settings {
    Settings(s.credentials, Trim(s.tag), Trim(s.interval), Trim(s.dns), Trim(s.dnsTimeout), s.threshold,
             Folded(s.logLevel), s.syncEnabled, Folded(s.theme))
  }

  lemma ReferencesExactly(refs: seq<int>, ts: seq<Target>)
    ensures References(refs, ts) <==> AcceptedIDs(refs) && forall k :: 0 <= k < |refs| ==> refs[k] in IDSet(ts)
  {
    forall k | 0 <= k < |refs| ensures refs[k] in IDSet(ts) <==> Exists(ts, refs[k]) {
      RefsInIDs(ts, refs[k]);
      assert refs[k] in IDs(ts) <==> Exists(ts, refs[k]) by { InIDs(ts, refs[k]); }
    }
    hide Exists, IDSet;
  }

  lemma InIDs(ts: seq<Target>, id: int)
    ensures id in IDs(ts) <==> Exists(ts, id)
  {
    assert forall j :: 0 <= j < |ts| ==> IDs(ts)[j] == ts[j].id;
  }

  lemma TargetAccepted(t: Target)
    ensures NormalizeTarget(t) == if TargetFits(t) then Some(CleanTarget(t)) else None
  {
    hide Trim;
  }

  lemma {:induction false} TargetsAcceptedExactly(ts: seq<Target>)
    ensures CheckTargets(ts).Some? <==> forall i :: 0 <= i < |ts| ==> TargetFits(ts[i])
    ensures CheckTargets(ts).Some? ==>
              |CheckTargets(ts).value| == |ts| && forall i :: 0 <= i < |ts| ==> CheckTargets(ts).value[i] == CleanTarget(ts[i])
  {
    hide Trim, TargetFits, CleanTarget;
    if ts != [] {
      var init, last := ts[..|ts| - 1], ts[|ts| - 1];
      TargetsAcceptedExactly(init);
      TargetAccepted(last);
      hide NormalizeTarget;
      assert forall i :: 0 <= i < |init| ==> init[i] == ts[i];
    }
  }

  lemma RuleAccepted(ts: seq<Target>, r: BundleRule)
    ensures CheckRule(IDSet(ts), r) == if References(r.refs, ts) && RuleFits(r) then Some(CleanRule(r)) else None
  {
    ReferencesExactly(r.refs, ts);
    hide Trim, Upper, References, AcceptedIDs, IDSet;
    RuleAcceptedExactly(AsRule(r));
  }

  lemma {:induction false} RulesAcceptedExactly(ts: seq<Target>, rs: seq<BundleRule>)
    ensures CheckRules(IDSet(ts), rs).Some? <==> forall i :: 0 <= i < |rs| ==> References(rs[i].refs, ts) && RuleFits(rs[i])
    ensures CheckRules(IDSet(ts), rs).Some? ==>
              |CheckRules(IDSet(ts), rs).value| == |rs|
              && forall i :: 0 <= i < |rs| ==> CheckRules(IDSet(ts), rs).value[i] == CleanRule(rs[i])
  {
    hide CheckRule, References, RuleFits, CleanRule, IDSet;
    if rs != [] {
      var init, last := rs[..|rs| - 1], rs[|rs| - 1];
      RulesAcceptedExactly(ts, init);
      RuleAccepted(ts, last);
      assert forall i :: 0 <= i < |init| ==> init[i] == rs[i];
    }
  }

  lemma TagAccepted(tag: string)
    ensures NormalizeTag(tag) == if TagFits(tag) then Some(Trim(tag)) else None
  {
    hide Trim, IsControl;
  }

  lemma ThresholdAccepted(n: int)
    ensures NormalizeThreshold(IntText(n)).Some? <==> 1 <= n <= MAX_INT64
    ensures NormalizeThreshold(IntText(n)).Some? ==> AtoiOrZero(NormalizeThreshold(IntText(n)).value) == n
  {
    hide Trim, Decimal;
    if 1 <= n <= MAX_INT64 { NumberIsFixed(n); }
    if NormalizeThreshold(IntText(n)).Some? { ThresholdIsFixed(n); }
  }

  lemma TextsAccepted(lib: Library, v: string)
    ensures PositiveDuration(lib, v) == if lib.duration(Trim(v)) >= 1 then Some(Trim(v)) else None
    ensures NormalizeDNS(lib, v) == if AddressFits(lib, v) then Some(Trim(v)) else None
    ensures NormalizeLogLevel(v) == if Folded(v) in {"debug", "info", "warn", "error"} then Some(Folded(v)) else None
    ensures NormalizeTheme(v) == if Folded(v) in {"light", "dark"} then Some(Folded(v)) else None
  {
    hide Trim, Folded;
  }

  lemma SettingsAccepted(lib: Library, s: Settings)
    ensures CheckSettings(lib, s) == if SettingsFit(lib, s) then Some(CleanSettings(s)) else None
  {
    hide Trim, Folded, TagFits, AddressFits, NormalizeTag, PositiveDuration, NormalizeDNS, NormalizeLogLevel, NormalizeTheme, IntText,
         NormalizeThreshold, AtoiOrZero;
    TagAccepted(s.tag);
    ThresholdAccepted(s.threshold);
    TextsAccepted(lib, s.interval);
    TextsAccepted(lib, s.dnsTimeout);
    TextsAccepted(lib, s.dns);
    TextsAccepted(lib, s.logLevel);
    TextsAccepted(lib, s.theme);
  }

  // ----------------------------------------------------------------------------- alerts

  ghost predicate EmailFits(lib: Library, e: Email) {
    && e.security in {"auto_starttls", "starttls", "implicit_tls"}
    && (exists port :: 1 <= port <= 65535 && ParseInt64(Trim(e.port)) == Some(port))
    && (e.enabled ==> Trim(e.host) != "" && Trim(e.fromAddr) != "" && Trim(e.toAddr) != "")
    && 1 <= |Trim(e.subject)| <= 200 && (forall c :: c in Trim(e.subject) ==> !IsControl(c)) && lib.bytes(e.body) <= 10 * 1024
  }

  ghost predicate WebhookFits(lib: Library, w: Webhook) {
    && Folded(w.channel) in {"", "dingtalk", "feishu", "slack"}
    && (w.enabled ==> Folded(w.channel) != "" && lib.webURL(Trim(w.url)))
  }

  /** A push interval is at least twenty seconds. */
  ghost predicate PushFits(lib: Library, u: Push) {
    lib.duration(Trim(u.interval)) >= 20 * 1_000_000_000 && (u.enabled ==> lib.webURL(Trim(u.url)))
  }

  ghost predicate AlertsFit(lib: Library, p: Policy, e: Email, w: Webhook, u: Push) {
    lib.duration(Trim(p.healthTimeout)) >= 1 && EmailFits(lib, e) && WebhookFits(lib, w) && PushFits(lib, u)
  }

  ghost function CleanPolicy(p: Policy): Policy { Policy(p.dnsFailed, p.syncError, p.operationalError, Trim(p.healthTimeout)) }

  ghost function CleanWebhook(w: Webhook): Webhook { Webhook(w.enabled, Trim(w.url), Folded(w.channel)) }

  ghost function CleanPush(u: Push): Push { Push(u.enabled, Trim(u.url), Trim(u.interval)) }

  /** The port is written anew as the digits of its number. */
  ghost predicate CleanEmail(e: Email, out: Email) {
    && out == Email(e.enabled, Trim(e.host), out.port, e.security, e.username, e.password, Trim(e.fromAddr), Trim(e.toAddr),
                    Trim(e.subject), e.body)
    && ParseInt64(out.port) == ParseInt64(Trim(e.port)) && Trim(out.port) == out.port
  }

  lemma AlertsAccepted(lib: Library, p: Policy, w: Webhook, u: Push)
    ensures NormalizePolicy(lib, p) == if lib.duration(Trim(p.healthTimeout)) >= 1 then Some(CleanPolicy(p)) else None
    ensures NormalizeWebhook(lib, w) == if WebhookFits(lib, w) then Some(CleanWebhook(w)) else None
    ensures NormalizePush(lib, u) == if PushFits(lib, u) then Some(CleanPush(u)) else None
  {
    hide Trim, Folded;
  }

  lemma EmailAccepted(lib: Library, e: Email)
    ensures NormalizeEmail(lib, e).Some? <==> EmailFits(lib, e)
    ensures EmailFits(lib, e) ==> CleanEmail(e, NormalizeEmail(lib, e).value)
  {
    hide Trim, Decimal, ParseInt64, IsControl;
    if EmailFits(lib, e) { NumberIsFixed(ParseInt64(Trim(e.port)).value); }
  }

  // ------------------------------------------------------------------- the whole bundle

  ghost predicate BundleFits(lib: Library, b: BundleV3) {
    && b.version == 3 && AcceptedIDs(IDs(b.targets)) && (forall i :: 0 <= i < |b.targets| ==> TargetFits(b.targets[i]))
    && (forall i :: 0 <= i < |b.rules| ==> References(b.rules[i].refs, b.targets) && RuleFits(b.rules[i]))
    && SettingsFit(lib, b.settings) && AlertsFit(lib, b.policy, b.email, b.webhook, b.push)
  }

  /** What is kept of an accepted bundle: every target and every rule, cleaned and in order, and the cleaned
      settings and alert rows. */
  ghost predicate Cleaned(b: BundleV3, c: BundleV3) {
    && c.version == 3 && |c.targets| == |b.targets| && (forall i :: 0 <= i < |b.targets| ==> c.targets[i] == CleanTarget(b.targets[i]))
    && |c.rules| == |b.rules| && (forall i :: 0 <= i < |b.rules| ==> c.rules[i] == CleanRule(b.rules[i]))
    && c.settings == CleanSettings(b.settings) && c.policy == CleanPolicy(b.policy) && CleanEmail(b.email, c.email)
    && c.webhook == CleanWebhook(b.webhook) && c.push == CleanPush(b.push)
  }

  /** Which bundles an import accepts, and what it makes of them: an accepted rule keeps its action, its
      references, its comment and its IPv6 switch. */
  lemma BundleAcceptedExactly(lib: Library, b: BundleV3)
    ensures Checked(lib, b).Some? <==> BundleFits(lib, b)
    ensures BundleFits(lib, b) ==> Cleaned(b, Checked(lib, b).value)
  {
    hide AcceptedIDs, TargetFits, RuleFits, References, SettingsFit, EmailFits, WebhookFits, PushFits, CleanTarget, CleanRule, CleanSettings,
         CleanPolicy, CleanEmail, CleanWebhook, CleanPush, CheckTargets, CheckRules, CheckSettings, NormalizePolicy, NormalizeEmail,
         NormalizeWebhook, NormalizePush, Trim;
    TargetsAcceptedExactly(b.targets);
    RulesAcceptedExactly(b.targets, b.rules);
    SettingsAccepted(lib, b.settings);
    AlertsAccepted(lib, b.policy, b.webhook, b.push);
    EmailAccepted(lib, b.email);
  }

  // ------------------------------------------------------------------ the stored settings

  /** A stored text is blank, or valid. */
  ghost predicate Loadable(lib: Library, raw: map<SettingKey, string>, k: SettingKey) {
    var v := Trim(Raw(raw, k));
    v == ""
    || match k
       case TagKey => TagFits(v)
       case Interval => lib.duration(v) >= 1
       case DNSTimeout => lib.duration(v) >= 1
       case DNS => AddressFits(lib, v)
       case DNSFailThreshold => ParseInt64(v).Some? && ParseInt64(v).value >= 1
       case LogLevel => Folded(v) in {"debug", "info", "warn", "error"}
       case Theme => Folded(v) in {"light", "dark"}
       case SyncEnabled => v in {"true", "false"}
       case _ => true
  }

  /** What a loadable text becomes; a blank one becomes the documented default, a credential stays. */
  ghost function LoadedText(raw: map<SettingKey, string>, k: SettingKey): string {
    var v := Trim(Raw(raw, k));
    match k
    case TagKey => Or(v, "auto-dns")
    case Interval => Or(v, "5m")
    case DNS => Or(v, "223.5.5.5")
    case DNSTimeout => Or(v, "10s")
    case DNSFailThreshold => if v == "" then "5" else if ParseInt64(v).Some? && ParseInt64(v).value > 0 then Decimal(ParseInt64(v).value) else v
    case LogLevel => if v == "" then "info" else Folded(v)
    case Theme => if v == "" then "light" else Folded(v)
    case SyncEnabled => Or(v, "true")
    case _ => Raw(raw, k)
  }

  ghost function Form(lib: Library, raw: map<SettingKey, string>, k: SettingKey): Option<string> {
    if Loadable(lib, raw, k) then Some(LoadedText(raw, k)) else None
  }

  lemma TextLoads(lib: Library, raw: map<SettingKey, string>, k: SettingKey)
    ensures var v := Raw(raw, k);
            match k
            case TagKey => OrDefault(v, DEFAULT_TAG, NormalizeTag(Trim(v))) == Form(lib, raw, k)
            case Interval => OrDefault(v, DEFAULT_INTERVAL, PositiveDuration(lib, Trim(v))) == Form(lib, raw, k)
            case DNS => OrDefault(v, DEFAULT_DNS, NormalizeDNS(lib, Trim(v))) == Form(lib, raw, k)
            case DNSTimeout => OrDefault(v, DEFAULT_DNS_TIMEOUT, PositiveDuration(lib, Trim(v))) == Form(lib, raw, k)
            case DNSFailThreshold => OrDefault(v, DEFAULT_THRESHOLD, NormalizeThreshold(Trim(v))) == Form(lib, raw, k)
            case LogLevel => OrDefault(v, DEFAULT_LOG_LEVEL, NormalizeLogLevel(Trim(v))) == Form(lib, raw, k)
            case Theme => OrDefault(v, DEFAULT_THEME, NormalizeTheme(Trim(v))) == Form(lib, raw, k)
            case SyncEnabled => OrDefault(v, BoolText(true), SwitchText(Trim(v))) == Form(lib, raw, k)
            case _ => Form(lib, raw, k) == Some(v)
  {
    hide Trim, Folded, ParseInt64, Decimal, TagFits, AddressFits, NormalizeTag, PositiveDuration, NormalizeDNS, NormalizeLogLevel,
         NormalizeTheme, Raw;
    var v := Raw(raw, k);
    TrimTrims(v);
    TagAccepted(Trim(v));
    TextsAccepted(lib, Trim(v));
  }

  lemma LoadedAt(lib: Library, raw: map<SettingKey, string>, k: SettingKey)
    requires LoadSettings(lib, raw).Some?
    ensures Loadable(lib, raw, k) && k in LoadSettings(lib, raw).value && LoadSettings(lib, raw).value[k] == LoadedText(raw, k)
  {
    hide Loadable, LoadedText, Trim, NormalizeTag, PositiveDuration, NormalizeDNS, NormalizeLogLevel, NormalizeTheme, NormalizeThreshold,
         SwitchText, OrDefault, BoolText, Raw;
    TextLoads(lib, raw, k);
  }

  /** Which stored settings load, and as what: every text blank or valid, a blank one replaced by its default. */
  lemma SettingsLoadExactly(lib: Library, raw: map<SettingKey, string>)
    ensures LoadSettings(lib, raw).Some? <==> forall k: SettingKey :: Loadable(lib, raw, k)
    ensures LoadSettings(lib, raw).Some? ==>
              forall k: SettingKey :: k in LoadSettings(lib, raw).value && LoadSettings(lib, raw).value[k] == LoadedText(raw, k)
  {
    if LoadSettings(lib, raw).Some? {
      forall k: SettingKey { LoadedAt(lib, raw, k); }
      hide LoadSettings, Loadable, LoadedText;
    } else {
      SomeTextIsRefused(lib, raw);
    }
  }

  lemma SomeTextIsRefused(lib: Library, raw: map<SettingKey, string>)
    requires LoadSettings(lib, raw).None?
    ensures exists k :: !Loadable(lib, raw, k)
  {
    hide Loadable, LoadedText, Trim, NormalizeTag, PositiveDuration, NormalizeDNS, NormalizeLogLevel, NormalizeTheme, NormalizeThreshold,
         SwitchText, OrDefault, BoolText, Raw;
    TextLoads(lib, raw, TagKey);
    TextLoads(lib, raw, Interval);
    TextLoads(lib, raw, DNS);
    TextLoads(lib, raw, DNSTimeout);
    TextLoads(lib, raw, DNSFailThreshold);
    TextLoads(lib, raw, LogLevel);
    TextLoads(lib, raw, Theme);
    TextLoads(lib, raw, SyncEnabled);
  }

  // ------------------------------------------------------------- import undoes export

  /** The same rule, with references to the same targets. */
  ghost predicate SameRule(s: Snapshot, t: Snapshot, i: nat)
    requires i < |s.rules| && i < |t.rules|
  {
    var (r, q) := (s.rules[i], t.rules[i]);
    && q.host == r.host && q.protocol == r.protocol && q.ports == r.ports && q.action == r.action
    && q.comment == r.comment && q.enableIPv6 == r.enableIPv6 && |q.targets| == |r.targets|
    && forall j :: 0 <= j < |s.targets| && j < |t.targets| ==> (t.targets[j].id in q.targets <==> s.targets[j].id in r.targets)
  }

  ghost predicate SameTarget(t: Target, u: Target) {
    u.cloudType == t.cloudType && u.region == t.region && u.resourceID == t.resourceID
  }

  /** Alert rows come back as they were; what was never saved comes back as its default. */
  ghost predicate SameAlerts(s: Snapshot, t: Snapshot) {
    && t.webhook == s.webhook
    && t.policy == (if s.policy.healthTimeout == "" then Policy(false, false, false, "10m") else s.policy)
    && t.push == (if s.push.interval == "" then Push(false, "", "60s") else s.push)
    && (s.email.security != "" && s.email.port != "" && s.email.subject != "" ==> t.email == s.email)
    && t.email.(security := s.email.security, port := s.email.port, subject := s.email.subject, body := s.email.body) == s.email
    && (s.email != NO_EMAIL ==> t.email.body == s.email.body)
  }

  lemma RenamedMember(from: seq<int>, to: seq<int>, refs: seq<int>, j: nat)
    requires |from| == |to| && Ascending(from) && Ascending(to) && j < |from| && forall k :: 0 <= k < |refs| ==> refs[k] in from
    ensures to[j] in RenamedRefs(from, to, refs) <==> from[j] in refs
  {
    hide Rename;
    var out := RenamedRefs(from, to, refs);
    RenameAt(from, to, j);
    if from[j] in refs {
      var k :| 0 <= k < |refs| && refs[k] == from[j];
      assert out[k] == to[j];
    }
    if to[j] in out {
      var k :| 0 <= k < |out| && out[k] == to[j];
      var a :| 0 <= a < |from| && from[a] == refs[k];
      RenameAt(from, to, a);
      assert a == j;
    }
  }

  lemma RefsAreBack(ts: seq<Target>, ids: seq<int>, refs: seq<int>)
    requires |ids| == |ts| && Ascending(IDs(ts)) && Ascending(ids) && forall k :: 0 <= k < |refs| ==> refs[k] in IDSet(ts)
    ensures var back := RenamedRefs(IDs(ts), ids, Sort(IntLe, refs));
            |back| == |refs| && forall j :: 0 <= j < |ts| ==> (ids[j] in back <==> ts[j].id in refs)
  {
    hide Sort, Rename, Ascending, IDSet;
    var sorted := Sort(IntLe, refs);
    SortedElements(IntLe, refs);
    assert |sorted| == |refs| by { assert |multiset(sorted)| == |multiset(refs)|; }
    forall k | 0 <= k < |sorted| ensures sorted[k] in IDs(ts) {
      assert sorted[k] in sorted;
      var m :| 0 <= m < |refs| && refs[m] == sorted[k];
      RefsInIDs(ts, sorted[k]);
    }
    forall j | 0 <= j < |ts| ensures ids[j] in RenamedRefs(IDs(ts), ids, sorted) <==> ts[j].id in refs {
      RenamedMember(IDs(ts), ids, sorted, j);
      assert IDs(ts)[j] == ts[j].id;
    }
  }

  lemma RuleIsBack(s: Snapshot, ids: seq<int>, ruleIDs: seq<int>, i: nat)
    requires Ascending(IDs(s.targets)) && Closed(s) && Ascending(ids) && |ids| == |s.targets| && |ruleIDs| == |s.rules| && i < |s.rules|
    ensures SameRule(s, ImportedTables(Exported(s), ids, ruleIDs), i)
  {
    hide Sort, ToStore, FromStore, FilledEmail, FilledPolicy, FilledPush, Rename, Ascending;
    RefsAreBack(s.targets, ids, s.rules[i].targets);
  }

  lemma RowsAreBack(s: Snapshot, ids: seq<int>, ruleIDs: seq<int>)
    requires |ids| == |s.targets| && |ruleIDs| == |s.rules|
    ensures var t := ImportedTables(Exported(s), ids, ruleIDs);
            && |t.targets| == |s.targets| && |t.rules| == |s.rules| && t.settings == ToStore(FromStore(s.settings))
            && forall i :: 0 <= i < |s.targets| ==> SameTarget(s.targets[i], t.targets[i])
  {
    hide ToStore, FromStore, FilledEmail, FilledPolicy, FilledPush, RuleOut, StoredRule;
  }

  lemma AlertsAreBack(s: Snapshot, ids: seq<int>, ruleIDs: seq<int>)
    requires |ids| == |s.targets| && |ruleIDs| == |s.rules|
    ensures SameAlerts(s, ImportedTables(Exported(s), ids, ruleIDs))
  {
  }

  /** Importing an export restores the snapshot: every target with its values under a new ID, every rule with its
      host, protocol, ports, action, comment and IPv6 switch and with references to the same targets, every
      setting, and every alert row that was ever saved. */
  lemma ImportUndoesExport(lib: Library, raw: map<SettingKey, string>, s: Snapshot, ids: seq<int>, ruleIDs: seq<int>)
    requires Sane(lib) && KnowsDefaults(lib) && LoadSettings(lib, raw) == Some(s.settings)
    requires NormalSnapshot(lib, s) && Ascending(ids) && |ids| == |s.targets| && |ruleIDs| == |s.rules|
    ensures var t := ImportedTables(Exported(s), ids, ruleIDs);
            && |t.targets| == |s.targets| && |t.rules| == |s.rules| && t.settings == s.settings && SameAlerts(s, t)
            && (forall i :: 0 <= i < |s.targets| ==> SameTarget(s.targets[i], t.targets[i]))
            && forall i :: 0 <= i < |s.rules| ==> SameRule(s, t, i)
  {
    assert Ascending(IDs(s.targets)) && Closed(s);
    hide LoadSettings, ToStore, FromStore, NormalSnapshot, Closed, SameRule, SameTarget, SameAlerts, Ascending, ImportedTables, Exported,
         NormalSettings;
    LoadedAreNormal(lib, raw);
    RowsAreBack(s, ids, ruleIDs);
    AlertsAreBack(s, ids, ruleIDs);
    forall i | 0 <= i < |s.rules| ensures SameRule(s, ImportedTables(Exported(s), ids, ruleIDs), i) {
      RuleIsBack(s, ids, ruleIDs, i);
    }
  }
}
