/** Configuration export and import (webui/api/bundle_v3.go, webui/api/export.go, config/store.go), and why
    exporting what was imported gives the same bundle up to a renaming of target IDs. */
module Bundle {
  import opened Text
  import opened Tag
  import opened Plan
  import opened Validate
  import opened Config

  // ------------------------------------------------------------------------ settings

  datatype SettingKey = TcAccessID | TcAccessKey | AliAccessID | AliAccessKey | TagKey | Interval | DNS | DNSTimeout
                      | DNSFailThreshold | LogLevel | SyncEnabled | Theme

  datatype Credentials = Credentials(tcID: string, tcKey: string, aliID: string, aliKey: string)

  /** The settings of a bundle; the threshold is a number there and text in the store. */
  datatype Settings = Settings(credentials: Credentials, tag: string, interval: string, dns: string, dnsTimeout: string,
                               threshold: int, logLevel: string, syncEnabled: bool, theme: string)

  function Raw(m: map<SettingKey, string>, k: SettingKey): string { if k in m then m[k] else "" }

  function IntText(n: int): string { if n < 0 then "-" + Decimal(-n) else Decimal(n) }

  function AtoiOrZero(v: string): int { match ParseInt64(v) case None => 0 case Some(n) => n }

  /** `normalizeBundleSettings`, with the threshold still a number. */
  function CheckSettings(lib: Library, s: Settings): Option<Settings> {
    match (NormalizeTag(s.tag), PositiveDuration(lib, s.interval), NormalizeDNS(lib, s.dns), PositiveDuration(lib, s.dnsTimeout),
           NormalizeThreshold(IntText(s.threshold)), NormalizeLogLevel(s.logLevel), NormalizeTheme(s.theme))
    case (Some(tag), Some(interval), Some(dns), Some(timeout), Some(threshold), Some(level), Some(theme)) =>
      Some(Settings(s.credentials, tag, interval, dns, timeout, AtoiOrZero(threshold), level, s.syncEnabled, theme))
    case _ => None
  }

  /** `bundleSettingsToStore`: exactly the known keys. */
  function ToStore(s: Settings): map<SettingKey, string> {
    map[TcAccessID := s.credentials.tcID, TcAccessKey := s.credentials.tcKey,
        AliAccessID := s.credentials.aliID, AliAccessKey := s.credentials.aliKey,
        TagKey := s.tag, Interval := s.interval, DNS := s.dns, DNSTimeout := s.dnsTimeout,
        DNSFailThreshold := IntText(s.threshold), LogLevel := s.logLevel,
        SyncEnabled := BoolText(s.syncEnabled), Theme := s.theme]
  }

  /** The settings part of `toBundleV3`. */
  function FromStore(m: map<SettingKey, string>): Settings {
    Settings(Credentials(Raw(m, TcAccessID), Raw(m, TcAccessKey), Raw(m, AliAccessID), Raw(m, AliAccessKey)),
             Raw(m, TagKey), Raw(m, Interval), Raw(m, DNS), Raw(m, DNSTimeout), AtoiOrZero(Raw(m, DNSFailThreshold)),
             Raw(m, LogLevel), Raw(m, SyncEnabled) == BoolText(true), Raw(m, Theme))
  }

  const DEFAULT_TAG: string := "auto-dns"
  const DEFAULT_INTERVAL: string := "5m"
  const DEFAULT_DNS: string := "223.5.5.5"
  const DEFAULT_DNS_TIMEOUT: string := "10s"
  const DEFAULT_THRESHOLD: string := "5"
  const DEFAULT_LOG_LEVEL: string := "info"
  const DEFAULT_THEME: string := "light"

  /** A blank value means its default; any other value must be valid. */
  function OrDefault(v: string, fallback: string, normalized: Option<string>): Option<string> {
    if Trim(v) == "" then Some(fallback) else normalized
  }

  function SwitchText(v: string): Option<string> {
    match NormalizeSwitch(v) case None => None case Some(b) => Some(BoolText(b))
  }

  /** `normalizeSettings` of the store. */
  function LoadSettings(lib: Library, raw: map<SettingKey, string>): Option<map<SettingKey, string>> {
    match (OrDefault(Raw(raw, TagKey), DEFAULT_TAG, NormalizeTag(Trim(Raw(raw, TagKey)))),
           OrDefault(Raw(raw, Interval), DEFAULT_INTERVAL, PositiveDuration(lib, Trim(Raw(raw, Interval)))),
           OrDefault(Raw(raw, DNS), DEFAULT_DNS, NormalizeDNS(lib, Trim(Raw(raw, DNS)))),
           OrDefault(Raw(raw, DNSTimeout), DEFAULT_DNS_TIMEOUT, PositiveDuration(lib, Trim(Raw(raw, DNSTimeout)))),
           OrDefault(Raw(raw, DNSFailThreshold), DEFAULT_THRESHOLD, NormalizeThreshold(Trim(Raw(raw, DNSFailThreshold)))),
           OrDefault(Raw(raw, LogLevel), DEFAULT_LOG_LEVEL, NormalizeLogLevel(Trim(Raw(raw, LogLevel)))),
           OrDefault(Raw(raw, Theme), DEFAULT_THEME, NormalizeTheme(Trim(Raw(raw, Theme)))),
           OrDefault(Raw(raw, SyncEnabled), BoolText(true), SwitchText(Trim(Raw(raw, SyncEnabled)))))
    case (Some(tag), Some(interval), Some(dns), Some(timeout), Some(threshold), Some(level), Some(theme), Some(enabled)) =>
      Some(map[TcAccessID := Raw(raw, TcAccessID), TcAccessKey := Raw(raw, TcAccessKey),
               AliAccessID := Raw(raw, AliAccessID), AliAccessKey := Raw(raw, AliAccessKey),
               TagKey := tag, Interval := interval, DNS := dns, DNSTimeout := timeout, DNSFailThreshold := threshold,
               LogLevel := level, SyncEnabled := enabled, Theme := theme])
    case _ => None
  }

  /** Settings that validation leaves as they are. */
  predicate NormalSettings(lib: Library, s: Settings) { CheckSettings(lib, s) == Some(s) }

  lemma TagIsFixed(v: string)
    requires NormalizeTag(v).Some?
    ensures var t := NormalizeTag(v).value; Trim(t) == t && t != "" && NormalizeTag(t) == Some(t)
  {
    hide Trim, IsControl;
    TrimTrims(v);
  }

  lemma FoldedNamesAreFixed(v: string)
    ensures NormalizeLogLevel(v).Some? ==> var w := NormalizeLogLevel(v).value; Trim(w) == w && w != "" && NormalizeLogLevel(w) == Some(w)
    ensures NormalizeTheme(v).Some? ==> var w := NormalizeTheme(v).value; Trim(w) == w && w != "" && NormalizeTheme(w) == Some(w)
  {
    hide Folded, Trim;
    FoldedIsFixed(v);
    TrimOfTrimmed(Folded(v));
  }

  lemma ThresholdIsFixed(n: int)
    requires NormalizeThreshold(IntText(n)).Some?
    ensures 0 < n <= MAX_INT64 && NormalizeThreshold(IntText(n)) == Some(IntText(n)) && AtoiOrZero(IntText(n)) == n
    ensures Trim(IntText(n)) == IntText(n) && IntText(n) != ""
  {
    hide Decimal, Trim;
    TextOfInt(n);
    if 0 <= n <= MAX_INT64 { NumberIsFixed(n); }
    if n > MAX_INT64 {
      assert ParseInt64(Decimal(n)) == None by { assert Digit(Decimal(n)[0]); }
    }
  }

  lemma TextOfInt(n: int)
    ensures Trim(IntText(n)) == IntText(n)
    ensures n < 0 ==> ParseInt64(IntText(n)).None? || ParseInt64(IntText(n)).value < 0
  {
    hide Trim, Decimal;
    if n < 0 {
      var d := Decimal(-n);
      var s := IntText(n);
      assert s[0] == '-' && s[1..] == d && s[|s| - 1] == d[|d| - 1];
      assert Digit(d[|d| - 1]);
      TrimOfTrimmed(s);
    } else {
      TrimOfTrimmed(Decimal(n));
    }
  }

  /** What validation accepts it accepts again, unchanged. */
  lemma CheckedSettingsAreNormal(lib: Library, s: Settings)
    requires CheckSettings(lib, s).Some?
    ensures NormalSettings(lib, CheckSettings(lib, s).value)
  {
    hide Trim, NormalizeTag, PositiveDuration, NormalizeDNS, NormalizeLogLevel, NormalizeTheme, NormalizeThreshold, IntText, AtoiOrZero;
    TagIsFixed(s.tag);
    DurationIsFixed(lib, s.interval);
    DurationIsFixed(lib, s.dnsTimeout);
    DNSIsFixed(lib, s.dns);
    ThresholdIsFixed(s.threshold);
    FoldedNamesAreFixed(s.logLevel);
    FoldedNamesAreFixed(s.theme);
  }

  lemma DNSIsFixed(lib: Library, v: string)
    requires NormalizeDNS(lib, v).Some?
    ensures var w := NormalizeDNS(lib, v).value; Trim(w) == w && w != "" && NormalizeDNS(lib, w) == Some(w)
  {
    hide Trim;
    TrimTrims(v);
  }

  lemma StoredTexts(s: Settings)
    ensures var m := ToStore(s);
            && Raw(m, TcAccessID) == s.credentials.tcID && Raw(m, TcAccessKey) == s.credentials.tcKey
            && Raw(m, AliAccessID) == s.credentials.aliID && Raw(m, AliAccessKey) == s.credentials.aliKey
            && Raw(m, TagKey) == s.tag && Raw(m, Interval) == s.interval && Raw(m, DNS) == s.dns && Raw(m, DNSTimeout) == s.dnsTimeout
            && Raw(m, DNSFailThreshold) == IntText(s.threshold) && Raw(m, LogLevel) == s.logLevel
            && Raw(m, SyncEnabled) == BoolText(s.syncEnabled) && Raw(m, Theme) == s.theme
  {
    hide IntText, BoolText;
  }

  /** Every value of normal settings survives the store's own validation; none falls back to a default. */
  lemma TextsAreKept(lib: Library, s: Settings)
    requires Sane(lib) && NormalSettings(lib, s)
    ensures OrDefault(s.tag, DEFAULT_TAG, NormalizeTag(Trim(s.tag))) == Some(s.tag)
    ensures OrDefault(s.interval, DEFAULT_INTERVAL, PositiveDuration(lib, Trim(s.interval))) == Some(s.interval)
    ensures OrDefault(s.dns, DEFAULT_DNS, NormalizeDNS(lib, Trim(s.dns))) == Some(s.dns)
    ensures OrDefault(s.dnsTimeout, DEFAULT_DNS_TIMEOUT, PositiveDuration(lib, Trim(s.dnsTimeout))) == Some(s.dnsTimeout)
    ensures OrDefault(IntText(s.threshold), DEFAULT_THRESHOLD, NormalizeThreshold(Trim(IntText(s.threshold)))) == Some(IntText(s.threshold))
    ensures OrDefault(s.logLevel, DEFAULT_LOG_LEVEL, NormalizeLogLevel(Trim(s.logLevel))) == Some(s.logLevel)
    ensures OrDefault(s.theme, DEFAULT_THEME, NormalizeTheme(Trim(s.theme))) == Some(s.theme)
    ensures OrDefault(BoolText(s.syncEnabled), BoolText(true), SwitchText(Trim(BoolText(s.syncEnabled)))) == Some(BoolText(s.syncEnabled))
    ensures AtoiOrZero(IntText(s.threshold)) == s.threshold
  {
    hide Trim, NormalizeTag, PositiveDuration, NormalizeDNS, NormalizeLogLevel, NormalizeTheme, NormalizeThreshold, IntText, AtoiOrZero,
         BoolText, NormalizeSwitch;
    TagIsFixed(s.tag);
    DurationIsFixed(lib, s.interval);
    DurationIsFixed(lib, s.dnsTimeout);
    DNSIsFixed(lib, s.dns);
    ThresholdIsFixed(s.threshold);
    FoldedNamesAreFixed(s.logLevel);
    FoldedNamesAreFixed(s.theme);
    SwitchIsFixed(s.syncEnabled);
  }

  /** Settings written to the store and loaded again come back as they were. */
  lemma SettingsRoundTrip(lib: Library, s: Settings)
    requires Sane(lib) && NormalSettings(lib, s)
    ensures LoadSettings(lib, ToStore(s)) == Some(ToStore(s)) && FromStore(ToStore(s)) == s
  {
    hide Trim, NormalizeTag, PositiveDuration, NormalizeDNS, NormalizeLogLevel, NormalizeTheme, NormalizeThreshold, IntText, AtoiOrZero,
         BoolText, SwitchText, OrDefault, Raw, NormalSettings;
    StoredTexts(s);
    TextsAreKept(lib, s);
    BoolTextsDiffer();
  }

  lemma BoolTextsDiffer()
    ensures BoolText(true) != BoolText(false)
  {
  }

  // -------------------------------------------------------------------------- export

  datatype Snapshot = Snapshot(targets: seq<Target>, rules: seq<DomainRule>, settings: map<SettingKey, string>,
                               policy: Policy, email: Email, webhook: Webhook, push: Push)

  /** A rule of a bundle; it has no ID of its own. */
  datatype BundleRule = BundleRule(host: string, protocol: string, ports: string, action: string, refs: seq<int>,
                                   comment: string, enableIPv6: bool)

  /** A bundle; the ID of a target is its export ID. */
  datatype BundleV3 = BundleV3(version: int, targets: seq<Target>, rules: seq<BundleRule>, settings: Settings,
                               policy: Policy, email: Email, webhook: Webhook, push: Push)

  const VERSION := 3

  const DEFAULT_POLICY := Policy(false, false, false, "10m")
  const DEFAULT_PUSH := Push(false, "", "60s")
  const NO_EMAIL := Email(false, "", "", "", "", "", "", "", "", "")
  const DEFAULT_SUBJECT: string := "[FWAlizer] 告警通知"
  const DEFAULT_BODY: string := "FWAlizer 检测到运行异常，请检查同步日志。"

  function Or(v: string, fallback: string): string { if v == "" then fallback else v }

  function FilledPolicy(p: Policy): Policy { if p.healthTimeout == "" then DEFAULT_POLICY else p }

  function FilledPush(p: Push): Push { if p.interval == "" then DEFAULT_PUSH else p }

  /** A row that was never saved gets the default body; a saved empty body stays empty. */
  function FilledEmail(e: Email): Email {
    e.(body := if e == NO_EMAIL then DEFAULT_BODY else e.body, security := Or(e.security, "auto_starttls"),
       port := Or(e.port, "587"), subject := Or(e.subject, DEFAULT_SUBJECT))
  }

  function RuleOut(r: DomainRule): BundleRule {
    BundleRule(r.host, r.protocol, r.ports, r.action, Sort(IntLe, r.targets), r.comment, r.enableIPv6)
  }

  function RulesOut(rs: seq<DomainRule>): (out: seq<BundleRule>)
    ensures |out| == |rs| && forall i :: 0 <= i < |rs| ==> out[i] == RuleOut(rs[i])
  {
    seq(|rs|, i requires 0 <= i < |rs| => RuleOut(rs[i]))
  }

  function Exported(s: Snapshot): BundleV3 {
    BundleV3(VERSION, s.targets, RulesOut(s.rules), FromStore(s.settings),
             FilledPolicy(s.policy), FilledEmail(s.email), s.webhook, FilledPush(s.push))
  }

  /** Moves the value at `i` down to its place among the sorted ones before it. */
  method SinkIn(values: array<int>, i: nat)
    requires i < values.Length && forall a, b :: 0 <= a < b < i ==> values[a] <= values[b]
    modifies values
    ensures forall a, b :: 0 <= a < b <= i ==> values[a] <= values[b]
    ensures multiset(values[..]) == multiset(old(values[..]))
  {
    var j := i;
    while j > 0 && values[j - 1] > values[j]
      invariant j <= i && multiset(values[..]) == multiset(old(values[..]))
      invariant forall a, b :: 0 <= a < b <= i && b != j ==> values[a] <= values[b]
    {
      Swap(values, j);
      j := j - 1;
    }
  }

  /** Swaps a value with the one before it. */
  method Swap(values: array<int>, j: nat)
    requires 0 < j < values.Length
    modifies values
    ensures values[j - 1] == old(values[j]) && values[j] == old(values[j - 1])
    ensures forall k :: 0 <= k < values.Length && k != j && k != j - 1 ==> values[k] == old(values[k])
    ensures multiset(values[..]) == multiset(old(values[..]))
  {
    ghost var before := values[..];
    values[j - 1], values[j] := values[j], values[j - 1];
    assert values[..] == before[j - 1 := before[j]][j := before[j - 1]];
    SwapKeeps(before, j - 1, j);
  }

  lemma SwapKeeps(s: seq<int>, i: nat, j: nat)
    requires i < |s| && j < |s|
    ensures multiset(s[i := s[j]][j := s[i]]) == multiset(s)
  {
  }

  /** `sortIntsAscending`: insertion sort in place. */
  method SortIntsAscending(values: array<int>)
    modifies values
    ensures values[..] == Sort(IntLe, old(values[..]))
  {
    hide Sort;
    ghost var was := values[..];
    if values.Length > 0 {
      for i := 1 to values.Length
        invariant forall a, b :: 0 <= a < b < i ==> values[a] <= values[b]
        invariant multiset(values[..]) == multiset(was)
      {
        SinkIn(values, i);
      }
    }
    SortedIs(values[..], was);
  }

  lemma SortedIs(s: seq<int>, was: seq<int>)
    requires multiset(s) == multiset(was) && SortedBy(IntLe, s)
    ensures s == Sort(IntLe, was)
  {
    SortSorts(IntLe, was);
    SortKeeps(IntLe, was);
    SortedPermutationsAgree(IntLe, s, Sort(IntLe, was));
  }

  /** `toBundleV3`. */
  method ToBundle(s: Snapshot) returns (b: BundleV3)
    ensures b == Exported(s)
  {
    hide Sort, FromStore, FilledEmail;
    var targets: seq<Target> := [];
    for i := 0 to |s.targets|
      invariant targets == s.targets[..i]
    {
      targets := targets + [s.targets[i]];
    }
    var rules: seq<BundleRule> := [];
    for i := 0 to |s.rules|
      invariant |rules| == i && forall j :: 0 <= j < i ==> rules[j] == RuleOut(s.rules[j])
    {
      var r := s.rules[i];
      var refs := new int[|r.targets|](k requires 0 <= k < |r.targets| => r.targets[k]);
      assert refs[..] == r.targets;
      SortIntsAscending(refs);
      rules := rules + [BundleRule(r.host, r.protocol, r.ports, r.action, refs[..], r.comment, r.enableIPv6)];
    }
    assert rules == RulesOut(s.rules) && targets == s.targets;
    b := BundleV3(VERSION, targets, rules, FromStore(s.settings),
                  FilledPolicy(s.policy), FilledEmail(s.email), s.webhook, FilledPush(s.push));
  }

  // ---------------------------------------------------------------------- validation

  function IDs(ts: seq<Target>): (ids: seq<int>)
    ensures |ids| == |ts| && forall i :: 0 <= i < |ts| ==> ids[i] == ts[i].id
  {
    seq(|ts|, i requires 0 <= i < |ts| => ts[i].id)
  }

  function AsRule(r: BundleRule): DomainRule {
    DomainRule(0, r.host, r.protocol, r.ports, r.action, r.refs, r.comment, r.enableIPv6)
  }

  function CheckTargets(ts: seq<Target>): Option<seq<Target>> {
    if ts == [] then Some([])
    else
      match (CheckTargets(ts[..|ts| - 1]), NormalizeTarget(ts[|ts| - 1]))
      case (Some(init), Some(t)) => Some(init + [t])
      case _ => None
  }

  function IDSet(ts: seq<Target>): set<int> { set t | t in ts :: t.id }

  ghost function CheckRule(ids: set<int>, r: BundleRule): Option<BundleRule> {
    if !AcceptedIDs(r.refs) || exists k :: 0 <= k < |r.refs| && r.refs[k] !in ids then None
    else
      match NormalizeRule(AsRule(r))
      case None => None
      case Some(n) => Some(BundleRule(n.host, n.protocol, n.ports, n.action, r.refs, n.comment, n.enableIPv6))
  }

  ghost function CheckRules(ids: set<int>, rs: seq<BundleRule>): Option<seq<BundleRule>> {
    if rs == [] then Some([])
    else
      match (CheckRules(ids, rs[..|rs| - 1]), CheckRule(ids, rs[|rs| - 1]))
      case (Some(init), Some(r)) => Some(init + [r])
      case _ => None
  }

  /** What an import accepts, and what it makes of it. */
  ghost function Checked(lib: Library, b: BundleV3): Option<BundleV3> {
    if b.version != VERSION || !AcceptedIDs(IDs(b.targets)) then None
    else
      match (CheckTargets(b.targets), CheckRules(IDSet(b.targets), b.rules), CheckSettings(lib, b.settings),
             NormalizePolicy(lib, b.policy), NormalizeEmail(lib, b.email), NormalizeWebhook(lib, b.webhook), NormalizePush(lib, b.push))
      case (Some(ts), Some(rs), Some(settings), Some(policy), Some(email), Some(webhook), Some(push)) =>
        Some(BundleV3(VERSION, ts, rs, settings, policy, email, webhook, push))
      case _ => None
  }

  method ValidateTargets(ts: seq<Target>) returns (out: Option<seq<Target>>, seen: set<int>)
    ensures out == if AcceptedIDs(IDs(ts)) then CheckTargets(ts) else None
    ensures out.Some? ==> seen == IDSet(ts)
  {
    hide NormalizeTarget;
    var kept: seq<Target> := [];
    seen := {};
    for i := 0 to |ts|
      invariant CheckTargets(ts[..i]) == Some(kept) && AcceptedIDs(IDs(ts)[..i])
      invariant seen == IDSet(ts[..i])
    {
      var t := ts[i];
      assert ts[..i + 1][..i] == ts[..i];
      assert IDSet(ts[..i + 1]) == seen + {t.id} by { assert ts[..i + 1] == ts[..i] + [t]; }
      if t.id <= 0 || t.id in seen {
        RejectedID(ts, i);
        return None, seen;
      }
      var n := NormalizeTarget(t);
      if n.None? {
        RejectedTarget(ts, i);
        return None, seen;
      }
      AcceptedID(ts, i);
      seen, kept := seen + {t.id}, kept + [n.value];
    }
    assert ts[..|ts|] == ts && IDs(ts)[..|ts|] == IDs(ts);
    out := Some(kept);
  }

  lemma RejectedID(ts: seq<Target>, i: nat)
    requires i < |ts| && (ts[i].id <= 0 || ts[i].id in IDSet(ts[..i]))
    ensures !AcceptedIDs(IDs(ts))
  {
    assert IDs(ts)[i] == ts[i].id;
    if ts[i].id in IDSet(ts[..i]) {
      var t :| t in ts[..i] && t.id == ts[i].id;
      var j :| 0 <= j < i && ts[..i][j] == t;
      assert IDs(ts)[j] == IDs(ts)[i];
    }
  }

  lemma AcceptedID(ts: seq<Target>, i: nat)
    requires i < |ts| && AcceptedIDs(IDs(ts)[..i]) && ts[i].id > 0 && ts[i].id !in IDSet(ts[..i])
    ensures AcceptedIDs(IDs(ts)[..i + 1])
  {
    forall j | 0 <= j < i ensures IDs(ts)[j] != ts[i].id {
      assert ts[..i][j] in ts[..i];
    }
  }

  lemma {:induction false} RejectedTarget(ts: seq<Target>, i: nat)
    requires i < |ts| && NormalizeTarget(ts[i]).None?
    ensures CheckTargets(ts).None?
  {
    hide NormalizeTarget;
    if i < |ts| - 1 { RejectedTarget(ts[..|ts| - 1], i); }
  }

  method ValidateRules(ids: set<int>, rs: seq<BundleRule>) returns (out: Option<seq<BundleRule>>)
    ensures out == CheckRules(ids, rs)
  {
    hide NormalizeRule, AcceptedIDs;
    var kept: seq<BundleRule> := [];
    for i := 0 to |rs|
      invariant CheckRules(ids, rs[..i]) == Some(kept)
    {
      var r := rs[i];
      assert rs[..i + 1][..i] == rs[..i];
      var refs := NormalizeTargetIDs(r.refs);
      if refs.None? {
        RejectedRule(ids, rs, i);
        return None;
      }
      for k := 0 to |r.refs|
        invariant forall j :: 0 <= j < k ==> r.refs[j] in ids
      {
        if r.refs[k] !in ids {
          RejectedRule(ids, rs, i);
          return None;
        }
      }
      var n := NormalizeRule(AsRule(r));
      if n.None? {
        RejectedRule(ids, rs, i);
        return None;
      }
      kept := kept + [BundleRule(n.value.host, n.value.protocol, n.value.ports, n.value.action, refs.value, n.value.comment, n.value.enableIPv6)];
    }
    assert rs[..|rs|] == rs;
    out := Some(kept);
  }

  lemma {:induction false} RejectedRule(ids: set<int>, rs: seq<BundleRule>, i: nat)
    requires i < |rs| && CheckRule(ids, rs[i]).None?
    ensures CheckRules(ids, rs).None?
  {
    hide CheckRule;
    if i < |rs| - 1 { RejectedRule(ids, rs[..|rs| - 1], i); }
  }

  /** `validateAndNormalizeBundle` on a complete bundle. */
  method ValidateBundle(lib: Library, b: BundleV3) returns (c: Option<BundleV3>)
    ensures c == Checked(lib, b)
  {
    hide CheckTargets, CheckRules, CheckSettings, NormalizePolicy, NormalizeEmail, NormalizeWebhook, NormalizePush, AcceptedIDs;
    c := None;
    if b.version != VERSION {
      return;
    }
    var targets, seen := ValidateTargets(b.targets);
    if targets.None? {
      return;
    }
    var rules := ValidateRules(seen, b.rules);
    if rules.None? {
      return;
    }
    var settings := CheckSettings(lib, b.settings);
    var policy, email := NormalizePolicy(lib, b.policy), NormalizeEmail(lib, b.email);
    var webhook, push := NormalizeWebhook(lib, b.webhook), NormalizePush(lib, b.push);
    if settings.None? || policy.None? || email.None? || webhook.None? || push.None? {
      return;
    }
    c := Some(BundleV3(VERSION, targets.value, rules.value, settings.value, policy.value, email.value, webhook.value, push.value));
  }
}
