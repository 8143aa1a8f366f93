/** Domain validation of stored settings, targets and alerts (config/validate.go, config/store.go). Parsing of
    durations, DNS addresses and URLs is library code and enters as a parameter. */
module Config {
  import opened Text
  import opened Tag
  import opened Plan
  import opened Validate

  /** What library code says about a trimmed text: the duration it means (not positive when it means none),
      whether it is a DNS server address, whether it is an absolute http(s) URL with a host, and its length
      in bytes. */
  datatype Library = Library(duration: string -> int, dnsAddress: string -> bool, webURL: string -> bool, bytes: string -> nat)

  ghost predicate Sane(lib: Library) { lib.duration("") <= 0 }

  // ------------------------------------------------------------------------ targets

  datatype Target = Target(id: int, cloudType: string, region: string, resourceID: string)

  predicate CloudName(s: string) { s in {"tc_lighthouse", "tc_cvm", "ali_swas", "ali_ecs"} }

  function NormalizeTarget(t: Target): Option<Target> {
    var (ct, region, resource) := (Trim(t.cloudType), Trim(t.region), Trim(t.resourceID));
    if CloudName(ct) && region != "" && resource != "" then Some(Target(t.id, ct, region, resource)) else None
  }

  lemma TargetIsFixed(t: Target)
    requires NormalizeTarget(t).Some?
    ensures NormalizeTarget(NormalizeTarget(t).value) == NormalizeTarget(t)
  {
    hide Trim, CloudName;
    TrimTrims(t.cloudType);
    TrimTrims(t.region);
    TrimTrims(t.resourceID);
  }

  lemma RuleIsFixed(r: DomainRule)
    requires NormalizeRule(r).Some?
    ensures NormalizeRule(NormalizeRule(r).value) == NormalizeRule(r)
  {
    hide Trim, Upper;
    var n := NormalizeRule(r).value;
    TrimTrims(r.host);
    TrimTrims(r.ports);
    TrimOfTrimmed(n.ports);
    PlainIsFixed(n.protocol);
    PlainIsFixed(n.action);
  }

  /** References must be positive and distinct; nothing is dropped or reordered. */
  ghost predicate AcceptedIDs(ids: seq<int>) {
    (forall i :: 0 <= i < |ids| ==> ids[i] > 0) && forall i, j :: 0 <= i < j < |ids| ==> ids[i] != ids[j]
  }

  method NormalizeTargetIDs(ids: seq<int>) returns (out: Option<seq<int>>)
    ensures out == if AcceptedIDs(ids) then Some(ids) else None
  {
    var kept: seq<int> := [];
    var seen: set<int> := {};
    for i := 0 to |ids|
      invariant kept == ids[..i] && AcceptedIDs(kept)
      invariant forall x :: x in seen <==> x in kept
    {
      if ids[i] <= 0 {
        return None;
      }
      if ids[i] in seen {
        assert ids[i] in kept;
        return None;
      }
      seen, kept := seen + {ids[i]}, kept + [ids[i]];
    }
    assert kept == ids;
    out := Some(kept);
  }

  // ----------------------------------------------------------------------- settings

  function PositiveDuration(lib: Library, v: string): Option<string> {
    if lib.duration(Trim(v)) > 0 then Some(Trim(v)) else None
  }

  function NormalizeDNS(lib: Library, v: string): Option<string> {
    if Trim(v) != "" && lib.dnsAddress(Trim(v)) then Some(Trim(v)) else None
  }

  /** `strconv.Atoi` on a 64-bit platform, then the canonical decimal text. */
  function NormalizeThreshold(v: string): Option<string> {
    match ParseInt64(Trim(v))
    case None => None
    case Some(n) => if n <= 0 then None else Some(Decimal(n))
  }

  predicate LogLevelName(s: string) { s in {"debug", "info", "warn", "error"} }
  predicate ThemeName(s: string) { s in {"light", "dark"} }

  function NormalizeLogLevel(v: string): Option<string> { if LogLevelName(Folded(v)) then Some(Folded(v)) else None }
  function NormalizeTheme(v: string): Option<string> { if ThemeName(Folded(v)) then Some(Folded(v)) else None }

  function BoolText(b: bool): string { if b then "true" else "false" }

  function NormalizeSwitch(v: string): Option<bool> {
    if Trim(v) == BoolText(true) then Some(true) else if Trim(v) == BoolText(false) then Some(false) else None
  }

  lemma NumberIsFixed(n: nat)
    requires n <= MAX_INT64
    ensures ParseInt64(Trim(Decimal(n))) == Some(n) && Trim(Decimal(n)) == Decimal(n)
  {
    hide Decimal, Trim;
    TrimOfTrimmed(Decimal(n));
    var s := Decimal(n);
    assert Digit(s[0]);
  }

  lemma SwitchIsFixed(b: bool)
    ensures NormalizeSwitch(BoolText(b)) == Some(b) && Trim(BoolText(b)) == BoolText(b) && BoolText(b) != ""
  {
    hide Trim;
    TrimOfTrimmed("true");
    TrimOfTrimmed("false");
  }

  // ------------------------------------------------------------------------- alerts

  datatype Policy = Policy(dnsFailed: bool, syncError: bool, operationalError: bool, healthTimeout: string)
  datatype Email = Email(enabled: bool, host: string, port: string, security: string, username: string, password: string,
                         fromAddr: string, toAddr: string, subject: string, body: string)
  datatype Webhook = Webhook(enabled: bool, url: string, channel: string)
  datatype Push = Push(enabled: bool, url: string, interval: string)

  const MIN_PUSH_INTERVAL := 20_000_000_000
  const MAX_SUBJECT_RUNES := 200
  const MAX_BODY_BYTES := 10240

  predicate SecurityName(s: string) { s in {"auto_starttls", "starttls", "implicit_tls"} }
  predicate ChannelName(s: string) { s in {"dingtalk", "feishu", "slack"} }

  function NormalizePort(v: string): Option<string> {
    match ParseInt64(Trim(v))
    case None => None
    case Some(n) => if n < 1 || n > 65535 then None else Some(Decimal(n))
  }

  function NormalizePolicy(lib: Library, p: Policy): Option<Policy> {
    match PositiveDuration(lib, p.healthTimeout) case None => None case Some(t) => Some(p.(healthTimeout := t))
  }

  function NormalizeEmail(lib: Library, e: Email): Option<Email> {
    var n := e.(host := Trim(e.host), fromAddr := Trim(e.fromAddr), toAddr := Trim(e.toAddr), subject := Trim(e.subject));
    if !SecurityName(e.security) then None
    else
      match NormalizePort(e.port)
      case None => None
      case Some(port) =>
        if e.enabled && (n.host == "" || n.fromAddr == "" || n.toAddr == "") then None
        else if n.subject == "" || |n.subject| > MAX_SUBJECT_RUNES || (exists c :: c in n.subject && IsControl(c)) then None
        else if lib.bytes(n.body) > MAX_BODY_BYTES then None
        else Some(n.(port := port))
  }

  function NormalizeWebhook(lib: Library, w: Webhook): Option<Webhook> {
    var n := w.(channel := Folded(w.channel), url := Trim(w.url));
    if n.channel == "" && w.enabled then None
    else if n.channel != "" && !ChannelName(n.channel) then None
    else if w.enabled && !lib.webURL(n.url) then None
    else Some(n)
  }

  function NormalizePush(lib: Library, p: Push): Option<Push> {
    match PositiveDuration(lib, p.interval)
    case None => None
    case Some(t) =>
      if lib.duration(t) < MIN_PUSH_INTERVAL then None
      else if p.enabled && !lib.webURL(Trim(p.url)) then None
      else Some(p.(interval := t, url := Trim(p.url)))
  }

  lemma PortIsFixed(v: string)
    requires NormalizePort(v).Some?
    ensures NormalizePort(NormalizePort(v).value) == NormalizePort(v) && NormalizePort(v).value != ""
  {
    hide Decimal, Trim, ParseInt64;
    NumberIsFixed(ParseInt64(Trim(v)).value);
  }

  lemma DurationIsFixed(lib: Library, v: string)
    requires PositiveDuration(lib, v).Some?
    ensures PositiveDuration(lib, PositiveDuration(lib, v).value) == PositiveDuration(lib, v)
    ensures Sane(lib) ==> PositiveDuration(lib, v).value != ""
    ensures Trim(PositiveDuration(lib, v).value) == PositiveDuration(lib, v).value
  {
    hide Trim;
    TrimTrims(v);
  }

  /** Validating validated alerts changes nothing. */
  lemma AlertsAreFixed(lib: Library, p: Policy, e: Email, w: Webhook, u: Push)
    ensures NormalizePolicy(lib, p).Some? ==> NormalizePolicy(lib, NormalizePolicy(lib, p).value) == NormalizePolicy(lib, p)
    ensures NormalizeEmail(lib, e).Some? ==> NormalizeEmail(lib, NormalizeEmail(lib, e).value) == NormalizeEmail(lib, e)
    ensures NormalizeWebhook(lib, w).Some? ==> NormalizeWebhook(lib, NormalizeWebhook(lib, w).value) == NormalizeWebhook(lib, w)
    ensures NormalizePush(lib, u).Some? ==> NormalizePush(lib, NormalizePush(lib, u).value) == NormalizePush(lib, u)
  {
    hide Trim, NormalizePort, PositiveDuration, SecurityName, ChannelName, IsControl, Folded;
    if PositiveDuration(lib, p.healthTimeout).Some? { DurationIsFixed(lib, p.healthTimeout); }
    if PositiveDuration(lib, u.interval).Some? { DurationIsFixed(lib, u.interval); }
    TrimTrims(u.url);
    TrimTrims(w.url);
    FoldedIsFixed(w.channel);
    if NormalizePort(e.port).Some? { PortIsFixed(e.port); }
    TrimTrims(e.host);
    TrimTrims(e.fromAddr);
    TrimTrims(e.toAddr);
    TrimTrims(e.subject);
  }
}
