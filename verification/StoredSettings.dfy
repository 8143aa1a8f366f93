/** Whatever settings the store loads, defaults included, are settings an export can carry: the premise of the
    round trip holds of every store that loads at all. */
module StoredSettings {
  import opened Text
  import opened Tag
  import opened Config
  import opened Bundle
  import opened BundleRoundTrip

  /** The library recognises the three defaults it has a say in. */
  ghost predicate KnowsDefaults(lib: Library) {
    && lib.duration(DEFAULT_INTERVAL) > 0 && lib.duration(DEFAULT_DNS_TIMEOUT) > 0 && lib.dnsAddress(DEFAULT_DNS)
  }

  // ------------------------------------------------------------- the defaults are valid

  lemma DefaultTexts(lib: Library)
    requires KnowsDefaults(lib)
    ensures NormalizeTag(DEFAULT_TAG) == Some(DEFAULT_TAG)
    ensures PositiveDuration(lib, DEFAULT_INTERVAL) == Some(DEFAULT_INTERVAL)
    ensures PositiveDuration(lib, DEFAULT_DNS_TIMEOUT) == Some(DEFAULT_DNS_TIMEOUT)
    ensures NormalizeDNS(lib, DEFAULT_DNS) == Some(DEFAULT_DNS)
  {
    hide Trim;
    TrimOfTrimmed(DEFAULT_TAG);
    TrimOfTrimmed(DEFAULT_INTERVAL);
    TrimOfTrimmed(DEFAULT_DNS_TIMEOUT);
    TrimOfTrimmed(DEFAULT_DNS);
  }

  lemma DefaultThreshold()
    ensures NormalizeThreshold(DEFAULT_THRESHOLD) == Some(DEFAULT_THRESHOLD)
  {
    hide Trim;
    TrimOfTrimmed(DEFAULT_THRESHOLD);
    assert DEFAULT_THRESHOLD == ['5'] && DigitsValue(['5']) == 5 && Decimal(5) == ['5'];
  }

  lemma DefaultNames()
    ensures NormalizeLogLevel(DEFAULT_LOG_LEVEL) == Some(DEFAULT_LOG_LEVEL)
    ensures NormalizeTheme(DEFAULT_THEME) == Some(DEFAULT_THEME)
  {
    hide Trim;
    TrimOfTrimmed(DEFAULT_LOG_LEVEL);
    TrimOfTrimmed(DEFAULT_THEME);
    assert Lower(DEFAULT_LOG_LEVEL) == DEFAULT_LOG_LEVEL;
    assert Lower(DEFAULT_THEME) == DEFAULT_THEME;
  }

  // ------------------------------------------------------------ what loads is normal

  lemma LoadedTexts(lib: Library, tag: string, interval: string, dns: string, timeout: string)
    requires KnowsDefaults(lib)
    ensures var t := OrDefault(tag, DEFAULT_TAG, NormalizeTag(Trim(tag))); t.Some? ==> NormalizeTag(t.value) == t
    ensures var t := OrDefault(interval, DEFAULT_INTERVAL, PositiveDuration(lib, Trim(interval)));
            t.Some? ==> PositiveDuration(lib, t.value) == t
    ensures var t := OrDefault(timeout, DEFAULT_DNS_TIMEOUT, PositiveDuration(lib, Trim(timeout)));
            t.Some? ==> PositiveDuration(lib, t.value) == t
    ensures var t := OrDefault(dns, DEFAULT_DNS, NormalizeDNS(lib, Trim(dns))); t.Some? ==> NormalizeDNS(lib, t.value) == t
  {
    hide Trim, NormalizeTag, PositiveDuration, NormalizeDNS;
    DefaultTexts(lib);
    if NormalizeTag(Trim(tag)).Some? { TagIsFixed(Trim(tag)); }
    if PositiveDuration(lib, Trim(interval)).Some? { DurationIsFixed(lib, Trim(interval)); }
    if PositiveDuration(lib, Trim(timeout)).Some? { DurationIsFixed(lib, Trim(timeout)); }
    if NormalizeDNS(lib, Trim(dns)).Some? { DNSIsFixed(lib, Trim(dns)); }
  }

  lemma LoadedNames(level: string, theme: string)
    ensures var t := OrDefault(level, DEFAULT_LOG_LEVEL, NormalizeLogLevel(Trim(level))); t.Some? ==> NormalizeLogLevel(t.value) == t
    ensures var t := OrDefault(theme, DEFAULT_THEME, NormalizeTheme(Trim(theme))); t.Some? ==> NormalizeTheme(t.value) == t
  {
    hide Trim, NormalizeLogLevel, NormalizeTheme;
    DefaultNames();
    FoldedNamesAreFixed(Trim(level));
    FoldedNamesAreFixed(Trim(theme));
  }

  /** A threshold that loads is the text of a positive number. */
  lemma LoadedThreshold(v: string)
    ensures var t := OrDefault(v, DEFAULT_THRESHOLD, NormalizeThreshold(Trim(v)));
            t.Some? ==> IntText(AtoiOrZero(t.value)) == t.value && NormalizeThreshold(t.value) == t
  {
    hide Trim, NormalizeThreshold, Decimal;
    var t := OrDefault(v, DEFAULT_THRESHOLD, NormalizeThreshold(Trim(v)));
    if t.Some? {
      DefaultThreshold();
      var source := if Trim(v) == "" then DEFAULT_THRESHOLD else Trim(v);
      assert NormalizeThreshold(source) == t;
      NumberText(source);
    }
  }

  lemma NumberText(v: string)
    requires NormalizeThreshold(v).Some?
    ensures var w := NormalizeThreshold(v).value; IntText(AtoiOrZero(w)) == w && NormalizeThreshold(w) == Some(w)
  {
    hide Trim, Decimal;
    assert ParseInt64(Trim(v)).Some? ==> ParseInt64(Trim(v)).value <= MAX_INT64;
    var n := ParseInt64(Trim(v)).value;
    NumberIsFixed(n);
    assert Trim(Decimal(n)) == Decimal(n);
  }

  lemma LoadedSwitch(v: string)
    ensures var t := OrDefault(v, BoolText(true), SwitchText(Trim(v))); t.Some? ==> BoolText(t.value == BoolText(true)) == t.value
  {
    hide Trim;
  }

  /** Settings that load are settings that validation leaves alone, and reading them out for an export and
      writing them back changes no text. */
  lemma LoadedAreNormal(lib: Library, raw: map<SettingKey, string>)
    requires Sane(lib) && KnowsDefaults(lib) && LoadSettings(lib, raw).Some?
    ensures var m := LoadSettings(lib, raw).value;
            NormalSettings(lib, FromStore(m)) && ToStore(FromStore(m)) == m && LoadSettings(lib, m) == Some(m)
  {
    hide Trim, NormalizeTag, PositiveDuration, NormalizeDNS, NormalizeLogLevel, NormalizeTheme, NormalizeThreshold, IntText, AtoiOrZero,
         BoolText, SwitchText, OrDefault;
    LoadedTexts(lib, Raw(raw, TagKey), Raw(raw, Interval), Raw(raw, DNS), Raw(raw, DNSTimeout));
    LoadedNames(Raw(raw, LogLevel), Raw(raw, Theme));
    LoadedThreshold(Raw(raw, DNSFailThreshold));
    LoadedSwitch(Raw(raw, SyncEnabled));
    var m := LoadSettings(lib, raw).value;
    SettingsRoundTrip(lib, FromStore(m));
  }

  const DEFAULTS := Settings(Credentials("", "", "", ""), DEFAULT_TAG, DEFAULT_INTERVAL, DEFAULT_DNS, DEFAULT_DNS_TIMEOUT, 5,
                             DEFAULT_LOG_LEVEL, true, DEFAULT_THEME)

  /** An empty store loads, with the documented defaults. */
  lemma EmptyStoreLoads(lib: Library)
    ensures LoadSettings(lib, map[]).Some?
    ensures FromStore(LoadSettings(lib, map[]).value)
            == Settings(Credentials("", "", "", ""), "auto-dns", "5m", "223.5.5.5", "10s", 5, "info", true, "light")
  {
    hide LoadSettings, FromStore, ToStore;
    EmptyLoadsDefaults(lib);
    DefaultsComeBack();
  }

  lemma EmptyLoadsDefaults(lib: Library)
    ensures LoadSettings(lib, map[]) == Some(ToStore(DEFAULTS))
  {
    hide Trim, NormalizeTag, PositiveDuration, NormalizeDNS, NormalizeLogLevel, NormalizeTheme, NormalizeThreshold, SwitchText, OrDefault,
         IntText, BoolText;
    forall fallback, normalized ensures OrDefault("", fallback, normalized) == Some(fallback) { BlankIsDefault(fallback, normalized); }
    FiveIsFive();
  }

  lemma DefaultsComeBack()
    ensures FromStore(ToStore(DEFAULTS)) == DEFAULTS
  {
    hide Raw, ToStore, AtoiOrZero, IntText, BoolText;
    StoredTexts(DEFAULTS);
    FiveIsFive();
  }

  lemma BlankIsDefault(fallback: string, normalized: Option<string>)
    ensures OrDefault("", fallback, normalized) == Some(fallback)
  {
    hide Trim;
    TrimOfTrimmed("");
  }

  lemma FiveIsFive()
    ensures AtoiOrZero(IntText(5)) == 5 && IntText(5) == DEFAULT_THRESHOLD
  {
    assert DEFAULT_THRESHOLD == ['5'] && DigitsValue(['5']) == 5;
  }

  /** The snapshot of a fresh installation: default settings, nothing configured, no alert ever saved. */
  function FreshInstall(lib: Library): Snapshot
    requires LoadSettings(lib, map[]).Some?
  {
    Snapshot([], [], LoadSettings(lib, map[]).value, DEFAULT_POLICY, NO_EMAIL, Webhook(false, "", ""), DEFAULT_PUSH)
  }

  /** A fresh installation can be exported and imported again. */
  lemma FreshInstallIsNormal(lib: Library)
    requires Sane(lib) && KnowsDefaults(lib) && KnowsAlertDefaults(lib)
    ensures LoadSettings(lib, map[]).Some? && NormalSnapshot(lib, FreshInstall(lib))
  {
    hide Trim, Folded, NormalSettings, LoadSettings, FromStore;
    EmptyStoreLoads(lib);
    LoadedAreNormal(lib, map[]);
    TrimOfTrimmed("");
    TrimOfTrimmed(DEFAULT_POLICY.healthTimeout);
    TrimOfTrimmed(DEFAULT_PUSH.interval);
    assert Folded("") == "" by { EmptyFolds(); }
  }

  lemma EmptyFolds()
    ensures Folded("") == ""
  {
  }
}
