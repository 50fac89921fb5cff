/**
 * `Options`: the probe catalogue, the on/off toggles for each probe and the
 * API token. Stored options are passed in as PHP values; `sanitize_text_field`
 * and the SHA-256 hash are parameters.
 */
module Options {
  import opened Wrappers
  import opened Php
  import opened PhpStrings
  import opened Hashing
  import opened Registry

  const TokenPlaceholder: string := "__VIGILANT_HEALTHCHECKS_TOKEN__"

  /** One row of `availableChecks()` / `availableMetrics()`: key, label (`caption`) and class. */
  datatype Descriptor<K> = Descriptor(key: string, caption: string, kind: K)

  const AvailableChecks: seq<Descriptor<CheckKind>> := [
    Descriptor("database", "Database connection", Database),
    Descriptor("site_health", "Site Health", SiteHealth),
    Descriptor("core_version", "Core version", CoreVersion),
    Descriptor("redis", "Redis", Redis),
    Descriptor("plugin_updates", "Plugin updates", PluginUpdates),
    Descriptor("cron", "WP Cron", Cron)
  ]

  const AvailableMetrics: seq<Descriptor<MetricKind>> := [
    Descriptor("memory_usage", "Memory usage", MemoryUsage),
    Descriptor("disk_usage", "Disk usage", DiskUsage),
    Descriptor("cpu_load", "CPU load", CpuLoad),
    Descriptor("database_size", "Database size", DatabaseSize)
  ]

  function DescriptorKeys<K>(ds: seq<Descriptor<K>>): seq<string> {
    seq(|ds|, i requires 0 <= i < |ds| => ds[i].key)
  }

  /** The class registered under `key`, if the catalogue has one (`isset($available[$key])`). */
  function ClassFor<K>(ds: seq<Descriptor<K>>, key: string): Option<K> {
    if ds == [] then None
    else if ds[0].key == key then Some(ds[0].kind)
    else ClassFor(ds[1..], key)
  }

  /** A toggle map, `array<string, bool>`, in insertion order. */
  datatype Toggle = Toggle(key: string, enabled: bool)

  function ToggleKeys(ts: seq<Toggle>): seq<string> {
    seq(|ts|, i requires 0 <= i < |ts| => ts[i].key)
  }

  ghost predicate DistinctToggleKeys(ts: seq<Toggle>) {
    forall i, j :: 0 <= i < j < |ts| ==> ts[i].key != ts[j].key
  }

  /** A toggle map as the PHP array that is stored in the options table. */
  function ToggleArray(ts: seq<Toggle>): Value {
    Arr(seq(|ts|, i requires 0 <= i < |ts| => Entry(ts[i].key, Bool(ts[i].enabled))))
  }

  /** `array_fill_keys(array_keys($available), true)`. */
  function DefaultToggles<K>(ds: seq<Descriptor<K>>): seq<Toggle> {
    seq(|ds|, i requires 0 <= i < |ds| => Toggle(ds[i].key, true))
  }

  /** `defaultCheckToggles()`: every available check, on. */
  function DefaultCheckToggles(): (r: seq<Toggle>)
    ensures |r| == |AvailableChecks|
    ensures forall i :: 0 <= i < |r| ==> r[i].key == AvailableChecks[i].key && r[i].enabled
  {
    DefaultToggles(AvailableChecks)
  }

  /** `defaultMetricToggles()`: every available metric, on. */
  function DefaultMetricToggles(): (r: seq<Toggle>)
    ensures |r| == |AvailableMetrics|
    ensures forall i :: 0 <= i < |r| ==> r[i].key == AvailableMetrics[i].key && r[i].enabled
  {
    DefaultToggles(AvailableMetrics)
  }

  /** Every known check and every known metric is on by default, in catalogue order. */
  lemma DefaultTogglesEnableAll()
    ensures ToggleKeys(DefaultCheckToggles())
         == ["database", "site_health", "core_version", "redis", "plugin_updates", "cron"]
    ensures ToggleKeys(DefaultMetricToggles())
         == ["memory_usage", "disk_usage", "cpu_load", "database_size"]
    ensures forall i :: 0 <= i < |DefaultCheckToggles()| ==> DefaultCheckToggles()[i].enabled
    ensures forall i :: 0 <= i < |DefaultMetricToggles()| ==> DefaultMetricToggles()[i].enabled
    ensures DistinctToggleKeys(DefaultCheckToggles()) && DistinctToggleKeys(DefaultMetricToggles())
  {
  }

  /** What `sanitizeToggleOption` stores: each default key, on iff the submitted value under it is non-empty. */
  function Sanitized(value: Value, defaults: seq<Toggle>): seq<Toggle> {
    seq(|defaults|, i requires 0 <= i < |defaults| =>
      Toggle(defaults[i].key, !Empty(Index(value, defaults[i].key))))
  }

  /** What `normalizeToggleValues` reads: the stored value cast to bool where the key exists, else the default. */
  function Normalized(values: Value, defaults: seq<Toggle>): seq<Toggle> {
    seq(|defaults|, i requires 0 <= i < |defaults| =>
      Toggle(defaults[i].key,
             match Index(values, defaults[i].key)
             case Some(v) => Truthy(v)
             case None => defaults[i].enabled))
  }

  /**
   * `sanitizeToggleOption($value, $defaults)`: the result has exactly the
   * default keys in default order; unknown submitted keys are dropped; a key
   * is on iff the submitted value under it is non-empty, so a non-array
   * submission turns everything off.
   */
  method SanitizeToggleOption(value: Value, defaults: seq<Toggle>) returns (sanitized: seq<Toggle>)
    ensures ToggleKeys(sanitized) == ToggleKeys(defaults)
    ensures forall i :: 0 <= i < |sanitized| ==>
      (sanitized[i].enabled <==> (value.Arr? && Index(value, sanitized[i].key).Some?
                                  && Truthy(Index(value, sanitized[i].key).value)))
    ensures !value.Arr? ==> forall i :: 0 <= i < |sanitized| ==> !sanitized[i].enabled
    ensures sanitized == Sanitized(value, defaults)
  {
    var submitted := if value.Arr? then value else Arr([]);
    sanitized := [];
    for i := 0 to |defaults|
      invariant |sanitized| == i
      invariant forall j :: 0 <= j < i ==>
        sanitized[j] == Toggle(defaults[j].key, !Empty(Index(value, defaults[j].key)))
    {
      var key := defaults[i].key;
      sanitized := sanitized + [Toggle(key, !Empty(Index(submitted, key)))];
    }
  }

  method SanitizeCheckToggles(value: Value) returns (r: seq<Toggle>)
    ensures r == Sanitized(value, DefaultCheckToggles())
  {
    r := SanitizeToggleOption(value, DefaultCheckToggles());
  }

  method SanitizeMetricToggles(value: Value) returns (r: seq<Toggle>)
    ensures r == Sanitized(value, DefaultMetricToggles())
  {
    r := SanitizeToggleOption(value, DefaultMetricToggles());
  }

  /**
   * `normalizeToggleValues($values, $defaults)`: exactly the default keys in
   * default order; a stored key keeps its value cast to bool, a missing key
   * takes its default, and a non-array stored value gives the defaults.
   */
  method NormalizeToggleValues(values: Value, defaults: seq<Toggle>) returns (normalized: seq<Toggle>)
    ensures ToggleKeys(normalized) == ToggleKeys(defaults)
    ensures forall i :: 0 <= i < |normalized| ==>
      normalized[i].enabled == if Index(values, normalized[i].key).Some?
                               then Truthy(Index(values, normalized[i].key).value)
                               else defaults[i].enabled
    ensures !values.Arr? ==> normalized == defaults
    ensures normalized == Normalized(values, defaults)
  {
    var stored := if values.Arr? then values else Arr([]);
    normalized := [];
    for i := 0 to |defaults|
      invariant |normalized| == i
      invariant forall j :: 0 <= j < i ==> normalized[j] == Normalized(values, defaults)[j]
    {
      var key := defaults[i].key;
      var found := Index(stored, key);
      normalized := normalized + [Toggle(key, if found.Some? then Truthy(found.value) else defaults[i].enabled)];
    }
  }

  /** `enabledChecks()`, given what `get_option(VIGILANT_HEALTH_OPTION_CHECKS, null)` returns. */
  method EnabledChecks(stored: Value) returns (r: seq<Toggle>)
    ensures r == Normalized(stored, DefaultCheckToggles())
  {
    r := NormalizeToggleValues(stored, DefaultCheckToggles());
  }

  /** `enabledMetrics()`, given what `get_option(VIGILANT_HEALTH_OPTION_METRICS, null)` returns. */
  method EnabledMetrics(stored: Value) returns (r: seq<Toggle>)
    ensures r == Normalized(stored, DefaultMetricToggles())
  {
    r := NormalizeToggleValues(stored, DefaultMetricToggles());
  }

  /** Looking a key up in a stored toggle map finds the toggle saved under it. */
  lemma ToggleArrayLookup(ts: seq<Toggle>, i: nat)
    requires DistinctToggleKeys(ts)
    requires i < |ts|
    ensures Index(ToggleArray(ts), ts[i].key) == Some(Bool(ts[i].enabled))
  {
    LookupDistinct(ToggleArray(ts).entries, i);
  }

  /** Sanitising an already sanitised toggle map returns it unchanged. */
  lemma SanitizeIdempotent(value: Value, defaults: seq<Toggle>)
    requires DistinctToggleKeys(defaults)
    ensures Sanitized(ToggleArray(Sanitized(value, defaults)), defaults) == Sanitized(value, defaults)
  {
    var s := Sanitized(value, defaults);
    forall i | 0 <= i < |defaults|
      ensures Sanitized(ToggleArray(s), defaults)[i] == s[i]
    {
      ToggleArrayLookup(s, i);
    }
  }

  /** Reading back a stored sanitised map gives exactly what was stored: no default overrides it. */
  lemma NormalizeReadsBackSanitized(value: Value, defaults: seq<Toggle>)
    requires DistinctToggleKeys(defaults)
    ensures Normalized(ToggleArray(Sanitized(value, defaults)), defaults) == Sanitized(value, defaults)
  {
    var s := Sanitized(value, defaults);
    forall i | 0 <= i < |defaults|
      ensures Normalized(ToggleArray(s), defaults)[i] == s[i]
    {
      ToggleArrayLookup(s, i);
    }
  }

  /** `sanitizeCheckToggles(['database' => '1', 'cron' => 0])` turns on `database` only. */
  lemma SanitizeCheckTogglesExample()
    ensures Sanitized(Arr([Entry("database", Str("1")), Entry("cron", Int(0))]), DefaultCheckToggles())
         == [Toggle("database", true), Toggle("site_health", false), Toggle("core_version", false),
             Toggle("redis", false), Toggle("plugin_updates", false), Toggle("cron", false)]
  {
  }

  /** Stored `['database' => false, 'cron' => true]` reads back with `database` off and the rest on. */
  lemma EnabledChecksExample()
    ensures Normalized(Arr([Entry("database", Bool(false)), Entry("cron", Bool(true))]), DefaultCheckToggles())
         == [Toggle("database", false), Toggle("site_health", true), Toggle("core_version", true),
             Toggle("redis", true), Toggle("plugin_updates", true), Toggle("cron", true)]
  {
  }

  /** `getApiToken()`: the stored token option, already cast to string, trimmed. */
  function GetApiToken(stored: string): (r: string)
    ensures r == [] || (!IsTrimChar(r[0]) && !IsTrimChar(r[|r| - 1]))
    ensures Trim(r) == r
  {
    TrimIdempotent(stored);
    Trim(stored)
  }

  /** `isHashedToken($token)`: exactly 64 characters, all hex digits. */
  predicate IsHashedToken(token: string)
    ensures IsHashedToken(token) ==> Trim(token) == token
  {
    |token| == 64 && CtypeXdigit(token)
  }

  /**
   * `getApiTokenDigest()`: the trimmed stored token if it has the shape of a
   * hex SHA-256 digest, otherwise '' ("not configured"), so a plaintext or
   * corrupted stored value never counts as a digest.
   */
  function GetApiTokenDigest(stored: string): (r: string)
    ensures r == "" || (|r| == 64 && forall i :: 0 <= i < |r| ==> IsHexDigit(r[i]))
    ensures r != "" <==> IsHashedToken(Trim(stored))
    ensures r != "" ==> r == Trim(stored)
  {
    var token := GetApiToken(stored);
    if IsHashedToken(token) then token else ""
  }

  /** `hasApiToken()`: true iff a well-formed digest is stored. */
  predicate HasApiToken(stored: string)
    ensures HasApiToken(stored) <==> IsHashedToken(Trim(stored))
  {
    GetApiTokenDigest(stored) != ""
  }

  /**
   * `sanitizeApiToken($value)`, given the currently stored token option:
   * a non-string or a value that is blank after `sanitize_text_field` and
   * `trim` clears the token; the placeholder keeps the stored token; anything
   * else is replaced by its SHA-256 hex digest.
   */
  function SanitizeApiToken(value: Value, stored: string, sanitize: string -> string, sha: Sha256): (r: string)
    ensures !value.Str? ==> r == ""
    ensures value.Str? && Trim(sanitize(value.s)) == "" ==> r == ""
    ensures value.Str? && Trim(sanitize(value.s)) == TokenPlaceholder ==> r == Trim(stored)
    ensures value.Str? && Trim(sanitize(value.s)) != ""
            && Trim(sanitize(value.s)) != TokenPlaceholder ==>
      r == sha(Trim(sanitize(value.s))) && IsSha256Hex(r)
  {
    if !value.Str? then ""
    else
      var v := Trim(sanitize(value.s));
      if v == "" then ""
      else if v == TokenPlaceholder then GetApiToken(stored)
      else sha(v)
  }

  /**
   * Saving a real token always leaves a configured token: the stored value is
   * the digest of the trimmed submission, and it reads back as that digest.
   */
  lemma SavedTokenIsConfigured(value: Value, stored: string, sanitize: string -> string, sha: Sha256)
    requires value.Str? && Trim(sanitize(value.s)) != "" && Trim(sanitize(value.s)) != TokenPlaceholder
    ensures GetApiTokenDigest(SanitizeApiToken(value, stored, sanitize, sha)) == sha(Trim(sanitize(value.s)))
    ensures HasApiToken(SanitizeApiToken(value, stored, sanitize, sha))
  {
    var digest := sha(Trim(sanitize(value.s)));
    assert SanitizeApiToken(value, stored, sanitize, sha) == digest;
    DigestReadsBack(digest);
  }

  /** A stored SHA-256 hex digest is recognised as a digest and read back unchanged. */
  lemma DigestReadsBack(digest: string)
    requires IsSha256Hex(digest)
    ensures GetApiTokenDigest(digest) == digest
  {
    DigestShape(digest);
  }

  /** Submitting the placeholder keeps the configured digest (or its absence) as it was. */
  lemma PlaceholderKeepsDigest(stored: string, sanitize: string -> string, sha: Sha256)
    requires Trim(sanitize(TokenPlaceholder)) == TokenPlaceholder
    ensures GetApiTokenDigest(SanitizeApiToken(Str(TokenPlaceholder), stored, sanitize, sha))
         == GetApiTokenDigest(stored)
  {
    TrimIdempotent(stored);
  }

  /** Submitting a blank or non-string value clears the token, so none is configured. */
  lemma BlankSubmissionClearsToken(value: Value, stored: string, sanitize: string -> string, sha: Sha256)
    requires !value.Str? || Trim(sanitize(value.s)) == ""
    ensures !HasApiToken(SanitizeApiToken(value, stored, sanitize, sha))
  {
  }
}
