/** What a configuration assignment means. */
module Settings {
  import opened SessionTypes
  import opened GoText

  datatype Preset = Preset(
    name: string, instanceID: string, instanceName: string, profile: string, sessionType: string,
    localPort: int, remotePort: int, remoteHost: string)

  const NO_PRESET := Preset("", "", "", "", "", 0, 0, "")

  datatype Settings = Settings(
    dashboardPort: int, bindAddress: string, logLevel: string, pidDir: string,
    probeInterval: int, probeTimeout: int, failureThreshold: int, maxAttempts: int, backoffInitial: int, backoffMax: int,
    presets: seq<Preset>)

  /** The ten settings that have a key of their own. */
  datatype Key =
    | PortKey | BindKey | LogLevelKey | PidDirKey
    | ProbeIntervalKey | ProbeTimeoutKey | FailureThresholdKey | MaxAttemptsKey | BackoffInitialKey | BackoffMaxKey

  datatype PresetKey =
    | NameKey | InstanceIDKey | InstanceNameKey | ProfileKey | TypeKey | LocalPortKey | RemotePortKey | RemoteHostKey

  /** A place in the configuration that an assignment can write; presets are counted from 1. */
  datatype Field = Plain(key: Key) | InPreset(idx: nat, pkey: PresetKey)

  datatype Value = Num(n: int) | Text(s: string)

  const KEYS: set<Key> := {PortKey, BindKey, LogLevelKey, PidDirKey, ProbeIntervalKey, ProbeTimeoutKey,
                           FailureThresholdKey, MaxAttemptsKey, BackoffInitialKey, BackoffMaxKey}

  lemma EveryKey()
    ensures forall key: Key :: key in KEYS
  {
    forall key: Key ensures key in KEYS {
      match key
      case PortKey =>
      case BindKey =>
      case LogLevelKey =>
      case PidDirKey =>
      case ProbeIntervalKey =>
      case ProbeTimeoutKey =>
      case FailureThresholdKey =>
      case MaxAttemptsKey =>
      case BackoffInitialKey =>
      case BackoffMaxKey =>
    }
  }

  /** The setting an upper-case key names. */
  function KeyNamed(upper: string): Option<Key> {
    if upper == "GOSSM_PORT" then Some(PortKey)
    else if upper == "GOSSM_BIND" then Some(BindKey)
    else if upper == "GOSSM_LOG_LEVEL" then Some(LogLevelKey)
    else if upper == "GOSSM_PID_DIR" then Some(PidDirKey)
    else if upper == "GOSSM_PROBE_INTERVAL" then Some(ProbeIntervalKey)
    else if upper == "GOSSM_PROBE_TIMEOUT" then Some(ProbeTimeoutKey)
    else if upper == "GOSSM_RECONNECT_FAILURE_THRESHOLD" then Some(FailureThresholdKey)
    else if upper == "GOSSM_RECONNECT_MAX_ATTEMPTS" then Some(MaxAttemptsKey)
    else if upper == "GOSSM_RECONNECT_BACKOFF_INITIAL" then Some(BackoffInitialKey)
    else if upper == "GOSSM_RECONNECT_BACKOFF_MAX" then Some(BackoffMaxKey)
    else None
  }

  /** The name of the setting's environment variable. */
  function KeyName(key: Key): (name: string)
    ensures KeyNamed(name) == Some(key)
  {
    match key
    case PortKey => "GOSSM_PORT"
    case BindKey => "GOSSM_BIND"
    case LogLevelKey => "GOSSM_LOG_LEVEL"
    case PidDirKey => "GOSSM_PID_DIR"
    case ProbeIntervalKey => "GOSSM_PROBE_INTERVAL"
    case ProbeTimeoutKey => "GOSSM_PROBE_TIMEOUT"
    case FailureThresholdKey => "GOSSM_RECONNECT_FAILURE_THRESHOLD"
    case MaxAttemptsKey => "GOSSM_RECONNECT_MAX_ATTEMPTS"
    case BackoffInitialKey => "GOSSM_RECONNECT_BACKOFF_INITIAL"
    case BackoffMaxKey => "GOSSM_RECONNECT_BACKOFF_MAX"
  }

  function PresetKeyNamed(field: string): Option<PresetKey> {
    if field == "NAME" then Some(NameKey)
    else if field == "INSTANCE_ID" then Some(InstanceIDKey)
    else if field == "INSTANCE_NAME" then Some(InstanceNameKey)
    else if field == "PROFILE" then Some(ProfileKey)
    else if field == "TYPE" then Some(TypeKey)
    else if field == "LOCAL_PORT" then Some(LocalPortKey)
    else if field == "REMOTE_PORT" then Some(RemotePortKey)
    else if field == "REMOTE_HOST" then Some(RemoteHostKey)
    else None
  }

  /** Position of the first c in s, or |s|. */
  function IndexOf(s: string, c: char): (k: nat)
    ensures k <= |s| && c !in s[..k] && (k < |s| ==> s[k] == c)
  {
    if s == "" || s[0] == c then 0 else 1 + IndexOf(s[1..], c)
  }

  /** s split around the first c, if there is one. */
  function Cut(s: string, c: char): (r: Option<(string, string)>)
    ensures r.Some? <==> c in s
    ensures r.Some? ==> s == r.value.0 + [c] + r.value.1 && c !in r.value.0
  {
    var k := IndexOf(s, c);
    if k < |s| then Some((s[..k], s[k + 1..])) else None
  }

  /** Cutting undoes putting a separator between two parts, if the first part has none. */
  lemma CutUndoes(first: string, c: char, rest: string)
    requires c !in first
    ensures Cut(first + [c] + rest, c) == Some((first, rest))
  {
    var s := first + [c] + rest;
    var r := Cut(s, c);
    assert s[|first|] == c;
    var a, b := r.value.0, r.value.1;
    assert s == a + [c] + b && s[|a|] == c;
    assert forall k :: 0 <= k < |first| ==> s[k] == first[k];
    assert |a| >= |first|;
    assert forall k :: 0 <= k < |a| ==> s[k] == a[k];
    assert a == s[..|first|] == first && b == s[|first| + 1..] == rest;
  }

  function Positive(v: Option<int>): Option<Value> {
    if v.Some? && v.value > 0 then Some(Num(v.value)) else None
  }

  /** The value a text assigns to a setting, if it is valid for it. */
  function ValueFor(lib: Lib, key: Key, text: string): Option<Value> {
    match key
    case PortKey =>
      var port := lib.atoi(text);
      if port.Some? then Some(Num(port.value)) else None
    case BindKey => if text != "" then Some(Text(text)) else None
    case LogLevelKey => Some(Text(text))
    case PidDirKey => Some(Text(text))
    case FailureThresholdKey => Positive(lib.atoi(text))
    case MaxAttemptsKey => Positive(lib.atoi(text))
    case _ => Positive(lib.duration(text))
  }

  function PresetValueFor(lib: Lib, key: PresetKey, text: string): Option<Value> {
    match key
    case LocalPortKey =>
      var port := lib.atoi(text);
      if port.Some? then Some(Num(port.value)) else None
    case RemotePortKey =>
      var port := lib.atoi(text);
      if port.Some? then Some(Num(port.value)) else None
    case _ => Some(Text(text))
  }

  const PRESET_PREFIX := "GOSSM_SESSION_"

  /** The preset a key mentions, counted from 1, and the field name after it. */
  function PresetMentioned(lib: Lib, key: string): (r: Option<(nat, string)>)
    ensures r.Some? ==> r.value.0 >= 1
  {
    var upper := lib.upper(key);
    if !(PRESET_PREFIX <= upper) then None
    else
      var parts := Cut(upper[|PRESET_PREFIX|..], '_');
      if parts.None? then None
      else
        var idx := lib.atoi(parts.value.0);
        if idx.None? || idx.value < 1 then None else Some((idx.value, parts.value.1))
  }

  /** What a preset key assigns, if anything. */
  function PresetMeaning(lib: Lib, key: string, text: string): Option<(Field, Value)> {
    var mentioned := PresetMentioned(lib, key);
    if mentioned.None? then None
    else
      var pkey := PresetKeyNamed(mentioned.value.1);
      if pkey.None? then None
      else
        var v := PresetValueFor(lib, pkey.value, text);
        if v.None? then None else Some((InPreset(mentioned.value.0, pkey.value), v.value))
  }

  /** What an assignment in a file assigns, if it is valid at all. */
  function Meaning(lib: Lib, key: string, text: string): Option<(Field, Value)> {
    var k := KeyNamed(lib.upper(key));
    if k.None? then PresetMeaning(lib, key, text)
    else
      var v := ValueFor(lib, k.value, text);
      if v.None? then None else Some((Plain(k.value), v.value))
  }

  // ---------------------------------------------------------------- reading and writing fields

  function GetPreset(p: Preset, key: PresetKey): Value {
    match key
    case NameKey => Text(p.name)
    case InstanceIDKey => Text(p.instanceID)
    case InstanceNameKey => Text(p.instanceName)
    case ProfileKey => Text(p.profile)
    case TypeKey => Text(p.sessionType)
    case LocalPortKey => Num(p.localPort)
    case RemotePortKey => Num(p.remotePort)
    case RemoteHostKey => Text(p.remoteHost)
  }

  /** A field's value; a preset that is not there reads as an empty one. */
  function Get(s: Settings, f: Field): Value {
    match f
    case Plain(PortKey) => Num(s.dashboardPort)
    case Plain(BindKey) => Text(s.bindAddress)
    case Plain(LogLevelKey) => Text(s.logLevel)
    case Plain(PidDirKey) => Text(s.pidDir)
    case Plain(ProbeIntervalKey) => Num(s.probeInterval)
    case Plain(ProbeTimeoutKey) => Num(s.probeTimeout)
    case Plain(FailureThresholdKey) => Num(s.failureThreshold)
    case Plain(MaxAttemptsKey) => Num(s.maxAttempts)
    case Plain(BackoffInitialKey) => Num(s.backoffInitial)
    case Plain(BackoffMaxKey) => Num(s.backoffMax)
    case InPreset(i, key) => GetPreset(if 1 <= i <= |s.presets| then s.presets[i - 1] else NO_PRESET, key)
  }

  /** Two configurations with the same fields and as many presets are the same. */
  lemma SameFieldsSame(s: Settings, t: Settings)
    requires |s.presets| == |t.presets| && forall f :: Get(s, f) == Get(t, f)
    ensures s == t
  {
    forall k | 0 <= k < |s.presets| ensures s.presets[k] == t.presets[k] {
      forall key ensures GetPreset(s.presets[k], key) == GetPreset(t.presets[k], key) {
        assert Get(s, InPreset(k + 1, key)) == Get(t, InPreset(k + 1, key));
      }
      assert GetPreset(s.presets[k], NameKey) == GetPreset(t.presets[k], NameKey);
      assert GetPreset(s.presets[k], InstanceIDKey) == GetPreset(t.presets[k], InstanceIDKey);
      assert GetPreset(s.presets[k], InstanceNameKey) == GetPreset(t.presets[k], InstanceNameKey);
      assert GetPreset(s.presets[k], ProfileKey) == GetPreset(t.presets[k], ProfileKey);
      assert GetPreset(s.presets[k], TypeKey) == GetPreset(t.presets[k], TypeKey);
      assert GetPreset(s.presets[k], LocalPortKey) == GetPreset(t.presets[k], LocalPortKey);
      assert GetPreset(s.presets[k], RemotePortKey) == GetPreset(t.presets[k], RemotePortKey);
      assert GetPreset(s.presets[k], RemoteHostKey) == GetPreset(t.presets[k], RemoteHostKey);
    }
    assert Get(s, Plain(PortKey)) == Get(t, Plain(PortKey));
    assert Get(s, Plain(BindKey)) == Get(t, Plain(BindKey));
    assert Get(s, Plain(LogLevelKey)) == Get(t, Plain(LogLevelKey));
    assert Get(s, Plain(PidDirKey)) == Get(t, Plain(PidDirKey));
    assert Get(s, Plain(ProbeIntervalKey)) == Get(t, Plain(ProbeIntervalKey));
    assert Get(s, Plain(ProbeTimeoutKey)) == Get(t, Plain(ProbeTimeoutKey));
    assert Get(s, Plain(FailureThresholdKey)) == Get(t, Plain(FailureThresholdKey));
    assert Get(s, Plain(MaxAttemptsKey)) == Get(t, Plain(MaxAttemptsKey));
    assert Get(s, Plain(BackoffInitialKey)) == Get(t, Plain(BackoffInitialKey));
    assert Get(s, Plain(BackoffMaxKey)) == Get(t, Plain(BackoffMaxKey));
  }

  /** t is s with one assignment made, or unchanged if there is none. */
  ghost predicate Assigned(s: Settings, t: Settings, meaning: Option<(Field, Value)>) {
    forall f :: Get(t, f) == if meaning.Some? && meaning.value.0 == f then meaning.value.1 else Get(s, f)
  }

  function Max(a: nat, b: nat): nat {
    if a >= b then a else b
  }

  /** The preset index an assignment mentions, or 0; in a file the ten named keys come first. */
  function PresetIndex(lib: Lib, key: string): nat {
    var m := PresetMentioned(lib, key);
    if m.Some? then m.value.0 else 0
  }

  function FileIndex(lib: Lib, key: string): nat {
    if KeyNamed(lib.upper(key)).Some? then 0 else PresetIndex(lib, key)
  }
}
