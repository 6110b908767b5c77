/**
 What an assignment does to the configuration record, written out key by key and field by field. The
 settings' own vocabulary (Key, Field, Meaning) is proved to agree with it.
 */
module Fields {
  import opened SessionTypes
  import opened GoText
  import opened Settings

  /** The integer or duration a text denotes, if it is positive. */
  predicate PositiveNumber(v: Option<int>) {
    v.Some? && v.value > 0
  }

  /** The key, in upper case, is GOSSM_SESSION_<N>_<FIELD> with a positive index N. */
  predicate IsPresetKey(lib: Lib, key: string, idx: string, n: nat, field: string) {
    && lib.upper(key) == "GOSSM_SESSION_" + idx + "_" + field && '_' !in idx
    && lib.atoi(idx) == Some(n) && n >= 1
  }

  function PresetWritten(lib: Lib, p: Preset, field: string, text: string): Preset {
    if field == "NAME" then p.(name := text)
    else if field == "INSTANCE_ID" then p.(instanceID := text)
    else if field == "INSTANCE_NAME" then p.(instanceName := text)
    else if field == "PROFILE" then p.(profile := text)
    else if field == "TYPE" then p.(sessionType := text)
    else if field == "LOCAL_PORT" && lib.atoi(text).Some? then p.(localPort := lib.atoi(text).value)
    else if field == "REMOTE_PORT" && lib.atoi(text).Some? then p.(remotePort := lib.atoi(text).value)
    else if field == "REMOTE_HOST" then p.(remoteHost := text)
    else p
  }

  /** Every setting but the presets after an assignment to the upper-case key. */
  predicate PlainAfter(lib: Lib, upper: string, text: string, s: Settings, t: Settings) {
    GeneralAfter(lib, upper, text, s, t) && ProbingAfter(lib, upper, text, s, t) && BackoffAfter(lib, upper, text, s, t)
  }

  predicate GeneralAfter(lib: Lib, upper: string, text: string, s: Settings, t: Settings) {
    && t.dashboardPort == (if upper == "GOSSM_PORT" && lib.atoi(text).Some? then lib.atoi(text).value else s.dashboardPort)
    && t.bindAddress == (if upper == "GOSSM_BIND" && text != "" then text else s.bindAddress)
    && t.logLevel == (if upper == "GOSSM_LOG_LEVEL" then text else s.logLevel)
    && t.pidDir == (if upper == "GOSSM_PID_DIR" then text else s.pidDir)
  }

  predicate ProbingAfter(lib: Lib, upper: string, text: string, s: Settings, t: Settings) {
    && t.probeInterval == (if upper == "GOSSM_PROBE_INTERVAL" && PositiveNumber(lib.duration(text))
                           then lib.duration(text).value else s.probeInterval)
    && t.probeTimeout == (if upper == "GOSSM_PROBE_TIMEOUT" && PositiveNumber(lib.duration(text))
                          then lib.duration(text).value else s.probeTimeout)
    && t.failureThreshold == (if upper == "GOSSM_RECONNECT_FAILURE_THRESHOLD" && PositiveNumber(lib.atoi(text))
                              then lib.atoi(text).value else s.failureThreshold)
  }

  predicate BackoffAfter(lib: Lib, upper: string, text: string, s: Settings, t: Settings) {
    && t.maxAttempts == (if upper == "GOSSM_RECONNECT_MAX_ATTEMPTS" && PositiveNumber(lib.atoi(text))
                         then lib.atoi(text).value else s.maxAttempts)
    && t.backoffInitial == (if upper == "GOSSM_RECONNECT_BACKOFF_INITIAL" && PositiveNumber(lib.duration(text))
                            then lib.duration(text).value else s.backoffInitial)
    && t.backoffMax == (if upper == "GOSSM_RECONNECT_BACKOFF_MAX" && PositiveNumber(lib.duration(text))
                        then lib.duration(text).value else s.backoffMax)
  }

  function PresetAt(presets: seq<Preset>, k: nat): Preset {
    if k < |presets| then presets[k] else Preset("", "", "", "", "", 0, 0, "")
  }

  /** The preset list after an assignment to one field of preset n: it is long enough, and only that field differs. */
  predicate PresetsAfter(lib: Lib, n: nat, field: string, text: string, s: seq<Preset>, t: seq<Preset>) {
    && |t| == (if n > |s| then n else |s|)
    && forall k :: 0 <= k < |t| ==>
         t[k] == if k + 1 == n then PresetWritten(lib, PresetAt(s, k), field, text) else PresetAt(s, k)
  }

  /** The record t after the assignment, from s. */
  ghost predicate After(lib: Lib, key: string, text: string, s: Settings, t: Settings) {
    && PlainAfter(lib, lib.upper(key), text, s, t)
    && (forall idx, n, field {:trigger IsPresetKey(lib, key, idx, n, field)} ::
          IsPresetKey(lib, key, idx, n, field) ==> PresetsAfter(lib, n, field, text, s.presets, t.presets))
    && ((forall idx, n, field {:trigger IsPresetKey(lib, key, idx, n, field)} :: !IsPresetKey(lib, key, idx, n, field))
        ==> t.presets == s.presets)
  }

  // ---------------------------------------------------------------- agreement with the settings' vocabulary

  lemma KeyNamedExactly(upper: string, key: Key)
    ensures KeyNamed(upper) == Some(key) <==> upper == KeyName(key)
  {
    if KeyNamed(upper) == Some(key) {
      NamedBack(upper);
    }
    hide KeyNamed;
  }

  lemma NamedBack(upper: string)
    requires KeyNamed(upper).Some?
    ensures KeyName(KeyNamed(upper).value) == upper
  {
  }

  /** Each of the ten named settings has the value given for its name, if that is valid, and else the one it had. */
  ghost predicate PlainAssigned(lib: Lib, upper: string, text: string, s: Settings, t: Settings) {
    forall k: Key ::
      Get(t, Plain(k)) == if upper == KeyName(k) && ValueFor(lib, k, text).Some? then ValueFor(lib, k, text).value else Get(s, Plain(k))
  }

  lemma MeaningAssigns(lib: Lib, key: string, text: string, s: Settings, t: Settings)
    requires Assigned(s, t, Meaning(lib, key, text))
    ensures PlainAssigned(lib, lib.upper(key), text, s, t)
  {
    hide KeyNamed, ValueFor, PresetMeaning, Get, KeyName;
    PresetKeyIsNotPlain(lib, key, text);
    forall k: Key
      ensures Get(t, Plain(k)) == if lib.upper(key) == KeyName(k) && ValueFor(lib, k, text).Some? then ValueFor(lib, k, text).value
                                  else Get(s, Plain(k))
    {
      KeyNamedExactly(lib.upper(key), k);
    }
  }

  lemma FieldGiven(lib: Lib, upper: string, text: string, k: Key, s: Settings, t: Settings)
    requires PlainAssigned(lib, upper, text, s, t)
    ensures Get(t, Plain(k)) == if upper == KeyName(k) && ValueFor(lib, k, text).Some? then ValueFor(lib, k, text).value
                                else Get(s, Plain(k))
  {
  }

  lemma GeneralAgrees(lib: Lib, upper: string, text: string, s: Settings, t: Settings)
    requires PlainAssigned(lib, upper, text, s, t)
    ensures GeneralAfter(lib, upper, text, s, t)
  {
    hide PlainAssigned;
    FieldGiven(lib, upper, text, PortKey, s, t);
    FieldGiven(lib, upper, text, BindKey, s, t);
    FieldGiven(lib, upper, text, LogLevelKey, s, t);
    FieldGiven(lib, upper, text, PidDirKey, s, t);
  }

  lemma ProbingAgrees(lib: Lib, upper: string, text: string, s: Settings, t: Settings)
    requires PlainAssigned(lib, upper, text, s, t)
    ensures ProbingAfter(lib, upper, text, s, t)
  {
    hide PlainAssigned;
    FieldGiven(lib, upper, text, ProbeIntervalKey, s, t);
    FieldGiven(lib, upper, text, ProbeTimeoutKey, s, t);
    FieldGiven(lib, upper, text, FailureThresholdKey, s, t);
  }

  lemma BackoffAgrees(lib: Lib, upper: string, text: string, s: Settings, t: Settings)
    requires PlainAssigned(lib, upper, text, s, t)
    ensures BackoffAfter(lib, upper, text, s, t)
  {
    hide PlainAssigned;
    FieldGiven(lib, upper, text, MaxAttemptsKey, s, t);
    FieldGiven(lib, upper, text, BackoffInitialKey, s, t);
    FieldGiven(lib, upper, text, BackoffMaxKey, s, t);
  }

  lemma PlainAgrees(lib: Lib, upper: string, text: string, s: Settings, t: Settings)
    requires PlainAssigned(lib, upper, text, s, t)
    ensures PlainAfter(lib, upper, text, s, t)
  {
    hide PlainAssigned, GeneralAfter, ProbingAfter, BackoffAfter;
    GeneralAgrees(lib, upper, text, s, t);
    ProbingAgrees(lib, upper, text, s, t);
    BackoffAgrees(lib, upper, text, s, t);
  }

  lemma PresetKeyIsNotPlain(lib: Lib, key: string, text: string)
    ensures var m := PresetMeaning(lib, key, text); m.Some? ==> m.value.0.InPreset?
  {
  }

  lemma PresetKeySplits(upper: string, idx: string, field: string)
    requires upper == "GOSSM_SESSION_" + idx + "_" + field
    ensures PRESET_PREFIX <= upper && upper[..14] == "GOSSM_SESSION_" && upper[|PRESET_PREFIX|..] == idx + "_" + field
  {
    assert upper == PRESET_PREFIX + (idx + "_" + field);
  }

  lemma PresetKeyMentions(lib: Lib, key: string, idx: string, n: nat, field: string)
    requires IsPresetKey(lib, key, idx, n, field)
    ensures PresetMentioned(lib, key) == Some((n, field)) && KeyNamed(lib.upper(key)).None?
  {
    hide KeyNamed, Cut;
    PresetKeySplits(lib.upper(key), idx, field);
    CutUndoes(idx, '_', field);
    PrefixIsNoKey(lib.upper(key));
  }

  /** None of the ten named keys begins like a preset's. */
  lemma PrefixIsNoKey(upper: string)
    requires |upper| >= 14 && upper[..14] == "GOSSM_SESSION_"
    ensures KeyNamed(upper).None?
  {
    assert upper[6] == upper[..14][6] == 'S';
  }

  lemma MentionIsPresetKey(lib: Lib, key: string)
    requires PresetMentioned(lib, key).Some?
    ensures exists idx :: IsPresetKey(lib, key, idx, PresetMentioned(lib, key).value.0, PresetMentioned(lib, key).value.1)
  {
    var upper := lib.upper(key);
    var parts := Cut(upper[|PRESET_PREFIX|..], '_');
    assert upper == PRESET_PREFIX + upper[|PRESET_PREFIX|..];
    assert upper == "GOSSM_SESSION_" + parts.value.0 + "_" + parts.value.1;
    assert IsPresetKey(lib, key, parts.value.0, PresetMentioned(lib, key).value.0, parts.value.1);
  }

  /** A preset whose eight fields are as read is that preset. */
  lemma SamePreset(p: Preset, q: Preset)
    requires forall key: PresetKey :: GetPreset(p, key) == GetPreset(q, key)
    ensures p == q
  {
    assert GetPreset(p, NameKey) == GetPreset(q, NameKey) && GetPreset(p, InstanceIDKey) == GetPreset(q, InstanceIDKey);
    assert GetPreset(p, InstanceNameKey) == GetPreset(q, InstanceNameKey) && GetPreset(p, ProfileKey) == GetPreset(q, ProfileKey);
    assert GetPreset(p, TypeKey) == GetPreset(q, TypeKey) && GetPreset(p, LocalPortKey) == GetPreset(q, LocalPortKey);
    assert GetPreset(p, RemotePortKey) == GetPreset(q, RemotePortKey) && GetPreset(p, RemoteHostKey) == GetPreset(q, RemoteHostKey);
  }

  lemma WrittenReads(lib: Lib, p: Preset, field: string, text: string, key: PresetKey)
    ensures var pkey := PresetKeyNamed(field);
            GetPreset(PresetWritten(lib, p, field, text), key)
            == if pkey == Some(key) && PresetValueFor(lib, key, text).Some? then PresetValueFor(lib, key, text).value
               else GetPreset(p, key)
  {
  }

  lemma PresetReads(s: Settings, k: nat, pkey: PresetKey)
    ensures Get(s, InPreset(k + 1, pkey)) == GetPreset(PresetAt(s.presets, k), pkey)
  {
  }

  lemma PresetMeans(lib: Lib, key: string, text: string, idx: string, n: nat, field: string)
    requires IsPresetKey(lib, key, idx, n, field)
    ensures FileIndex(lib, key) == n
    ensures var pkey := PresetKeyNamed(field);
            Meaning(lib, key, text)
            == if pkey.None? || PresetValueFor(lib, pkey.value, text).None? then None
               else Some((InPreset(n, pkey.value), PresetValueFor(lib, pkey.value, text).value))
  {
    PresetKeyMentions(lib, key, idx, n, field);
    hide KeyNamed, IsPresetKey, PresetMentioned, PresetKeyNamed, PresetValueFor;
  }

  /** One field of one preset after an assignment to a preset's key. */
  lemma PresetFieldGiven(lib: Lib, key: string, text: string, idx: string, n: nat, field: string, s: Settings, t: Settings,
                         k: nat, pkey: PresetKey)
    requires IsPresetKey(lib, key, idx, n, field) && Assigned(s, t, Meaning(lib, key, text))
    ensures GetPreset(PresetAt(t.presets, k), pkey)
         == GetPreset(if k + 1 == n then PresetWritten(lib, PresetAt(s.presets, k), field, text) else PresetAt(s.presets, k), pkey)
  {
    PresetMeans(lib, key, text, idx, n, field);
    hide IsPresetKey, Meaning, PresetKeyNamed, PresetValueFor, PresetWritten, PresetAt, Get, GetPreset;
    WrittenReads(lib, PresetAt(s.presets, k), field, text, pkey);
    PresetReads(s, k, pkey);
    PresetReads(t, k, pkey);
  }

  lemma PresetsAgree(lib: Lib, key: string, text: string, idx: string, n: nat, field: string, s: Settings, t: Settings)
    requires IsPresetKey(lib, key, idx, n, field)
    requires Assigned(s, t, Meaning(lib, key, text)) && |t.presets| == Max(|s.presets|, FileIndex(lib, key))
    ensures PresetsAfter(lib, n, field, text, s.presets, t.presets)
  {
    PresetMeans(lib, key, text, idx, n, field);
    hide IsPresetKey, Assigned, Meaning, PresetWritten, GetPreset, FileIndex, PresetKeyNamed, PresetValueFor;
    forall k | 0 <= k < |t.presets|
      ensures t.presets[k] == if k + 1 == n then PresetWritten(lib, PresetAt(s.presets, k), field, text) else PresetAt(s.presets, k)
    {
      var q := if k + 1 == n then PresetWritten(lib, PresetAt(s.presets, k), field, text) else PresetAt(s.presets, k);
      forall pkey: PresetKey ensures GetPreset(t.presets[k], pkey) == GetPreset(q, pkey) {
        PresetFieldGiven(lib, key, text, idx, n, field, s, t, k, pkey);
      }
      SamePreset(t.presets[k], q);
    }
  }

  lemma PresetsStay(lib: Lib, key: string, text: string, s: Settings, t: Settings)
    requires PresetMentioned(lib, key).None?
    requires Assigned(s, t, Meaning(lib, key, text)) && |t.presets| == Max(|s.presets|, FileIndex(lib, key))
    ensures t.presets == s.presets
  {
    hide KeyNamed, PresetMentioned;
    forall k | 0 <= k < |s.presets| ensures t.presets[k] == s.presets[k] {
      forall pkey: PresetKey ensures GetPreset(t.presets[k], pkey) == GetPreset(s.presets[k], pkey) {
        assert Get(t, InPreset(k + 1, pkey)) == Get(s, InPreset(k + 1, pkey));
      }
      SamePreset(t.presets[k], s.presets[k]);
    }
  }

  /** An assignment that means what Meaning says has the effect written out above. */
  lemma Agrees(lib: Lib, key: string, text: string, s: Settings, t: Settings)
    requires Assigned(s, t, Meaning(lib, key, text)) && |t.presets| == Max(|s.presets|, FileIndex(lib, key))
    ensures After(lib, key, text, s, t)
  {
    hide Assigned, Meaning, FileIndex, PlainAssigned, PlainAfter, PresetsAfter, IsPresetKey, PresetMentioned;
    MeaningAssigns(lib, key, text, s, t);
    PlainAgrees(lib, lib.upper(key), text, s, t);
    forall idx, n, field | IsPresetKey(lib, key, idx, n, field)
      ensures PresetsAfter(lib, n, field, text, s.presets, t.presets)
    {
      PresetsAgree(lib, key, text, idx, n, field, s, t);
    }
    if PresetMentioned(lib, key).Some? {
      MentionIsPresetKey(lib, key);
    } else {
      PresetsStay(lib, key, text, s, t);
    }
  }
}
