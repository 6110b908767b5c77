/**
 Which assignment decides a field of the loaded configuration. `After(lib, key, text, s, s)` says that
 making the assignment once more changes nothing in s: all it is valid for is there already.
 */
module TopLayer {
  import opened SessionTypes
  import opened GoText
  import opened Settings
  import opened Fields
  import opened Config

  /** Two keys of the same setting: the same name up to case, or the same field of the same preset. */
  predicate SameSetting(lib: Lib, key: string, other: string) {
    lib.upper(key) == lib.upper(other)
    || (PresetMentioned(lib, key).Some? && PresetMentioned(lib, key) == PresetMentioned(lib, other))
  }

  /** A layer says nothing of the key's setting. */
  predicate Silent(lib: Lib, pairs: Pairs, key: string) {
    forall k :: 0 <= k < |pairs| ==> !SameSetting(lib, pairs[k].0, key)
  }

  lemma FieldNamed(upper: string, k: Key)
    requires KeyNamed(upper) == Some(k)
    ensures upper == KeyName(k)
  {
    KeyNamedExactly(upper, k);
  }

  /** Assignments to the same field are assignments to the same setting. */
  lemma SameFieldSameSetting(lib: Lib, key: string, text: string, other: string, otherText: string)
    requires Meaning(lib, key, text).Some? && Meaning(lib, other, otherText).Some?
    requires Meaning(lib, key, text).value.0 == Meaning(lib, other, otherText).value.0
    ensures SameSetting(lib, other, key)
  {
    hide KeyNamed, ValueFor, PresetMentioned, PresetValueFor;
    var f := Meaning(lib, key, text).value.0;
    if f.Plain? {
      PresetKeyIsNotPlain(lib, key, text);
      PresetKeyIsNotPlain(lib, other, otherText);
      FieldNamed(lib.upper(key), f.key);
      FieldNamed(lib.upper(other), f.key);
    } else {
      FieldsMatch(PresetMentioned(lib, key).value.1, PresetMentioned(lib, other).value.1);
    }
  }

  lemma FieldsMatch(field: string, other: string)
    requires PresetKeyNamed(field).Some? && PresetKeyNamed(field) == PresetKeyNamed(other)
    ensures field == other
  {
  }

  lemma SilentFile(lib: Lib, pairs: Pairs, key: string, text: string)
    requires Silent(lib, pairs, key) && Meaning(lib, key, text).Some?
    ensures LastInFile(lib, pairs, Meaning(lib, key, text).value.0).None?
  {
    hide Meaning, SameSetting;
    var f := Meaning(lib, key, text).value.0;
    forall k | 0 <= k < |pairs| ensures !Gives(FileReading(lib), pairs[k], f) {
      if Gives(FileReading(lib), pairs[k], f) {
        SameFieldSameSetting(lib, key, text, pairs[k].0, pairs[k].1);
      }
    }
    NoneValidKeeps(FileReading(lib), pairs, f);
  }

  /** A preset variable means in the environment what it would mean in a file, if it is no named key. */
  lemma PresetMeansSame(lib: Lib, key: string, text: string)
    requires PresetMeaning(lib, key, text).Some?
    ensures Meaning(lib, key, text) == PresetMeaning(lib, key, text)
    ensures FileIndex(lib, key) == PresetIndex(lib, key)
  {
    hide KeyNamed, IsPresetKey, PresetMentioned;
    MentionIsPresetKey(lib, key);
    var n, field := PresetMentioned(lib, key).value.0, PresetMentioned(lib, key).value.1;
    var idx :| IsPresetKey(lib, key, idx, n, field);
    PresetKeyMentions(lib, key, idx, n, field);
  }

  lemma SilentPresets(lib: Lib, pairs: Pairs, key: string, text: string)
    requires Silent(lib, pairs, key) && Meaning(lib, key, text).Some?
    ensures LastPreset(lib, pairs, Meaning(lib, key, text).value.0).None?
  {
    hide Meaning, SameSetting, PresetMeaning;
    var f := Meaning(lib, key, text).value.0;
    forall k | 0 <= k < |pairs| ensures !Gives(PresetReading(lib), pairs[k], f) {
      if Gives(PresetReading(lib), pairs[k], f) {
        PresetMeansSame(lib, pairs[k].0, pairs[k].1);
        SameFieldSameSetting(lib, key, text, pairs[k].0, pairs[k].1);
      }
    }
    NoneValidKeeps(PresetReading(lib), pairs, f);
  }

  /** The environment says nothing of the key's setting. */
  predicate SilentEnvironment(lib: Lib, src: Sources, key: string) {
    src.vars(lib.upper(key)) == "" && Silent(lib, ParseEnviron(lib, src.environ), key)
  }

  lemma EnvironmentSilent(lib: Lib, src: Sources, key: string, text: string)
    requires SilentEnvironment(lib, src, key) && Meaning(lib, key, text).Some?
    ensures InEnvironment(lib, ParseEnviron(lib, src.environ), src.vars, Meaning(lib, key, text).value.0).None?
  {
    SilentPresets(lib, ParseEnviron(lib, src.environ), key, text);
    hide KeyNamed, ValueFor, PresetMeaning, Silent, KeyName;
    var f := Meaning(lib, key, text).value.0;
    if f.Plain? {
      PresetKeyIsNotPlain(lib, key, text);
      FieldNamed(lib.upper(key), f.key);
    }
  }

  /** If the loaded configuration has what the assignment means, making it again changes nothing. */
  lemma Redundant(lib: Lib, key: string, text: string, s: Settings)
    requires var m := Meaning(lib, key, text); m.Some? ==> Get(s, m.value.0) == m.value.1
    requires FileIndex(lib, key) <= |s.presets|
    ensures After(lib, key, text, s, s)
  {
    hide Get, Meaning, FileIndex, After;
    Agrees(lib, key, text, s, s);
  }

  lemma LastGives(lib: Lib, before: Pairs, key: string, text: string)
    requires Meaning(lib, key, text).Some?
    ensures LastInFile(lib, before + [(key, text)], Meaning(lib, key, text).value.0) == Some(Meaning(lib, key, text).value.1)
  {
    hide Meaning;
    assert (before + [(key, text)])[..|before|] == before;
  }

  lemma LastMentions(lib: Lib, before: Pairs, key: string, text: string)
    ensures LargestInFile(lib, before + [(key, text)]) >= FileIndex(lib, key)
  {
    hide FileIndex;
  }

  // ---------------------------------------------------------------- the theorems

  /** The last line of .env decides its fields unless the environment says something of them. */
  lemma LastDotEnvLineDecides(lib: Lib, src: Sources, s: Settings, before: Pairs, key: string, text: string)
    requires Loaded(lib, src, s) && ParseLines(lib, src.dotEnv) == before + [(key, text)]
    requires SilentEnvironment(lib, src, key)
    ensures After(lib, key, text, s, s)
  {
    hide Get, Meaning, FileIndex, After, SilentEnvironment, InEnvironment, LastInFile, LargestInFile, LargestPreset;
    var m := Meaning(lib, key, text);
    if m.Some? {
      EnvironmentSilent(lib, src, key, text);
      LastGives(lib, before, key, text);
      assert Get(s, m.value.0) == FromLayers(lib, src, m.value.0);
    }
    LastMentions(lib, before, key, text);
    Redundant(lib, key, text, s);
  }

  /** The last line of the configuration file decides its fields unless .env or the environment says something of them. */
  lemma LastFileLineDecides(lib: Lib, src: Sources, s: Settings, before: Pairs, key: string, text: string)
    requires Loaded(lib, src, s) && ParseLines(lib, src.file) == before + [(key, text)]
    requires SilentEnvironment(lib, src, key) && Silent(lib, ParseLines(lib, src.dotEnv), key)
    ensures After(lib, key, text, s, s)
  {
    hide Get, Meaning, FileIndex, After, SilentEnvironment, Silent, InEnvironment, LastInFile, LargestInFile, LargestPreset;
    var m := Meaning(lib, key, text);
    if m.Some? {
      EnvironmentSilent(lib, src, key, text);
      SilentFile(lib, ParseLines(lib, src.dotEnv), key, text);
      LastGives(lib, before, key, text);
      assert Get(s, m.value.0) == FromLayers(lib, src, m.value.0);
    }
    LastMentions(lib, before, key, text);
    Redundant(lib, key, text, s);
  }

  /** A variable that is set decides the setting of its name, whatever the files say. */
  lemma VariableDecides(lib: Lib, src: Sources, s: Settings, name: string)
    requires Loaded(lib, src, s) && src.vars(name) != ""
    ensures PlainAfter(lib, name, src.vars(name), s, s)
  {
    hide Loaded, Get, ValueFor, KeyName, PlainAfter;
    forall k: Key
      ensures Get(s, Plain(k))
           == if name == KeyName(k) && ValueFor(lib, k, src.vars(name)).Some? then ValueFor(lib, k, src.vars(name)).value else Get(s, Plain(k))
    {
      if name == KeyName(k) {
        VariableGives(lib, src, s, k);
      }
    }
    PlainAgrees(lib, name, src.vars(name), s, s);
  }

  lemma VariableGives(lib: Lib, src: Sources, s: Settings, k: Key)
    requires Loaded(lib, src, s) && src.vars(KeyName(k)) != ""
    ensures ValueFor(lib, k, src.vars(KeyName(k))).Some? ==> Get(s, Plain(k)) == ValueFor(lib, k, src.vars(KeyName(k))).value
  {
    hide Get, ValueFor, KeyName, LastInFile, LargestInFile, LargestPreset;
    assert Get(s, Plain(k)) == FromLayers(lib, src, Plain(k));
  }

  /** The last preset variable of the environment decides its field, whatever the files say. */
  lemma LastPresetVariableDecides(lib: Lib, src: Sources, s: Settings, before: Pairs, key: string, text: string)
    requires Loaded(lib, src, s) && ParseEnviron(lib, src.environ) == before + [(key, text)]
    requires KeyNamed(lib.upper(key)).None?
    ensures After(lib, key, text, s, s)
  {
    hide Get, FileIndex, After, LastInFile, LargestInFile, PresetMeaning, KeyNamed;
    var m := PresetMeaning(lib, key, text);
    assert (before + [(key, text)])[..|before|] == before;
    if m.Some? {
      PresetIsInPreset(lib, key, text);
      assert Get(s, m.value.0) == FromLayers(lib, src, m.value.0);
    }
    assert LargestPreset(lib, before + [(key, text)]) >= PresetIndex(lib, key);
    PresetIndexInFile(lib, key);
    Redundant(lib, key, text, s);
  }

  lemma PresetIsInPreset(lib: Lib, key: string, text: string)
    requires PresetMeaning(lib, key, text).Some?
    ensures PresetMeaning(lib, key, text).value.0.InPreset?
  {
  }

  lemma PresetIndexInFile(lib: Lib, key: string)
    requires KeyNamed(lib.upper(key)).None?
    ensures FileIndex(lib, key) == PresetIndex(lib, key)
  {
  }

  /** With nothing set anywhere the configuration is the compiled default. */
  lemma NothingSetKeepsDefaults(lib: Lib, s: Settings)
    requires Loaded(lib, Sources("/home/user", [], [], [], _ => ""), s)
    ensures s.dashboardPort == 8877 && s.bindAddress == "127.0.0.1" && s.logLevel == "warn" && s.pidDir == "/home/user/.gossm"
    ensures s.probeInterval == 30_000_000_000 && s.probeTimeout == 2_000_000_000
    ensures s.failureThreshold == 1 && s.maxAttempts == 5
    ensures s.backoffInitial == 5_000_000_000 && s.backoffMax == 60_000_000_000 && s.presets == []
  {
    var src := Sources("/home/user", [], [], [], _ => "");
    LoadedDefaults(lib, src, s);
    assert "/home/user" + "/.gossm" == "/home/user/.gossm";
  }

  lemma LoadedDefaults(lib: Lib, src: Sources, s: Settings)
    requires Loaded(lib, src, s) && src.file == [] && src.dotEnv == [] && src.environ == [] && forall name :: src.vars(name) == ""
    ensures s == DefaultSettings(src.home)
  {
    hide Get;
    forall f ensures Get(s, f) == Get(DefaultSettings(src.home), f) {
      assert Get(s, f) == FromLayers(lib, src, f);
    }
    SameFieldsSame(s, DefaultSettings(src.home));
  }

  // ---------------------------------------------------------------- how the text of a layer is read

  /** A line made of a key without an equals sign, one, and a value is read as that assignment, unless it is a comment. */
  lemma LineRoundTrip(lib: Lib, line: string, key: string, value: string)
    requires lib.trim(line) == key + "=" + value && '=' !in key && (key != "" ==> key[0] != '#')
    ensures ParseLine(lib, line) == Some((lib.trim(key), StripMatchingQuotes(lib.trim(value))))
  {
    CutUndoes(key, '=', value);
    assert lib.trim(line)[0] == if key == "" then '=' else key[0];
  }

  /** Only empty lines, comments and lines without an equals sign are passed over. */
  lemma LineIgnoredExactly(lib: Lib, line: string)
    ensures ParseLine(lib, line).None? <==>
              var text := lib.trim(line); text == "" || text[0] == '#' || '=' !in text
  {
  }

  /** An environment entry is read as a preset variable if its name begins like one, with everything after the first equals sign. */
  lemma VariableRoundTrip(lib: Lib, name: string, value: string)
    requires '=' !in name
    ensures ParseVariable(lib, name + "=" + value)
         == if "GOSSM_SESSION_" <= lib.upper(name) then Some((name, value)) else None
  {
    CutUndoes(name, '=', value);
  }
}
