/** Loading of the configuration, layer over layer, into one mutable record. */
module Config {
  import opened SessionTypes
  import opened GoText
  import opened Settings
  import opened Fields

  // ---------------------------------------------------------------- what a layer should do

  type Pairs = seq<(string, string)>

  /** os.Getenv: the value of a variable, empty if it is not set. */
  type Variables = string -> string

  /** How a layer reads an assignment, and which preset index (or 0) the assignment mentions. */
  type Reading = (string, string) -> Option<(Field, Value)>
  type Mention = string -> nat

  /** The last value that a sequence of assignments, read so, gives to f. */
  function LastGiven(read: Reading, pairs: Pairs, f: Field): Option<Value> {
    if pairs == [] then None
    else
      var m := read(pairs[|pairs| - 1].0, pairs[|pairs| - 1].1);
      if m.Some? && m.value.0 == f then Some(m.value.1) else LastGiven(read, pairs[..|pairs| - 1], f)
  }

  function Largest(mention: Mention, pairs: Pairs): nat {
    if pairs == [] then 0 else Max(Largest(mention, pairs[..|pairs| - 1]), mention(pairs[|pairs| - 1].0))
  }

  function FileReading(lib: Lib): Reading {
    (key, text) => Meaning(lib, key, text)
  }

  function PresetReading(lib: Lib): Reading {
    (key, text) => PresetMeaning(lib, key, text)
  }

  /** The last valid value that a sequence of file assignments gives to f. */
  function LastInFile(lib: Lib, pairs: Pairs, f: Field): Option<Value> {
    LastGiven(FileReading(lib), pairs, f)
  }

  /** The last valid value that a sequence of preset variables gives to f. */
  function LastPreset(lib: Lib, pairs: Pairs, f: Field): Option<Value> {
    LastGiven(PresetReading(lib), pairs, f)
  }

  /** The valid value that the environment gives to f; an empty variable counts as unset. */
  function InEnvironment(lib: Lib, environ: Pairs, vars: Variables, f: Field): Option<Value> {
    match f
    case Plain(key) => if vars(KeyName(key)) != "" then ValueFor(lib, key, vars(KeyName(key))) else None
    case InPreset(_, _) => LastPreset(lib, environ, f)
  }

  function OrElse(v: Option<Value>, default: Value): Value {
    if v.Some? then v.value else default
  }

  /** What a named variable makes of the setting, given what it held before. */
  function FromVariable(lib: Lib, vars: Variables, before: Settings, key: Key): Value {
    OrElse(InEnvironment(lib, [], vars, Plain(key)), Get(before, Plain(key)))
  }

  /** Preset assignments touch no other setting. */
  lemma {:induction false} PresetsOnly(lib: Lib, pairs: Pairs, key: Key)
    ensures LastPreset(lib, pairs, Plain(key)).None?
  {
    if pairs != [] {
      PresetsOnly(lib, pairs[..|pairs| - 1], key);
    }
  }

  function LargestInFile(lib: Lib, pairs: Pairs): nat {
    Largest(key => FileIndex(lib, key), pairs)
  }

  function LargestPreset(lib: Lib, pairs: Pairs): nat {
    Largest(key => PresetIndex(lib, key), pairs)
  }

  /** Probe, threshold and backoff settings are positive. */
  predicate PositiveSettings(s: Settings) {
    s.probeInterval > 0 && s.probeTimeout > 0 && s.failureThreshold > 0 && s.maxAttempts > 0
    && s.backoffInitial > 0 && s.backoffMax > 0
  }

  // ---------------------------------------------------------------- reading a file

  function StripMatchingQuotes(value: string): (r: string)
    ensures r == value || (|value| >= 2 && value[0] in {'"', '\''} && value == [value[0]] + r + [value[0]])
  {
    if |value| >= 2 && value[0] == value[|value| - 1] && (value[0] == '"' || value[0] == '\'') then
      value[1..|value| - 1]
    else
      value
  }

  /** Quoting a text and reading it back gives the text, whatever quotes it contains. */
  lemma QuotesRoundTrip(text: string, q: char)
    requires q == '"' || q == '\''
    ensures StripMatchingQuotes([q] + text + [q]) == text
  {
    var quoted := [q] + text + [q];
    assert quoted[1..|quoted| - 1] == text;
  }

  function ParseLine(lib: Lib, line: string): Option<(string, string)> {
    var trimmed := lib.trim(line);
    if trimmed == "" || trimmed[0] == '#' then None
    else
      var parts := Cut(trimmed, '=');
      if parts.None? then None
      else Some((lib.trim(parts.value.0), StripMatchingQuotes(lib.trim(parts.value.1))))
  }

  function ParseLines(lib: Lib, lines: seq<string>): Pairs {
    if lines == [] then []
    else
      var last := ParseLine(lib, lines[|lines| - 1]);
      ParseLines(lib, lines[..|lines| - 1]) + if last.Some? then [last.value] else []
  }

  /** The GOSSM_SESSION_ variables of an environment listing. */
  function ParseVariable(lib: Lib, entry: string): Option<(string, string)> {
    var parts := Cut(entry, '=');
    if parts.Some? && PRESET_PREFIX <= lib.upper(parts.value.0) then parts else None
  }

  function ParseEnviron(lib: Lib, environ: seq<string>): Pairs {
    if environ == [] then []
    else
      var last := ParseVariable(lib, environ[|environ| - 1]);
      ParseEnviron(lib, environ[..|environ| - 1]) + if last.Some? then [last.value] else []
  }

  // ---------------------------------------------------------------- one assignment after the other

  /** s is what `start` becomes by the assignments of a file. */
  ghost predicate FileApplied(lib: Lib, pairs: Pairs, start: Settings, s: Settings) {
    && (forall f :: Get(s, f) == OrElse(LastInFile(lib, pairs, f), Get(start, f)))
    && |s.presets| == Max(|start.presets|, LargestInFile(lib, pairs))
  }

  /** s is what `start` becomes by the preset variables of an environment listing. */
  ghost predicate PresetsApplied(lib: Lib, pairs: Pairs, start: Settings, s: Settings) {
    && (forall f :: Get(s, f) == OrElse(LastPreset(lib, pairs, f), Get(start, f)))
    && |s.presets| == Max(|start.presets|, LargestPreset(lib, pairs))
  }

  lemma FileSnoc(lib: Lib, pairs: Pairs, pair: (string, string), start: Settings, s: Settings, t: Settings)
    requires FileApplied(lib, pairs, start, s)
    requires Assigned(s, t, Meaning(lib, pair.0, pair.1)) && |t.presets| == Max(|s.presets|, FileIndex(lib, pair.0))
    ensures FileApplied(lib, pairs + [pair], start, t)
  {
    hide Get, Meaning, FileIndex;
    assert (pairs + [pair])[..|pairs|] == pairs;
  }

  lemma PresetSnoc(lib: Lib, pairs: Pairs, pair: (string, string), start: Settings, s: Settings, t: Settings)
    requires PresetsApplied(lib, pairs, start, s)
    requires Assigned(s, t, PresetMeaning(lib, pair.0, pair.1)) && |t.presets| == Max(|s.presets|, PresetIndex(lib, pair.0))
    ensures PresetsApplied(lib, pairs + [pair], start, t)
  {
    hide Get, PresetMeaning, PresetIndex;
    assert (pairs + [pair])[..|pairs|] == pairs;
  }

  lemma LinesSnoc(lib: Lib, lines: seq<string>, i: nat)
    requires i < |lines|
    ensures var last := ParseLine(lib, lines[i]);
            ParseLines(lib, lines[..i + 1])
            == if last.Some? then ParseLines(lib, lines[..i]) + [last.value] else ParseLines(lib, lines[..i])
  {
    assert lines[..i + 1][..i] == lines[..i];
  }

  lemma EnvironSnoc(lib: Lib, environ: seq<string>, i: nat)
    requires i < |environ|
    ensures var last := ParseVariable(lib, environ[i]);
            ParseEnviron(lib, environ[..i + 1])
            == if last.Some? then ParseEnviron(lib, environ[..i]) + [last.value] else ParseEnviron(lib, environ[..i])
  {
    assert environ[..i + 1][..i] == environ[..i];
  }

  lemma NothingApplied(lib: Lib, s: Settings)
    ensures FileApplied(lib, [], s, s) && PresetsApplied(lib, [], s, s)
  {
  }

  // ---------------------------------------------------------------- the record

  /** One field of a preset written, if the text is valid for it. */
  function WithField(lib: Lib, p: Preset, key: PresetKey, text: string): (r: Preset)
    ensures var v := PresetValueFor(lib, key, text);
            forall other :: GetPreset(r, other) == if v.Some? && other == key then v.value else GetPreset(p, other)
  {
    match key
    case NameKey => p.(name := text)
    case InstanceIDKey => p.(instanceID := text)
    case InstanceNameKey => p.(instanceName := text)
    case ProfileKey => p.(profile := text)
    case TypeKey => p.(sessionType := text)
    case LocalPortKey =>
      var port := lib.atoi(text);
      if port.Some? then p.(localPort := port.value) else p
    case RemotePortKey =>
      var port := lib.atoi(text);
      if port.Some? then p.(remotePort := port.value) else p
    case RemoteHostKey => p.(remoteHost := text)
  }

  class Config {
    var dashboardPort: int
    var bindAddress: string
    var logLevel: string
    var pidDir: string
    var probeInterval: int
    var probeTimeout: int
    var failureThreshold: int
    var maxAttempts: int
    var backoffInitial: int
    var backoffMax: int
    var presets: seq<Preset>

    function View(): Settings
      reads this
    {
      Settings(dashboardPort, bindAddress, logLevel, pidDir, probeInterval, probeTimeout,
               failureThreshold, maxAttempts, backoffInitial, backoffMax, presets)
    }

    /** The compiled defaults; durations are in nanoseconds. */
    constructor (home: string)
      ensures View() == DefaultSettings(home)
    {
      dashboardPort, bindAddress, logLevel, pidDir := 8877, "127.0.0.1", "warn", home + "/.gossm";
      probeInterval, probeTimeout := 30 * SECOND, 2 * SECOND;
      failureThreshold, maxAttempts := 1, 5;
      backoffInitial, backoffMax := 5 * SECOND, 60 * SECOND;
      presets := [];
    }

    method SetKey(key: Key, v: Value)
      requires v.Num? <==> key !in {BindKey, LogLevelKey, PidDirKey}
      modifies this
      ensures Assigned(old(View()), View(), Some((Plain(key), v))) && presets == old(presets)
    {
      match key
      case PortKey => dashboardPort := v.n;
      case BindKey => bindAddress := v.s;
      case LogLevelKey => logLevel := v.s;
      case PidDirKey => pidDir := v.s;
      case ProbeIntervalKey => probeInterval := v.n;
      case ProbeTimeoutKey => probeTimeout := v.n;
      case FailureThresholdKey => failureThreshold := v.n;
      case MaxAttemptsKey => maxAttempts := v.n;
      case BackoffInitialKey => backoffInitial := v.n;
      case BackoffMaxKey => backoffMax := v.n;
    }

    /** Appends empty presets until there are at least idx of them. */
    method GrowPresets(idx: nat)
      modifies this`presets
      ensures Assigned(old(View()), View(), None) && |presets| == Max(|old(presets)|, idx)
    {
      while |presets| < idx
        invariant |old(presets)| <= |presets| <= Max(|old(presets)|, idx)
        invariant presets[..|old(presets)|] == old(presets)
        invariant forall k :: |old(presets)| <= k < |presets| ==> presets[k] == NO_PRESET
      {
        presets := presets + [NO_PRESET];
      }
    }

    method SetPresetField(lib: Lib, idx: nat, key: PresetKey, text: string)
      requires 1 <= idx <= |presets|
      modifies this`presets
      ensures var v := PresetValueFor(lib, key, text);
              Assigned(old(View()), View(), if v.Some? then Some((InPreset(idx, key), v.value)) else None)
      ensures |presets| == |old(presets)|
    {
      presets := presets[idx - 1 := WithField(lib, presets[idx - 1], key, text)];
    }

    /** Handles GOSSM_SESSION_<N>_<FIELD>; a valid index makes room for the preset even if the field is unknown. */
    method ApplyPresetKey(lib: Lib, key: string, text: string)
      modifies this`presets
      ensures Assigned(old(View()), View(), PresetMeaning(lib, key, text))
      ensures |presets| == Max(|old(presets)|, PresetIndex(lib, key))
    {
      var mentioned := PresetMentioned(lib, key);
      if mentioned.None? {
        return;
      }
      GrowPresets(mentioned.value.0);
      var pkey := PresetKeyNamed(mentioned.value.1);
      if pkey.Some? {
        SetPresetField(lib, mentioned.value.0, pkey.value, text);
      }
    }

    method ApplyKeyValue(lib: Lib, key: string, text: string)
      modifies this
      ensures Assigned(old(View()), View(), Meaning(lib, key, text))
      ensures |presets| == Max(|old(presets)|, FileIndex(lib, key))
      ensures After(lib, key, text, old(View()), View())
    {
      var k := KeyNamed(lib.upper(key));
      if k.None? {
        ApplyPresetKey(lib, key, text);
      } else {
        var v := ValueFor(lib, k.value, text);
        if v.Some? {
          SetKey(k.value, v.value);
        }
      }
      Agrees(lib, key, text, old(View()), View());
    }
  
    /** One file layer: after it, every field holds its last valid assignment in the file, or what it held before. */
    method LoadKeyValueFile(lib: Lib, lines: seq<string>)
      modifies this
      ensures FileApplied(lib, ParseLines(lib, lines), old(View()), View())
    {
      hide Get, Meaning, ParseLine, FileApplied, Assigned;
      NothingApplied(lib, View());
      for i := 0 to |lines|
        invariant FileApplied(lib, ParseLines(lib, lines[..i]), old(View()), View())
      {
        LinesSnoc(lib, lines, i);
        ghost var before := View();
        var pair := ParseLine(lib, lines[i]);
        if pair.Some? {
          ApplyKeyValue(lib, pair.value.0, pair.value.1);
          FileSnoc(lib, ParseLines(lib, lines[..i]), pair.value, old(View()), before, View());
        }
      }
      assert lines[..|lines|] == lines;
    }

    /** The preset variables of the environment, in the order of the listing. */
    method ApplyEnvironPresets(lib: Lib, environ: seq<string>)
      modifies this`presets
      ensures PresetsApplied(lib, ParseEnviron(lib, environ), old(View()), View())
    {
      hide Get, PresetMeaning, ParseVariable, PresetsApplied, Assigned;
      NothingApplied(lib, View());
      for i := 0 to |environ|
        invariant PresetsApplied(lib, ParseEnviron(lib, environ[..i]), old(View()), View())
      {
        EnvironSnoc(lib, environ, i);
        ghost var before := View();
        var pair := ParseVariable(lib, environ[i]);
        if pair.Some? {
          ApplyPresetKey(lib, pair.value.0, pair.value.1);
          PresetSnoc(lib, ParseEnviron(lib, environ[..i]), pair.value, old(View()), before, View());
        }
      }
      assert environ[..|environ|] == environ;
    }

    /** One named variable; an empty one counts as unset. */
    method ApplyVariable(lib: Lib, vars: Variables, key: Key)
      modifies this
      ensures Get(View(), Plain(key)) == FromVariable(lib, vars, old(View()), key)
      ensures forall other :: other != key ==> Get(View(), Plain(other)) == Get(old(View()), Plain(other))
      ensures presets == old(presets)
    {
      var text := vars(KeyName(key));
      if text != "" {
        var v := ValueFor(lib, key, text);
        if v.Some? {
          SetKey(key, v.value);
        }
      }
    }

    /** Named variables, in whatever order the map of setters is visited. */
    method ApplyVariables(lib: Lib, vars: Variables, keys: set<Key>)
      modifies this
      ensures forall key :: key in keys ==> Get(View(), Plain(key)) == FromVariable(lib, vars, old(View()), key)
      ensures presets == old(presets)
    {
      ghost var before := View();
      var todo := keys;
      while todo != {}
        invariant todo <= keys && presets == old(presets)
        invariant forall key :: key in todo ==> Get(View(), Plain(key)) == Get(before, Plain(key))
        invariant forall key :: key in keys - todo ==> Get(View(), Plain(key)) == FromVariable(lib, vars, before, key)
        decreases todo
      {
        var key :| key in todo;
        ApplyVariable(lib, vars, key);
        todo := todo - {key};
      }
    }

    /** The environment layer. */
    method ApplyEnv(lib: Lib, environ: seq<string>, vars: Variables)
      modifies this
      ensures var pairs := ParseEnviron(lib, environ);
              && (forall f :: Get(View(), f) == OrElse(InEnvironment(lib, pairs, vars, f), Get(old(View()), f)))
              && |presets| == Max(|old(presets)|, LargestPreset(lib, pairs))
    {
      ghost var pairs := ParseEnviron(lib, environ);
      ghost var start := View();
      ApplyEnvironPresets(lib, environ);
      ghost var middle := View();
      forall key ensures Get(middle, Plain(key)) == Get(start, Plain(key)) {
        PresetsOnly(lib, pairs, key);
      }
      EveryKey();
      ApplyVariables(lib, vars, KEYS);
      forall idx, pkey ensures Get(View(), InPreset(idx, pkey)) == Get(middle, InPreset(idx, pkey)) {}
      forall f ensures Get(View(), f) == OrElse(InEnvironment(lib, pairs, vars, f), Get(start, f)) {
        match f
        case Plain(key) => assert FromVariable(lib, vars, middle, key) == OrElse(InEnvironment(lib, pairs, vars, f), Get(middle, f));
        case InPreset(_, _) =>
      }
    }
  }

  const SECOND := 1_000_000_000

  function DefaultSettings(home: string): Settings {
    Settings(8877, "127.0.0.1", "warn", home + "/.gossm", 30 * SECOND, 2 * SECOND, 1, 5, 5 * SECOND, 60 * SECOND, [])
  }

  // ---------------------------------------------------------------- all layers

  /** The four sources: two files as lines (none if missing), the environment listing and its named variables. */
  datatype Sources = Sources(home: string, file: seq<string>, dotEnv: seq<string>, environ: seq<string>, vars: Variables)

  /** Every field has the last valid value of the topmost layer that gives it one, else the compiled default. */
  ghost predicate Loaded(lib: Lib, src: Sources, s: Settings) {
    && (forall f :: Get(s, f) == FromLayers(lib, src, f))
    && |s.presets| == Max(Max(LargestInFile(lib, ParseLines(lib, src.file)), LargestInFile(lib, ParseLines(lib, src.dotEnv))),
                          LargestPreset(lib, ParseEnviron(lib, src.environ)))
  }

  function FromLayers(lib: Lib, src: Sources, f: Field): Value {
    OrElse(InEnvironment(lib, ParseEnviron(lib, src.environ), src.vars, f),
           OrElse(LastInFile(lib, ParseLines(lib, src.dotEnv), f),
                  OrElse(LastInFile(lib, ParseLines(lib, src.file), f),
                         Get(DefaultSettings(src.home), f))))
  }

  method Load(lib: Lib, src: Sources) returns (cfg: Config)
    ensures fresh(cfg) && Loaded(lib, src, cfg.View()) && PositiveSettings(cfg.View())
  {
    cfg := new Config(src.home);
    cfg.LoadKeyValueFile(lib, src.file);
    cfg.LoadKeyValueFile(lib, src.dotEnv);
    cfg.ApplyEnv(lib, src.environ, src.vars);
    LoadedPositive(lib, src, cfg.View());
  }

  /** The result depends on the sources alone, not on the order in which the named variables are visited. */
  lemma LoadedUnique(lib: Lib, src: Sources, s: Settings, t: Settings)
    requires Loaded(lib, src, s) && Loaded(lib, src, t)
    ensures s == t
  {
    forall f ensures Get(s, f) == Get(t, f) {
      assert Get(s, f) == FromLayers(lib, src, f);
    }
    SameFieldsSame(s, t);
  }

  predicate WantsPositive(key: Key) {
    key !in {PortKey, BindKey, LogLevelKey, PidDirKey}
  }

  lemma {:induction false} LastInFilePositive(lib: Lib, pairs: Pairs, key: Key)
    requires WantsPositive(key)
    ensures var v := LastInFile(lib, pairs, Plain(key)); v.Some? ==> v.value.Num? && v.value.n > 0
  {
    if pairs != [] {
      LastInFilePositive(lib, pairs[..|pairs| - 1], key);
    }
  }

  lemma LayersPositive(lib: Lib, src: Sources, key: Key)
    requires WantsPositive(key)
    ensures var v := FromLayers(lib, src, Plain(key)); v.Num? && v.n > 0
  {
    hide ParseLines, LastInFile;
    LastInFilePositive(lib, ParseLines(lib, src.file), key);
    LastInFilePositive(lib, ParseLines(lib, src.dotEnv), key);
  }

  lemma LoadedKeyPositive(lib: Lib, src: Sources, s: Settings, key: Key)
    requires Loaded(lib, src, s) && WantsPositive(key)
    ensures Get(s, Plain(key)).Num? && Get(s, Plain(key)).n > 0
  {
    LayersPositive(lib, src, key);
    assert Get(s, Plain(key)) == FromLayers(lib, src, Plain(key));
  }

  /** No sequence of assignments in any layer makes a probe, threshold or backoff setting zero or negative. */
  lemma LoadedPositive(lib: Lib, src: Sources, s: Settings)
    requires Loaded(lib, src, s)
    ensures PositiveSettings(s)
  {
    hide Loaded;
    LoadedKeyPositive(lib, src, s, ProbeIntervalKey);
    LoadedKeyPositive(lib, src, s, ProbeTimeoutKey);
    LoadedKeyPositive(lib, src, s, FailureThresholdKey);
    LoadedKeyPositive(lib, src, s, MaxAttemptsKey);
    LoadedKeyPositive(lib, src, s, BackoffInitialKey);
    LoadedKeyPositive(lib, src, s, BackoffMaxKey);
  }

  // ---------------------------------------------------------------- what last and largest mean

  /** The layer reads the assignment as one of f. */
  predicate Gives(read: Reading, pair: (string, string), f: Field) {
    read(pair.0, pair.1).Some? && read(pair.0, pair.1).value.0 == f
  }

  /** Last valid wins: if pair k is valid for f and no later one is, its value is the one found. */
  lemma {:induction false} LastValidWins(read: Reading, pairs: Pairs, f: Field, k: nat)
    requires k < |pairs| && Gives(read, pairs[k], f)
    requires forall later :: k < later < |pairs| ==> !Gives(read, pairs[later], f)
    ensures LastGiven(read, pairs, f) == Some(read(pairs[k].0, pairs[k].1).value.1)
  {
    if k < |pairs| - 1 {
      assert !Gives(read, pairs[|pairs| - 1], f);
      LastValidWins(read, pairs[..|pairs| - 1], f, k);
    }
  }

  /** If no pair is valid for f, the layer leaves f alone. */
  lemma {:induction false} NoneValidKeeps(read: Reading, pairs: Pairs, f: Field)
    requires forall k :: 0 <= k < |pairs| ==> !Gives(read, pairs[k], f)
    ensures LastGiven(read, pairs, f).None?
  {
    if pairs != [] {
      assert !Gives(read, pairs[|pairs| - 1], f);
      NoneValidKeeps(read, pairs[..|pairs| - 1], f);
    }
  }

  /** Every preset index mentioned fits in the list, and if there are presets at all one mention is the length. */
  lemma {:induction false} LargestIsMaximum(mention: Mention, pairs: Pairs)
    ensures forall k :: 0 <= k < |pairs| ==> mention(pairs[k].0) <= Largest(mention, pairs)
    ensures Largest(mention, pairs) > 0 ==> exists k :: 0 <= k < |pairs| && mention(pairs[k].0) == Largest(mention, pairs)
  {
    if pairs != [] {
      var init, last := pairs[..|pairs| - 1], |pairs| - 1;
      LargestIsMaximum(mention, init);
      forall k | 0 <= k < |pairs| ensures mention(pairs[k].0) <= Largest(mention, pairs) {
        if k < last {
          assert pairs[k] == init[k];
        }
      }
      if mention(pairs[last].0) < Largest(mention, init) {
        var k :| 0 <= k < |init| && mention(init[k].0) == Largest(mention, init);
        assert pairs[k] == init[k];
      }
    }
  }
}
