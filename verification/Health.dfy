/**
 Effective capability health: local state first, then every required capability, with the
 path walked so far as the only cycle guard.
 */
module Health {
  import opened Common

  datatype Status = Available | Unavailable | Unknown
  datatype CapabilityHealth = CapabilityHealth(status: Status, reason: string)

  datatype Reference = SameModule(capability: string) | Other(moduleId: string, capability: string)

  datatype Descriptor = Descriptor(requiredConfig: seq<string>, requiredSources: seq<string>, required: seq<Reference>)

  /**
   What the resolver reads about one registered module. `identityEpoch` is the epoch of the
   current run identity; `sources` is present only when it was recorded for that very run.
   */
  datatype Module = Module(
    capabilities: map<string, Descriptor>,
    enabled: bool, active: bool, epoch: nat, identityEpoch: Option<nat>,
    report: Option<map<string, CapabilityHealth>>,
    config: Option<map<string, CapabilityHealth>>,
    sources: Option<map<string, CapabilityHealth>>)

  type Registry = map<string, Module>
  type Key = (string, string)

  const AVAILABLE := CapabilityHealth(Available, "")
  const UNAVAILABLE_DEPENDENCY := CapabilityHealth(Unavailable, "dependency_unavailable")
  const UNKNOWN_DEPENDENCY := CapabilityHealth(Unknown, "dependency_unknown")
  const MODULE_UNAVAILABLE := CapabilityHealth(Unavailable, "module_unavailable")
  const HEALTH_UNKNOWN := CapabilityHealth(Unknown, "health_unknown")
  const MISSING_CONFIG := CapabilityHealth(Unavailable, "configuration_missing")
  const UNKNOWN_CONFIG := CapabilityHealth(Unknown, "configuration_unknown")
  const UNKNOWN_SOURCE := CapabilityHealth(Unknown, "source_unknown")

  predicate Declared(registry: Registry, key: Key) {
    key.0 in registry && key.1 in registry[key.0].capabilities
  }

  function ConfigHealth(m: Module, name: string): CapabilityHealth {
    if m.config.None? then UNKNOWN_CONFIG
    else if name in m.config.value then m.config.value[name] else MISSING_CONFIG
  }

  function SourceHealth(m: Module, name: string): CapabilityHealth {
    if m.sources.None? || name !in m.sources.value then UNKNOWN_SOURCE else m.sources.value[name]
  }

  function Requirements(m: Module, d: Descriptor): seq<CapabilityHealth> {
    seq(|d.requiredConfig|, i requires 0 <= i < |d.requiredConfig| => ConfigHealth(m, d.requiredConfig[i])) +
    seq(|d.requiredSources|, i requires 0 <= i < |d.requiredSources| => SourceHealth(m, d.requiredSources[i]))
  }

  function FirstUnavailable(values: seq<CapabilityHealth>): Option<CapabilityHealth> {
    if values == [] then None
    else if values[0].status == Unavailable then Some(values[0])
    else FirstUnavailable(values[1..])
  }

  predicate HasUnknown(values: seq<CapabilityHealth>) {
    exists i :: 0 <= i < |values| && values[i].status == Unknown
  }

  /** Everything the resolver decides before looking at dependencies; None lets it go on. */
  function LocalVerdict(registry: Registry, key: Key, override: Option<CapabilityHealth>): Option<CapabilityHealth> {
    if !Declared(registry, key) then Some(UNAVAILABLE_DEPENDENCY)
    else
      var m := registry[key.0];
      var d := m.capabilities[key.1];
      if !m.enabled || !m.active || m.identityEpoch != Some(m.epoch) then Some(MODULE_UNAVAILABLE)
      else
        var base :=
          if override.Some? then override
          else if m.report.Some? && key.1 in m.report.value then Some(m.report.value[key.1]) else None;
        if base.None? then Some(HEALTH_UNKNOWN)
        else if base.value.status != Available then base
        else
          var values := Requirements(m, d);
          if FirstUnavailable(values).Some? then FirstUnavailable(values)
          else if HasUnknown(values) then
            Some(if HasUnknown(values[..|d.requiredConfig|]) then UNKNOWN_CONFIG else UNKNOWN_SOURCE)
          else None
  }

  function Target(key: Key, reference: Reference): Key {
    match reference
    case SameModule(c) => (key.0, c)
    case Other(m, c) => (m, c)
  }

  function Dependencies(registry: Registry, key: Key): seq<Reference> {
    if Declared(registry, key) then registry[key.0].capabilities[key.1].required else []
  }

  /** Every declared capability of the registry: the bound on how deep a walk can go. */
  ghost function AllKeys(registry: Registry): set<Key> {
    set m, c | m in registry && c in registry[m].capabilities :: (m, c)
  }

  ghost function Unvisited(registry: Registry, stack: seq<Key>): set<Key> {
    AllKeys(registry) - set k | k in stack
  }

  /** The resolver's recursion. It terminates on every registry, cyclic or not. */
  function Effective(registry: Registry, key: Key, stack: seq<Key>, override: Option<CapabilityHealth>): CapabilityHealth
    decreases Unvisited(registry, stack), 1, 0
  {
    if key in stack then UNAVAILABLE_DEPENDENCY
    else
      var local := LocalVerdict(registry, key, override);
      if local.Some? then local.value
      else Walk(registry, key, stack, Dependencies(registry, key))
  }

  function Walk(registry: Registry, key: Key, stack: seq<Key>, references: seq<Reference>): CapabilityHealth
    requires key !in stack && Declared(registry, key)
    decreases Unvisited(registry, stack), 0, |references|
  {
    if references == [] then AVAILABLE
    else
      assert key in Unvisited(registry, stack) && key !in Unvisited(registry, stack + [key]);
      var dependency := Effective(registry, Target(key, references[0]), stack + [key], None);
      if dependency.status == Unavailable then UNAVAILABLE_DEPENDENCY
      else if dependency.status == Unknown then UNKNOWN_DEPENDENCY
      else Walk(registry, key, stack, references[1..])
  }

  // ----- Reference definition: the dependency graph -----

  /** The declaration of `a` requires `b`: by its own name within the module, or by module and name. */
  predicate DependsOn(registry: Registry, a: Key, b: Key) {
    && a.0 in registry && a.1 in registry[a.0].capabilities
    && var required := registry[a.0].capabilities[a.1].required;
       Other(b.0, b.1) in required || (a.0 == b.0 && SameModule(b.1) in required)
  }

  lemma DependsOnExactly(registry: Registry, a: Key, b: Key)
    ensures DependsOn(registry, a, b)
       <==> exists i :: 0 <= i < |Dependencies(registry, a)| && Target(a, Dependencies(registry, a)[i]) == b
  {
    if DependsOn(registry, a, b) {
      var reference := if Other(b.0, b.1) in Dependencies(registry, a) then Other(b.0, b.1) else SameModule(b.1);
      var i :| 0 <= i < |Dependencies(registry, a)| && Dependencies(registry, a)[i] == reference;
      assert Target(a, Dependencies(registry, a)[i]) == b;
    }
  }

  ghost predicate Path(registry: Registry, path: seq<Key>) {
    path != [] && forall i :: 0 < i < |path| ==> DependsOn(registry, path[i - 1], path[i])
  }

  ghost predicate PathFrom(registry: Registry, a: Key, path: seq<Key>) {
    Path(registry, path) && path[0] == a
  }

  ghost predicate Simple(path: seq<Key>) {
    forall i, j :: 0 <= i < j < |path| ==> path[i] != path[j]
  }

  /** Only the root is judged with the override. */
  ghost predicate Healthy(registry: Registry, path: seq<Key>, override: Option<CapabilityHealth>) {
    forall i :: 0 <= i < |path| ==> LocalVerdict(registry, path[i], if i == 0 then override else None).None?
  }

  ghost predicate Apart(path: seq<Key>, stack: seq<Key>) {
    forall i :: 0 <= i < |path| ==> path[i] !in stack
  }

  ghost predicate GoodPath(registry: Registry, path: seq<Key>, stack: seq<Key>, override: Option<CapabilityHealth>) {
    Simple(path) && Healthy(registry, path, override) && Apart(path, stack)
  }

  ghost predicate AllPathsGood(registry: Registry, key: Key, stack: seq<Key>, override: Option<CapabilityHealth>) {
    forall path :: PathFrom(registry, key, path) ==> GoodPath(registry, path, stack, override)
  }

  ghost predicate Reaches(registry: Registry, a: Key, b: Key) {
    exists path :: PathFrom(registry, a, path) && path[|path| - 1] == b
  }

  ghost predicate OnCycle(registry: Registry, a: Key) {
    exists b :: DependsOn(registry, a, b) && Reaches(registry, b, a)
  }

  // ----- Reference definition: what local health asks for -----

  /** The module runs under the epoch the registry published. */
  predicate Running(m: Module) { m.enabled && m.active && m.identityEpoch == Some(m.epoch) }

  predicate RecordedAs(records: Option<map<string, CapabilityHealth>>, name: string, status: Status) {
    records.Some? && name in records.value && records.value[name].status == status
  }

  /** The capability's own health: the override, if given, else what the module reported. */
  predicate OwnHealthIs(m: Module, capability: string, override: Option<CapabilityHealth>, value: CapabilityHealth) {
    if override.Some? then override.value == value
    else m.report.Some? && capability in m.report.value && m.report.value[capability] == value
  }

  /** Every required configuration name, and every required source, has a recorded available value. */
  ghost predicate AllRecorded(m: Module, d: Descriptor) {
    && (forall name :: name in d.requiredConfig ==> RecordedAs(m.config, name, Available))
    && (forall name :: name in d.requiredSources ==> RecordedAs(m.sources, name, Available))
  }

  /** Declared, running, reported available, and every required name recorded available. */
  ghost predicate Fit(registry: Registry, key: Key, override: Option<CapabilityHealth>) {
    && Declared(registry, key)
    && var m := registry[key.0];
       var d := m.capabilities[key.1];
       && Running(m)
       && (exists value :: OwnHealthIs(m, key.1, override, value) && value.status == Available)
       && AllRecorded(m, d)
  }

  lemma RequirementsAt(m: Module, d: Descriptor)
    ensures |Requirements(m, d)| == |d.requiredConfig| + |d.requiredSources|
    ensures forall i :: 0 <= i < |d.requiredConfig| ==> Requirements(m, d)[i] == ConfigHealth(m, d.requiredConfig[i])
    ensures forall i :: 0 <= i < |d.requiredSources| ==>
      Requirements(m, d)[|d.requiredConfig| + i] == SourceHealth(m, d.requiredSources[i])
  {}

  /** Configuration comes first, then sources; each by name. */
  lemma MetAt(m: Module, d: Descriptor, i: nat)
    requires i < |Requirements(m, d)|
    ensures i < |d.requiredConfig| ==>
      && d.requiredConfig[i] in d.requiredConfig
      && (Requirements(m, d)[i].status == Available <==> RecordedAs(m.config, d.requiredConfig[i], Available))
    ensures i >= |d.requiredConfig| ==>
      && i - |d.requiredConfig| < |d.requiredSources| && d.requiredSources[i - |d.requiredConfig|] in d.requiredSources
      && (Requirements(m, d)[i].status == Available <==>
            RecordedAs(m.sources, d.requiredSources[i - |d.requiredConfig|], Available))
  {
    RequirementsAt(m, d);
    hide Requirements;
    if i >= |d.requiredConfig| { assert Requirements(m, d)[|d.requiredConfig| + (i - |d.requiredConfig|)] == Requirements(m, d)[i]; }
  }

  lemma {:induction false} FirstUnavailableIs(values: seq<CapabilityHealth>, i: nat)
    requires i < |values| && values[i].status == Unavailable
    requires forall j :: 0 <= j < i ==> values[j].status != Unavailable
    ensures FirstUnavailable(values) == Some(values[i])
  {
    if i > 0 { FirstUnavailableIs(values[1..], i - 1); }
  }

  lemma {:induction false} NoneUnavailable(values: seq<CapabilityHealth>)
    ensures FirstUnavailable(values).None? <==> forall i :: 0 <= i < |values| ==> values[i].status != Unavailable
  {
    if values != [] {
      NoneUnavailable(values[1..]);
      assert values == [values[0]] + values[1..];
    }
  }

  lemma AllRequirementsMet(m: Module, d: Descriptor)
    ensures (forall i :: 0 <= i < |Requirements(m, d)| ==> Requirements(m, d)[i].status == Available) <==> AllRecorded(m, d)
  {
    RequirementsAt(m, d);
    hide Requirements, RecordedAs, ConfigHealth, SourceHealth;
    var values, n := Requirements(m, d), |d.requiredConfig|;
    if forall i :: 0 <= i < |values| ==> values[i].status == Available {
      forall i | 0 <= i < n ensures RecordedAs(m.config, d.requiredConfig[i], Available) { MetAt(m, d, i); }
      forall i | 0 <= i < |d.requiredSources| ensures RecordedAs(m.sources, d.requiredSources[i], Available) {
        MetAt(m, d, n + i);
      }
    }
    if AllRecorded(m, d) {
      forall i | 0 <= i < |values| ensures values[i].status == Available { MetAt(m, d, i); }
    }
  }

  lemma NoObjection(values: seq<CapabilityHealth>)
    ensures FirstUnavailable(values).None? && !HasUnknown(values)
       <==> forall i :: 0 <= i < |values| ==> values[i].status == Available
  {
    NoneUnavailable(values);
  }

  /** Dependencies are consulted exactly for capabilities that are fit. */
  lemma LocalVerdictExactly(registry: Registry, key: Key, override: Option<CapabilityHealth>)
    ensures LocalVerdict(registry, key, override).None? <==> Fit(registry, key, override)
  {
    if Declared(registry, key) {
      var m := registry[key.0];
      AllRequirementsMet(m, m.capabilities[key.1]);
      NoObjection(Requirements(m, m.capabilities[key.1]));
      hide Requirements, HasUnknown, FirstUnavailable, RecordedAs;
    }
  }

  /** The recorded configuration says no: the name is missing, or its value is unavailable. */
  predicate ConfigFails(m: Module, name: string) {
    m.config.Some? && (name !in m.config.value || m.config.value[name].status == Unavailable)
  }

  /** What precedes the requirements: declaration, run, own health. */
  lemma VerdictBeforeRequirements(registry: Registry, key: Key, override: Option<CapabilityHealth>)
    ensures !Declared(registry, key) ==>
      LocalVerdict(registry, key, override) == Some(CapabilityHealth(Unavailable, "dependency_unavailable"))
    ensures Declared(registry, key) && !Running(registry[key.0]) ==>
      LocalVerdict(registry, key, override) == Some(CapabilityHealth(Unavailable, "module_unavailable"))
    ensures Declared(registry, key) && Running(registry[key.0]) ==>
      && ((forall value :: !OwnHealthIs(registry[key.0], key.1, override, value)) ==>
            LocalVerdict(registry, key, override) == Some(CapabilityHealth(Unknown, "health_unknown")))
      && (forall value :: OwnHealthIs(registry[key.0], key.1, override, value) && value.status != Available ==>
            LocalVerdict(registry, key, override) == Some(value))
  {
    if Declared(registry, key) {
      var m := registry[key.0];
      if override.Some? { assert OwnHealthIs(m, key.1, override, override.value); }
      else if m.report.Some? && key.1 in m.report.value { assert OwnHealthIs(m, key.1, override, m.report.value[key.1]); }
    }
  }

  /** Past declaration, run and own health. */
  ghost predicate AtRequirements(registry: Registry, key: Key, override: Option<CapabilityHealth>) {
    && Declared(registry, key) && Running(registry[key.0])
    && exists value :: OwnHealthIs(registry[key.0], key.1, override, value) && value.status == Available
  }

  /** The first configuration name that fails decides, with its recorded value if there is one. */
  lemma FirstFailingConfig(registry: Registry, key: Key, override: Option<CapabilityHealth>, i: nat)
    requires AtRequirements(registry, key, override)
    requires i < |registry[key.0].capabilities[key.1].requiredConfig|
    requires var m := registry[key.0]; var names := m.capabilities[key.1].requiredConfig;
      ConfigFails(m, names[i]) && forall j :: 0 <= j < i ==> !ConfigFails(m, names[j])
    ensures var m := registry[key.0]; var name := m.capabilities[key.1].requiredConfig[i];
      LocalVerdict(registry, key, override) ==
        Some(if name in m.config.value then m.config.value[name] else CapabilityHealth(Unavailable, "configuration_missing"))
  {
    var m := registry[key.0];
    RequirementsAt(m, m.capabilities[key.1]);
    hide Requirements;
    FirstUnavailableIs(Requirements(m, m.capabilities[key.1]), i);
  }

  /** Without one, the first source recorded unavailable decides. */
  lemma FirstFailingSource(registry: Registry, key: Key, override: Option<CapabilityHealth>, i: nat)
    requires AtRequirements(registry, key, override)
    requires i < |registry[key.0].capabilities[key.1].requiredSources|
    requires var m := registry[key.0]; var d := m.capabilities[key.1];
      && (forall name :: name in d.requiredConfig ==> !ConfigFails(m, name))
      && RecordedAs(m.sources, d.requiredSources[i], Unavailable)
      && forall j :: 0 <= j < i ==> !RecordedAs(m.sources, d.requiredSources[j], Unavailable)
    ensures var m := registry[key.0]; var name := m.capabilities[key.1].requiredSources[i];
      LocalVerdict(registry, key, override) == Some(m.sources.value[name])
  {
    var m := registry[key.0];
    var d := m.capabilities[key.1];
    RequirementsAt(m, d);
    hide Requirements;
    var n := |d.requiredConfig|;
    forall j | 0 <= j < n + i ensures Requirements(m, d)[j].status != Unavailable {
      if j < n { assert d.requiredConfig[j] in d.requiredConfig; }
      else { assert Requirements(m, d)[n + (j - n)] == SourceHealth(m, d.requiredSources[j - n]); }
    }
    FirstUnavailableIs(Requirements(m, d), n + i);
  }

  /** Without any failure, something not known to be available makes the capability unknown, configuration first. */
  lemma UnknownRequirement(registry: Registry, key: Key, override: Option<CapabilityHealth>)
    requires AtRequirements(registry, key, override)
    requires var m := registry[key.0]; var d := m.capabilities[key.1];
      && (forall name :: name in d.requiredConfig ==> !ConfigFails(m, name))
      && (forall name :: name in d.requiredSources ==> !RecordedAs(m.sources, name, Unavailable))
    ensures var m := registry[key.0]; var d := m.capabilities[key.1];
      LocalVerdict(registry, key, override) ==
        if exists name :: name in d.requiredConfig && !RecordedAs(m.config, name, Available)
          then Some(CapabilityHealth(Unknown, "configuration_unknown"))
        else if exists name :: name in d.requiredSources && !RecordedAs(m.sources, name, Available)
          then Some(CapabilityHealth(Unknown, "source_unknown"))
        else None
  {
    var m := registry[key.0];
    var d := m.capabilities[key.1];
    var values := Requirements(m, d);
    var n := |d.requiredConfig|;
    NothingFails(m, d);
    AllRequirementsMet(m, d);
    NoObjection(values);
    NoObjection(values[..n]);
    ConfigurationPart(m, d);
    NoneUnavailable(values);
    hide Requirements, HasUnknown, FirstUnavailable, RecordedAs, ConfigFails;
  }

  lemma NothingFails(m: Module, d: Descriptor)
    requires forall name :: name in d.requiredConfig ==> !ConfigFails(m, name)
    requires forall name :: name in d.requiredSources ==> !RecordedAs(m.sources, name, Unavailable)
    ensures forall i :: 0 <= i < |Requirements(m, d)| ==> Requirements(m, d)[i].status != Unavailable
    ensures FirstUnavailable(Requirements(m, d)[..|d.requiredConfig|]).None?
  {
    RequirementsAt(m, d);
    hide Requirements;
    var values, n := Requirements(m, d), |d.requiredConfig|;
    forall i | 0 <= i < |values| ensures values[i].status != Unavailable {
      if i < n { assert d.requiredConfig[i] in d.requiredConfig; }
      else {
        assert d.requiredSources[i - n] in d.requiredSources;
        assert values[n + (i - n)] == SourceHealth(m, d.requiredSources[i - n]);
      }
    }
    NoneUnavailable(values[..n]);
  }

  lemma ConfigurationPart(m: Module, d: Descriptor)
    ensures |d.requiredConfig| <= |Requirements(m, d)|
    ensures (forall i :: 0 <= i < |d.requiredConfig| ==> Requirements(m, d)[..|d.requiredConfig|][i].status == Available)
       <==> forall name :: name in d.requiredConfig ==> RecordedAs(m.config, name, Available)
  {
    RequirementsAt(m, d);
    hide Requirements;
    forall i | 0 <= i < |d.requiredConfig|
      ensures Requirements(m, d)[..|d.requiredConfig|][i].status == Available <==> RecordedAs(m.config, d.requiredConfig[i], Available)
    {
      MetAt(m, d, i);
    }
  }

  // ----- The recursion computes the graph property -----

  lemma {:induction false} FirstUnavailableStatus(values: seq<CapabilityHealth>)
    ensures FirstUnavailable(values).Some? ==> FirstUnavailable(values).value.status == Unavailable
  {
    if values != [] { FirstUnavailableStatus(values[1..]); }
  }

  lemma VerdictIsNotAvailable(registry: Registry, key: Key, override: Option<CapabilityHealth>)
    requires LocalVerdict(registry, key, override).Some?
    ensures LocalVerdict(registry, key, override).value.status != Available
  {
    if Declared(registry, key) {
      var m := registry[key.0];
      FirstUnavailableStatus(Requirements(m, m.capabilities[key.1]));
    }
  }

  lemma PathCons(registry: Registry, key: Key, path: seq<Key>)
    requires Path(registry, path) && DependsOn(registry, key, path[0])
    ensures PathFrom(registry, key, [key] + path)
  {
    var longer := [key] + path;
    forall i | 0 < i < |longer| ensures DependsOn(registry, longer[i - 1], longer[i]) {
      if i > 1 { assert DependsOn(registry, path[i - 2], path[i - 1]); }
    }
  }

  lemma PathTail(registry: Registry, path: seq<Key>)
    requires Path(registry, path) && |path| > 1
    ensures Path(registry, path[1..]) && DependsOn(registry, path[0], path[1])
  {
    forall i | 0 < i < |path[1..]| ensures DependsOn(registry, path[1..][i - 1], path[1..][i]) {
      assert DependsOn(registry, path[i], path[i + 1]);
    }
  }

  ghost predicate DependenciesGood(registry: Registry, key: Key, stack: seq<Key>, references: seq<Reference>) {
    forall i :: 0 <= i < |references| ==> AllPathsGood(registry, Target(key, references[i]), stack, None)
  }

  lemma GoodPathCons(registry: Registry, key: Key, path: seq<Key>, stack: seq<Key>, override: Option<CapabilityHealth>)
    requires path != [] && key !in stack && LocalVerdict(registry, key, override).None?
    ensures GoodPath(registry, [key] + path, stack, override) <==> GoodPath(registry, path, stack + [key], None)
  {
    hide LocalVerdict;
    var longer := [key] + path;
    assert forall i :: 0 <= i < |path| ==> longer[i + 1] == path[i];
    if GoodPath(registry, longer, stack, override) {
      forall i | 0 <= i < |path|
        ensures path[i] !in stack + [key] && LocalVerdict(registry, path[i], None).None?
      {
        assert longer[i + 1] != longer[0];
        assert LocalVerdict(registry, longer[i + 1], None).None?;
        assert longer[i + 1] !in stack;
      }
    }
    if GoodPath(registry, path, stack + [key], None) {
      forall i | 0 <= i < |longer|
        ensures longer[i] !in stack && LocalVerdict(registry, longer[i], if i == 0 then override else None).None?
      {
        if i > 0 {
          assert path[i - 1] !in stack + [key];
          assert LocalVerdict(registry, path[i - 1], if i - 1 == 0 then None else None).None?;
        }
      }
      forall i, j | 0 <= i < j < |longer| ensures longer[i] != longer[j] {
        assert path[j - 1] !in stack + [key];
      }
    }
  }

  /** A healthy, unvisited node: all its paths are good iff all paths of its dependencies are. */
  lemma GoodThroughDependencies(registry: Registry, key: Key, stack: seq<Key>, override: Option<CapabilityHealth>)
    requires key !in stack && LocalVerdict(registry, key, override).None?
    ensures AllPathsGood(registry, key, stack, override)
       <==> DependenciesGood(registry, key, stack + [key], Dependencies(registry, key))
  {
    hide LocalVerdict, GoodPath, DependsOn;
    var references := Dependencies(registry, key);
    if AllPathsGood(registry, key, stack, override) {
      forall i, path | 0 <= i < |references| && PathFrom(registry, Target(key, references[i]), path)
        ensures GoodPath(registry, path, stack + [key], None)
      {
        DependsOnExactly(registry, key, path[0]);
        PathCons(registry, key, path);
        GoodPathCons(registry, key, path, stack, override);
      }
    }
    if DependenciesGood(registry, key, stack + [key], references) {
      forall path | PathFrom(registry, key, path) ensures GoodPath(registry, path, stack, override) {
        if |path| == 1 {
          SingletonGood(registry, key, path, stack, override);
        } else {
          PathTail(registry, path);
          DependsOnExactly(registry, key, path[1]);
          var i :| 0 <= i < |references| && Target(key, references[i]) == path[1];
          assert PathFrom(registry, Target(key, references[i]), path[1..]);
          assert GoodPath(registry, path[1..], stack + [key], None);
          assert path == [key] + path[1..];
          GoodPathCons(registry, key, path[1..], stack, override);
        }
      }
    }
  }

  lemma SingletonGood(registry: Registry, key: Key, path: seq<Key>, stack: seq<Key>, override: Option<CapabilityHealth>)
    requires path == [key]
    ensures GoodPath(registry, path, stack, override)
       <==> key !in stack && LocalVerdict(registry, key, override).None?
  {
    hide LocalVerdict;
    assert path[0] == key;
  }

  lemma {:induction false} EffectiveExact(registry: Registry, key: Key, stack: seq<Key>, override: Option<CapabilityHealth>)
    ensures Effective(registry, key, stack, override).status == Available
       <==> AllPathsGood(registry, key, stack, override)
    decreases Unvisited(registry, stack), 1, 0
  {
    hide LocalVerdict, GoodPath;
    if key in stack || LocalVerdict(registry, key, override).Some? {
      if key !in stack { VerdictIsNotAvailable(registry, key, override); }
      assert PathFrom(registry, key, [key]);
      SingletonGood(registry, key, [key], stack, override);
    } else {
      DeclaredWhenHealthy(registry, key, override);
      GoodThroughDependencies(registry, key, stack, override);
      WalkExact(registry, key, stack, Dependencies(registry, key));
    }
  }

  lemma DeclaredWhenHealthy(registry: Registry, key: Key, override: Option<CapabilityHealth>)
    requires LocalVerdict(registry, key, override).None?
    ensures Declared(registry, key)
  {}

  lemma {:induction false} WalkExact(registry: Registry, key: Key, stack: seq<Key>, references: seq<Reference>)
    requires key !in stack && Declared(registry, key)
    ensures Walk(registry, key, stack, references).status == Available
       <==> DependenciesGood(registry, key, stack + [key], references)
    decreases Unvisited(registry, stack), 0, |references|
  {
    hide LocalVerdict, AllPathsGood;
    if references != [] {
      assert key in Unvisited(registry, stack) && key !in Unvisited(registry, stack + [key]);
      EffectiveExact(registry, Target(key, references[0]), stack + [key], None);
      WalkExact(registry, key, stack, references[1..]);
      assert references == [references[0]] + references[1..];
    }
  }

  // ----- Reachability form of the same property -----

  ghost function RootOverride(root: Key, key: Key, override: Option<CapabilityHealth>): Option<CapabilityHealth> {
    if key == root then override else None
  }

  ghost predicate ReachableIsHealthyAndAcyclic(registry: Registry, root: Key, override: Option<CapabilityHealth>) {
    forall key :: Reaches(registry, root, key) ==>
      !OnCycle(registry, key) && Fit(registry, key, RootOverride(root, key, override))
  }

  lemma PathJoin(registry: Registry, p: seq<Key>, q: seq<Key>)
    requires Path(registry, p) && Path(registry, q) && DependsOn(registry, p[|p| - 1], q[0])
    ensures Path(registry, p + q)
  {
    var pq := p + q;
    forall i | 0 < i < |pq| ensures DependsOn(registry, pq[i - 1], pq[i]) {
      if i > |p| { assert DependsOn(registry, q[i - 1 - |p|], q[i - |p|]); }
    }
  }

  lemma PathSlice(registry: Registry, p: seq<Key>, a: nat, b: nat)
    requires Path(registry, p) && a < b <= |p|
    ensures Path(registry, p[a..b])
  {
    forall i | 0 < i < |p[a..b]| ensures DependsOn(registry, p[a..b][i - 1], p[a..b][i]) {
      assert DependsOn(registry, p[a + i - 1], p[a + i]);
    }
  }

  lemma GoodPathsReach(registry: Registry, root: Key, override: Option<CapabilityHealth>, key: Key)
    requires AllPathsGood(registry, root, [], override) && Reaches(registry, root, key)
    ensures Fit(registry, key, RootOverride(root, key, override)) && !OnCycle(registry, key)
  {
    hide LocalVerdict, DependsOn, Fit;
    LocalVerdictExactly(registry, key, RootOverride(root, key, override));
    var p :| PathFrom(registry, root, p) && p[|p| - 1] == key;
    assert GoodPath(registry, p, [], override);
    var last := |p| - 1;
    assert LocalVerdict(registry, p[last], if last == 0 then override else None).None?;
    assert last > 0 ==> p[0] != p[last];
    forall b | DependsOn(registry, key, b) ensures !Reaches(registry, b, key) {
      forall q | PathFrom(registry, b, q) ensures q[|q| - 1] != key {
        PathJoin(registry, p, q);
        assert GoodPath(registry, p + q, [], override);
        assert (p + q)[last] != (p + q)[|p + q| - 1];
      }
    }
  }

  lemma ReachableGivesGoodPaths(registry: Registry, root: Key, override: Option<CapabilityHealth>, path: seq<Key>)
    requires ReachableIsHealthyAndAcyclic(registry, root, override) && PathFrom(registry, root, path)
    ensures GoodPath(registry, path, [], override)
  {
    hide LocalVerdict, DependsOn, Fit;
    forall i | 0 <= i < |path| ensures Reaches(registry, root, path[i]) {
      PathSlice(registry, path, 0, i + 1);
      assert PathFrom(registry, root, path[0..i + 1]);
    }
    forall i, j | 0 <= i < j < |path| ensures path[i] != path[j] {
      PathSlice(registry, path, i + 1, j + 1);
      assert PathFrom(registry, path[i + 1], path[i + 1..j + 1]);
      assert Reaches(registry, path[i + 1], path[j]);
      assert DependsOn(registry, path[i], path[i + 1]);
      assert !OnCycle(registry, path[i]);
    }
    forall i | 0 <= i < |path| ensures LocalVerdict(registry, path[i], if i == 0 then override else None).None? {
      assert i > 0 ==> path[0] != path[i];
      LocalVerdictExactly(registry, path[i], RootOverride(root, path[i], override));
    }
  }

  /** Main result: available exactly when everything reachable is fit and on no cycle. */
  lemma AvailableIffAcyclicAndHealthy(registry: Registry, root: Key, override: Option<CapabilityHealth>)
    ensures Effective(registry, root, [], override).status == Available
       <==> ReachableIsHealthyAndAcyclic(registry, root, override)
  {
    hide LocalVerdict, OnCycle, Fit;
    EffectiveExact(registry, root, [], override);
    if AllPathsGood(registry, root, [], override) {
      forall key | Reaches(registry, root, key)
        ensures !OnCycle(registry, key) && Fit(registry, key, RootOverride(root, key, override))
      {
        GoodPathsReach(registry, root, override, key);
      }
    }
    if ReachableIsHealthyAndAcyclic(registry, root, override) {
      forall path | PathFrom(registry, root, path) ensures GoodPath(registry, path, [], override) {
        ReachableGivesGoodPaths(registry, root, override, path);
      }
    }
  }

  // ----- Which other result, and why -----

  /** An available result carries no reason. */
  lemma {:induction false} AvailableIsPlain(registry: Registry, key: Key, stack: seq<Key>, references: seq<Reference>)
    requires key !in stack && Declared(registry, key) && Walk(registry, key, stack, references).status == Available
    ensures Walk(registry, key, stack, references) == CapabilityHealth(Available, "")
    decreases |references|
  {
    if references != [] { AvailableIsPlain(registry, key, stack, references[1..]); }
  }

  /** Dependencies are consulted in declared order, and the first one that is not available decides. */
  lemma {:induction false} FirstDependencyDecides(registry: Registry, key: Key, stack: seq<Key>, references: seq<Reference>, i: nat)
    requires key !in stack && Declared(registry, key) && i < |references|
    requires forall j :: 0 <= j < i ==>
      Effective(registry, Target(key, references[j]), stack + [key], None).status == Available
    requires Effective(registry, Target(key, references[i]), stack + [key], None).status != Available
    ensures Walk(registry, key, stack, references) ==
      if Effective(registry, Target(key, references[i]), stack + [key], None).status == Unavailable
      then CapabilityHealth(Unavailable, "dependency_unavailable") else CapabilityHealth(Unknown, "dependency_unknown")
    decreases i
  {
    assert key in Unvisited(registry, stack) && key !in Unvisited(registry, stack + [key]);
    if i > 0 {
      assert Effective(registry, Target(key, references[0]), stack + [key], None).status == Available;
      FirstDependencyDecides(registry, key, stack, references[1..], i - 1);
    }
  }

  /** Why a result is not available: a path of fit capabilities whose last one closes a cycle or fails by itself. */
  ghost predicate Blames(registry: Registry, path: seq<Key>, stack: seq<Key>, override: Option<CapabilityHealth>, status: Status) {
    && path != []
    && (forall i :: 0 <= i < |path| - 1 ==> Fit(registry, path[i], if i == 0 then override else None) && path[i] !in stack)
    && var last := |path| - 1;
       if path[last] in stack || path[last] in path[..last] then status == Unavailable
       else LocalVerdict(registry, path[last], if last == 0 then override else None).Some?
            && LocalVerdict(registry, path[last], if last == 0 then override else None).value.status == status
  }

  lemma BlameCons(registry: Registry, key: Key, path: seq<Key>, stack: seq<Key>, override: Option<CapabilityHealth>, status: Status)
    requires Blames(registry, path, stack + [key], None, status) && key !in stack && Fit(registry, key, override)
    ensures Blames(registry, [key] + path, stack, override, status)
  {
    hide Fit, LocalVerdict;
    var longer := [key] + path;
    var last := |path| - 1;
    assert longer[..last + 1] == [key] + path[..last];
    forall i | 0 <= i < |longer| - 1
      ensures Fit(registry, longer[i], if i == 0 then override else None) && longer[i] !in stack
    {
      if i > 0 { assert longer[i] == path[i - 1] && path[i - 1] !in stack + [key]; }
    }
    assert longer[last + 1] == path[last];
  }

  /** Every other result has such a path, which also gives its status; at the root it is the verdict itself. */
  lemma {:induction false} ResultHasCause(registry: Registry, key: Key, stack: seq<Key>, override: Option<CapabilityHealth>)
    returns (path: seq<Key>)
    requires Effective(registry, key, stack, override).status != Available
    ensures path != [] && PathFrom(registry, key, path)
    ensures Blames(registry, path, stack, override, Effective(registry, key, stack, override).status)
    ensures key !in stack && |path| == 1 ==> Some(Effective(registry, key, stack, override)) == LocalVerdict(registry, key, override)
    decreases Unvisited(registry, stack), 1, 0
  {
    hide LocalVerdict, Fit;
    if key in stack || LocalVerdict(registry, key, override).Some? {
      path := [key];
    } else {
      DeclaredWhenHealthy(registry, key, override);
      LocalVerdictExactly(registry, key, override);
      var rest := WalkHasCause(registry, key, stack, Dependencies(registry, key));
      DependsOnExactly(registry, key, rest[0]);
      PathCons(registry, key, rest);
      BlameCons(registry, key, rest, stack, override, Effective(registry, key, stack, override).status);
      path := [key] + rest;
    }
  }

  lemma {:induction false} WalkHasCause(registry: Registry, key: Key, stack: seq<Key>, references: seq<Reference>)
    returns (path: seq<Key>)
    requires key !in stack && Declared(registry, key) && Walk(registry, key, stack, references).status != Available
    ensures path != [] && Path(registry, path) && exists i :: 0 <= i < |references| && Target(key, references[i]) == path[0]
    ensures Blames(registry, path, stack + [key], None, Walk(registry, key, stack, references).status)
    decreases Unvisited(registry, stack), 0, |references|
  {
    hide LocalVerdict, Fit, Blames, Path;
    assert key in Unvisited(registry, stack) && key !in Unvisited(registry, stack + [key]);
    if Effective(registry, Target(key, references[0]), stack + [key], None).status == Available {
      path := WalkHasCause(registry, key, stack, references[1..]);
      var i :| 0 <= i < |references[1..]| && Target(key, references[1..][i]) == path[0];
      assert references[i + 1] == references[1..][i];
    } else {
      path := ResultHasCause(registry, Target(key, references[0]), stack + [key], None);
    }
  }
}
