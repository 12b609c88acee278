/** Method injection: at scene load the GameBase component walks the
    components attached to its node and, on each one whose `sceneScript`
    marker is exactly `true`, copies the helper table (through
    `Object.assign`) and sets `resourceHost`, `query` and `env`.
 */
module Injection {
  import opened JsValues
  import ObjectAssign
  import Resources

  const SceneScriptKey := "sceneScript"
  const QueryKey := "query"
  const EnvKey := "env"
  const HostQueryKey := "_query"
  const HostEnvKey := "_env"
  const CollisionSystemKey := "collisionSystem"
  const DebugCollisionKey := "debugCollision"

  /** The helpers that the table holds as functions. */
  const MethodNames: set<string> := {
    "addPrefabToScene", "instantiatePrefab", "saveAudio", "playAudio",
    "playAudioPromise", "runActionPromise", "runActionPromiseWithArg",
    "urlOf", "setResourceHost", "setDirectory", "loadConfig",
    "loadImage", "loadImages", "loadAudio", "loadAudios"
  }

  /** Every key of the helper table. */
  const HelperKeys: set<string> := {"$debug", "$log"} + MethodNames

  /** The three data fields set on every injected component. */
  const DataKeys: set<string> := {Resources.HostKey, QueryKey, EnvKey}

  /** The helper table: `$debug` and `$log` come from the environment
      module, every other entry is the helper function of that name.  No
      entry shares its name with the marker or a data field, so the copy
      never clears the marker and the assignments after it never undo it. */
  function HelperTable(envModule: Props): (t: Props)
    ensures t.Keys !! DataKeys
    ensures SceneScriptKey !in t
  {
    HelperKeysAvoidDataKeys();
    map k | k in HelperKeys ::
      if k == "$debug" then Get(envModule, "debug")
      else if k == "$log" then Get(envModule, "log")
      else Fn(k)
  }

  lemma HelperKeysAvoidDataKeys()
    ensures HelperKeys !! DataKeys
    ensures SceneScriptKey !in HelperKeys
  {
  }

  /** The table holds exactly the helper keys, with the environment's
      `debug` and `log` under `$debug` and `$log`. */
  lemma HelperTableContents(envModule: Props)
    ensures HelperTable(envModule).Keys == HelperKeys
    ensures HelperTable(envModule)["$debug"] == Get(envModule, "debug")
    ensures HelperTable(envModule)["$log"] == Get(envModule, "log")
    ensures forall n :: n in MethodNames ==> HelperTable(envModule)[n] == Fn(n)
  {
    assert "$debug" !in MethodNames && "$log" !in MethodNames;
  }

  /** `!comp || comp.sceneScript !== true` fails: the marker must be the
      boolean `true` itself. */
  predicate IsSceneScript(comp: Value) {
    Truthy(comp) && ReadProp(comp, SceneScriptKey) == Ok(Bool(true))
  }

  /** The relation between a component before and after injection of a
      table whose keys avoid the data fields: it has every entry of the
      table and the host's three data values, and every other property it
      had is unchanged. */
  ghost predicate Injected(table: Props, host: Props, before: Props, after: Props) {
    && after.Keys == before.Keys + table.Keys + DataKeys
    && (forall k :: k in table ==> after[k] == table[k])
    && after[Resources.HostKey] == Get(host, Resources.HostKey)
    && after[QueryKey] == Get(host, HostQueryKey)
    && after[EnvKey] == Get(host, HostEnvKey)
    && (forall k :: k in before && k !in table && k !in DataKeys ==> after[k] == before[k])
  }

  /** The relation determines the component after injection. */
  lemma InjectedIsUnique(table: Props, host: Props, before: Props, a: Props, b: Props)
    requires table.Keys !! DataKeys
    requires Injected(table, host, before, a)
    requires Injected(table, host, before, b)
    ensures a == b
  {
  }

  /** The body of the loop in `init` for one marked component:
      `Object.assign(comp, table)` followed by the three assignments. */
  function Inject(table: Props, host: Props, comp: Props): (r: Props)
    requires table.Keys !! DataKeys
    ensures Injected(table, host, comp, r)
  {
    ObjectAssign.AssignOneObject(comp, table);
    var copied := ObjectAssign.Assign(Obj(comp), [Obj(table)]).value;
    copied[Resources.HostKey := Get(host, Resources.HostKey)]
          [QueryKey := Get(host, HostQueryKey)]
          [EnvKey := Get(host, HostEnvKey)]
  }

  /** One step of `init`: marked components receive the helper table,
      every other value in the list (null, unmarked, marked with anything
      but `true`) is left as it is. */
  function InjectInto(host: Props, envModule: Props, comp: Value): (r: Value)
    ensures !IsSceneScript(comp) ==> r == comp
    ensures IsSceneScript(comp) ==> r.Obj? && Injected(HelperTable(envModule), host, comp.props, r.props)
  {
    if IsSceneScript(comp) then Obj(Inject(HelperTable(envModule), host, comp.props)) else comp
  }

  /** `init()`: walks the component list of the host's node. */
  method Init(host: Props, envModule: Props, comps: seq<Value>) returns (r: seq<Value>)
    ensures |r| == |comps|
    ensures forall i :: 0 <= i < |comps| && !IsSceneScript(comps[i]) ==> r[i] == comps[i]
    ensures forall i :: 0 <= i < |comps| && IsSceneScript(comps[i]) ==>
              r[i].Obj? && Injected(HelperTable(envModule), host, comps[i].props, r[i].props)
  {
    r := [];
    var i := 0;
    while i < |comps|
      invariant 0 <= i <= |comps|
      invariant |r| == i
      invariant forall j :: 0 <= j < i ==> r[j] == InjectInto(host, envModule, comps[j])
    {
      r := r + [InjectInto(host, envModule, comps[i])];
      i := i + 1;
    }
  }

  /** The engine's collision-manager flags that `onLoad` sets. */
  datatype CollisionSettings = CollisionSettings(enabled: Value, debugDraw: Value)

  /** The editor defaults of GameBase's own properties. */
  const GameBaseDefaults: Props := map[
    CollisionSystemKey := Bool(false),
    DebugCollisionKey := Bool(false),
    Resources.HostKey := Str("")
  ]

  /** `onLoad()`: records the environment module and the parsed query on
      the host, copies the two collision flags to the collision manager,
      then runs `init`.  The query is the already-parsed page query. */
  method OnLoad(host: Props, envModule: Props, query: Value, comps: seq<Value>)
    returns (loaded: Props, injected: seq<Value>, collision: CollisionSettings)
    ensures loaded.Keys == host.Keys + {HostEnvKey, HostQueryKey}
    ensures loaded[HostEnvKey] == Obj(envModule) && loaded[HostQueryKey] == query
    ensures forall k :: k in host && k != HostEnvKey && k != HostQueryKey ==> k in loaded && loaded[k] == host[k]
    ensures collision.enabled == Get(host, CollisionSystemKey)
    ensures collision.debugDraw == Get(host, DebugCollisionKey)
    ensures |injected| == |comps|
    ensures forall i :: 0 <= i < |comps| && !IsSceneScript(comps[i]) ==> injected[i] == comps[i]
    ensures forall i :: 0 <= i < |comps| && IsSceneScript(comps[i]) ==>
              && injected[i].Obj?
              && Injected(HelperTable(envModule), loaded, comps[i].props, injected[i].props)
              && injected[i].props[QueryKey] == query
              && injected[i].props[EnvKey] == Obj(envModule)
              && injected[i].props[Resources.HostKey] == Get(host, Resources.HostKey)
  {
    loaded := host[HostEnvKey := Obj(envModule)][HostQueryKey := query];
    collision := CollisionSettings(Get(host, CollisionSystemKey), Get(host, DebugCollisionKey));
    injected := Init(loaded, envModule, comps);
  }

  // ---------------------------------------------------------------------
  // Properties

  /** The marker test reads the property on objects only and demands the
      boolean `true`: null, primitives, and objects whose marker is absent,
      `false`, `"true"` or `1` are all skipped. */
  lemma SceneScriptMarker(comp: Value)
    ensures IsSceneScript(comp) <==> comp.Obj? && Get(comp.props, SceneScriptKey) == Bool(true)
  {
  }

  /** A component that is already injected is its own injection. */
  lemma InjectedIsFixpoint(table: Props, host: Props, before: Props, after: Props)
    requires Injected(table, host, before, after)
    ensures Injected(table, host, after, after)
  {
  }

  /** Injection keeps the marker, so a second `init` visits the same
      components and re-copies the same values: running it again changes
      nothing. */
  lemma InjectIntoIdempotent(host: Props, envModule: Props, comp: Value)
    ensures InjectInto(host, envModule, InjectInto(host, envModule, comp)) == InjectInto(host, envModule, comp)
  {
    if IsSceneScript(comp) {
      var table := HelperTable(envModule);
      var once := InjectInto(host, envModule, comp).props;
      assert SceneScriptKey in comp.props;
      assert SceneScriptKey !in table;
      assert once[SceneScriptKey] == Bool(true);
      assert IsSceneScript(Obj(once));
      InjectedIsFixpoint(table, host, comp.props, once);
      InjectedIsUnique(table, host, once, once, Inject(table, host, once));
    }
  }

  /** A same-named member that a component already had is overwritten by
      the helper from the table. */
  lemma InjectOverwritesSameName(host: Props, envModule: Props, comp: Value, name: string)
    requires IsSceneScript(comp)
    requires name in MethodNames && name in comp.props
    ensures InjectInto(host, envModule, comp).props[name] == Fn(name)
  {
    HelperTableContents(envModule);
  }

  /** A GameBase left at its defaults has no resource host, so every
      injected component's loaders throw the host error until
      `setResourceHost` is called. */
  lemma DefaultHostLeavesLoadersUnconfigured(envModule: Props, query: Value, comp: Props, f: Value)
    requires IsSceneScript(Obj(comp))
    ensures var host := GameBaseDefaults[HostEnvKey := Obj(envModule)][HostQueryKey := query];
            Resources.LoadConfig(InjectInto(host, envModule, Obj(comp)).props, f)
              == Err(ConfigError(Resources.HostMissing))
  {
  }
}
