/** Resource URLs of a scene-script component: the host/directory guard,
    `urlOf`, the two chaining setters, and the guard-first entry points of
    the loaders.  `comp` is always the component the helper was copied
    onto (`this` in GameBase.js).
 */
module Resources {
  import opened JsValues

  const HostKey := "resourceHost"
  const DirKey := "directory"

  const HostMissing := "Please set resource host property of GameBase!"
  const DirMissing := "Please set directory first!"

  const DefaultConfigFile := "config.json"

  /** `checkHostAndDir`: the host is checked first, then the directory;
      each must be truthy. */
  function CheckHostAndDir(comp: Props): (r: Result<()>)
    ensures r.Ok? <==> Truthy(Get(comp, HostKey)) && Truthy(Get(comp, DirKey))
    ensures !Truthy(Get(comp, HostKey)) ==> r == Err(ConfigError(HostMissing))
    ensures Truthy(Get(comp, HostKey)) && !Truthy(Get(comp, DirKey)) ==> r == Err(ConfigError(DirMissing))
  {
    if !Truthy(Get(comp, HostKey)) then Err(ConfigError(HostMissing))
    else if !Truthy(Get(comp, DirKey)) then Err(ConfigError(DirMissing))
    else Ok(())
  }

  /** `urlOf(filename, dir = this.directory)`: runs the guard on the
      component's own directory, whatever `dir` is, then joins host,
      directory and file name with slashes. */
  function UrlOf(comp: Props, filename: Value, dir: Value): (r: Result<string>)
    ensures r.Err? <==> CheckHostAndDir(comp).Err?
    ensures r.Err? ==> r.error == CheckHostAndDir(comp).error
    ensures r.Ok? ==> var host := ToStr(Get(comp, HostKey));
                      var file := ToStr(filename);
                      && |r.value| > |host| + |file|
                      && r.value[..|host| + 1] == host + "/"
                      && r.value[|r.value| - |file| - 1..] == "/" + file
  {
    var d := OrDefault(dir, Get(comp, DirKey));
    var _ :- CheckHostAndDir(comp);
    Ok(ToStr(Get(comp, HostKey)) + "/" + ToStr(d) + "/" + ToStr(filename))
  }

  /** `setResourceHost(host)`: returns the component with that one field set. */
  function SetResourceHost(comp: Props, host: Value): (r: Props)
    ensures r.Keys == comp.Keys + {HostKey}
    ensures r[HostKey] == host
    ensures forall k :: k in comp && k != HostKey ==> r[k] == comp[k]
  {
    comp[HostKey := host]
  }

  /** `setDirectory(dir)`: returns the component with that one field set. */
  function SetDirectory(comp: Props, dir: Value): (r: Props)
    ensures r.Keys == comp.Keys + {DirKey}
    ensures r[DirKey] == dir
    ensures forall k :: k in comp && k != DirKey ==> r[k] == comp[k]
  {
    comp[DirKey := dir]
  }

  /** What a loader helper does with the engine's result once it arrives. */
  datatype AfterLoad =
    | AsIs             // the promise of the loader is returned unchanged
    | ToSpriteFrame    // `.then(createSpriteFrame)`
    | ToSpriteFrames   // `.then(textures => textures.map(createSpriteFrame))`
    | CacheAsConfig    // `.then(data => this._config = data)`

  /** The request a loader helper hands to the engine's promise loader. */
  datatype LoaderCall =
    | Load(url: string, after: AfterLoad)
    | LoadAll(names: Value, after: AfterLoad)

  /** A loader helper either throws before touching the loader, with the
      guard's error, or issues its request. */
  predicate GuardedBy(comp: Props, r: Result<LoaderCall>) {
    && (r.Err? <==> CheckHostAndDir(comp).Err?)
    && (r.Err? ==> r.error == CheckHostAndDir(comp).error)
  }

  function LoadOne(comp: Props, filename: Value, after: AfterLoad): (r: Result<LoaderCall>)
    ensures GuardedBy(comp, r)
    ensures r.Ok? ==> UrlOf(comp, filename, Undefined).Ok?
                      && r.value == Load(UrlOf(comp, filename, Undefined).value, after)
  {
    var _ :- CheckHostAndDir(comp);
    Ok(Load(UrlOf(comp, filename, Undefined).value, after))
  }

  /** `loadConfig(filename = 'config.json')`. */
  function LoadConfig(comp: Props, filename: Value): (r: Result<LoaderCall>)
    ensures GuardedBy(comp, r)
    ensures r.Ok? ==> r.value.Load? && r.value.after == CacheAsConfig
    ensures r.Ok? ==> r.value.url == UrlOf(comp, OrDefault(filename, Str(DefaultConfigFile)), Undefined).value
  {
    LoadOne(comp, OrDefault(filename, Str(DefaultConfigFile)), CacheAsConfig)
  }

  /** `loadImage(filename, asSpriteFrame = true)`. */
  function LoadImage(comp: Props, filename: Value, asSpriteFrame: Value): (r: Result<LoaderCall>)
    ensures GuardedBy(comp, r)
    ensures r.Ok? ==> r.value.Load? && r.value.url == UrlOf(comp, filename, Undefined).value
    ensures r.Ok? ==> (r.value.after == ToSpriteFrame <==> Truthy(OrDefault(asSpriteFrame, Bool(true))))
    ensures r.Ok? ==> r.value.after in {ToSpriteFrame, AsIs}
  {
    var after := if Truthy(OrDefault(asSpriteFrame, Bool(true))) then ToSpriteFrame else AsIs;
    LoadOne(comp, filename, after)
  }

  /** `loadImages(filenames, asSpriteFrame = true)`: the names go to the
      batch loader as given, without `urlOf`. */
  function LoadImages(comp: Props, filenames: Value, asSpriteFrame: Value): (r: Result<LoaderCall>)
    ensures GuardedBy(comp, r)
    ensures r.Ok? ==> r.value.LoadAll? && r.value.names == filenames
    ensures r.Ok? ==> (r.value.after == ToSpriteFrames <==> Truthy(OrDefault(asSpriteFrame, Bool(true))))
    ensures r.Ok? ==> r.value.after in {ToSpriteFrames, AsIs}
  {
    var _ :- CheckHostAndDir(comp);
    var after := if Truthy(OrDefault(asSpriteFrame, Bool(true))) then ToSpriteFrames else AsIs;
    Ok(LoadAll(filenames, after))
  }

  /** `loadAudio(filename)`. */
  function LoadAudio(comp: Props, filename: Value): (r: Result<LoaderCall>)
    ensures GuardedBy(comp, r)
    ensures r.Ok? ==> r.value == Load(UrlOf(comp, filename, Undefined).value, AsIs)
  {
    LoadOne(comp, filename, AsIs)
  }

  /** `loadAudios(filenames)`: the names go to the batch loader as given. */
  function LoadAudios(comp: Props, filenames: Value): (r: Result<LoaderCall>)
    ensures GuardedBy(comp, r)
    ensures r.Ok? ==> r.value == LoadAll(filenames, AsIs)
  {
    var _ :- CheckHostAndDir(comp);
    Ok(LoadAll(filenames, AsIs))
  }

  /** Splits a URL at its last slash into the part before and the part
      after it; a string without a slash is all file name. */
  function SplitAtLastSlash(url: string): (r: (string, string))
    ensures '/' !in r.1
    decreases |url|
  {
    if url == [] then ([], [])
    else if url[|url| - 1] == '/' then (url[..|url| - 1], [])
    else
      var (before, after) := SplitAtLastSlash(url[..|url| - 1]);
      (before, after + [url[|url| - 1]])
  }

  // ---------------------------------------------------------------------
  // Properties

  lemma {:induction false} SplitAfterSlash(prefix: string, name: string)
    requires '/' !in name
    ensures SplitAtLastSlash(prefix + "/" + name) == (prefix, name)
    decreases |name|
  {
    var url := prefix + "/" + name;
    if name == [] {
      assert url[..|url| - 1] == prefix;
    } else {
      var shorter := name[..|name| - 1];
      SplitAfterSlash(prefix, shorter);
      assert url[..|url| - 1] == prefix + "/" + shorter;
      assert shorter + [name[|name| - 1]] == name;
    }
  }

  /** A URL built by `urlOf` from a file name without slashes splits back
      into the `host/dir` base and that file name. */
  lemma UrlOfSplitsBack(comp: Props, f: string, dir: Value)
    requires CheckHostAndDir(comp).Ok?
    requires '/' !in f
    ensures var base := ToStr(Get(comp, HostKey)) + "/" + ToStr(OrDefault(dir, Get(comp, DirKey)));
            SplitAtLastSlash(UrlOf(comp, Str(f), dir).value) == (base, f)
  {
    var base := ToStr(Get(comp, HostKey)) + "/" + ToStr(OrDefault(dir, Get(comp, DirKey)));
    SplitAfterSlash(base, f);
  }

  /** With string host and directory both non-empty, `urlOf(f, d)` is
      `host + "/" + d + "/" + f`, where `d` defaults to the directory. */
  lemma UrlOfJoinsStrings(comp: Props, host: string, dir: string, f: string, d: Value)
    requires Get(comp, HostKey) == Str(host) && host != ""
    requires Get(comp, DirKey) == Str(dir) && dir != ""
    requires d.Undefined? || d.Str?
    ensures var used := if d.Str? then d.s else dir;
            UrlOf(comp, Str(f), d) == Ok(host + "/" + used + "/" + f)
  {
  }

  /** The guard fails with an empty host, and fails with an empty directory;
      when both are empty it is the host error that is raised. */
  lemma GuardRejectsEmpty(comp: Props)
    ensures Get(comp, HostKey) == Str("") ==> CheckHostAndDir(comp) == Err(ConfigError(HostMissing))
    ensures Truthy(Get(comp, HostKey)) && Get(comp, DirKey) == Str("")
            ==> CheckHostAndDir(comp) == Err(ConfigError(DirMissing))
  {
  }

  /** A non-empty `dir` argument does not get past the guard: an unset
      directory on the component still makes `urlOf` throw. */
  lemma OverrideDoesNotBypassGuard(comp: Props, f: Value, dir: Value)
    requires Truthy(Get(comp, HostKey))
    requires !Truthy(Get(comp, DirKey))
    ensures UrlOf(comp, f, dir) == Err(ConfigError(DirMissing))
  {
  }

  /** Every loader entry point throws exactly the guard's error when the
      guard fails, before issuing any request. */
  lemma LoadersRunGuardFirst(comp: Props, f: Value, fs: Value, flag: Value)
    requires CheckHostAndDir(comp).Err?
    ensures var e := CheckHostAndDir(comp).error;
            && UrlOf(comp, f, Undefined) == Err(e)
            && LoadConfig(comp, f) == Err(e)
            && LoadImage(comp, f, flag) == Err(e)
            && LoadImages(comp, fs, flag) == Err(e)
            && LoadAudio(comp, f) == Err(e)
            && LoadAudios(comp, fs) == Err(e)
  {
  }

  /** Chaining the two setters configures the component: the guard passes
      exactly when both values are truthy. */
  lemma ChainedSettersConfigure(comp: Props, host: Value, dir: Value)
    ensures var c := SetDirectory(SetResourceHost(comp, host), dir);
            CheckHostAndDir(c).Ok? <==> Truthy(host) && Truthy(dir)
  {
  }

  /** An example: host `https://cdn.x.com/games`, directory
      `lvl1`, file `bg.png`. */
  lemma UrlOfExample(comp: Props)
    ensures var c := SetDirectory(SetResourceHost(comp, Str("https://cdn.x.com/games")), Str("lvl1"));
            UrlOf(c, Str("bg.png"), Undefined) == Ok("https://cdn.x.com/games/lvl1/bg.png")
  {
    var c := SetDirectory(SetResourceHost(comp, Str("https://cdn.x.com/games")), Str("lvl1"));
    UrlOfJoinsStrings(c, "https://cdn.x.com/games", "lvl1", "bg.png", Undefined);
    assert "https://cdn.x.com/games" + "/" + "lvl1" + "/" + "bg.png" == "https://cdn.x.com/games/lvl1/bg.png";
  }

  /** With no host set, `loadConfig()` throws the host error. */
  lemma LoadConfigWithoutHost(comp: Props)
    requires !Truthy(Get(comp, HostKey))
    ensures LoadConfig(comp, Undefined) == Err(ConfigError(HostMissing))
  {
  }
}
