# GameBase helper layer — a Dafny model

`GameBase.js` is a Cocos Creator component that, when its node loads, finds
every component on the same node whose `sceneScript` marker is exactly
`true` and copies a table of helper functions onto it, together with the
resource host, the parsed page query and the environment module. The
helpers build resource URLs (`host/dir/file`) behind a host/directory guard,
set those two fields with chainable setters, hand load requests to the
engine's loader, and keep audio URLs on a node under a derived key so they
can be played back later.

This project models the pure bookkeeping in that layer:

- `JsValues` (`jsvalues.dfy`): the JavaScript values the helpers observe,
  with truthiness, the `== null` test, the default-parameter rule, property
  reads and template-literal string conversion. Objects are immutable
  property maps, so an operation that mutates `this` in GameBase.js returns
  the updated map here. Decimal printing of numbers comes with its parser
  and a round-trip proof.
- `ObjectAssign` (`objectassign.dfy`): the `Object.assign` polyfill. It is
  specified declaratively: a key is present when the target had it or some
  non-null source writes it, and the last source that writes a key decides
  its value.
- `Resources` (`resources.dfy`): `checkHostAndDir`, `urlOf`,
  `setResourceHost`/`setDirectory`, and the guard-first entry points of
  `loadConfig`, `loadImage(s)` and `loadAudio(s)`. A loader helper's result
  is the request it would hand to the engine.
- `Audio` (`audio.dfy`): `saveAudio`, `playAudio` with its `-1` sentinel,
  and `playAudioPromise`. The string library's `capitalize` and the audio
  engine's `play` are function parameters about which nothing is assumed.
  The only exception is the lemmas that say "an engine returning
  non-negative ids".
- `Injection` (`injection.dfy`): the helper table, the per-component
  injection, `init` as a loop over the component list, and `onLoad`.

Behaviour of the code worth noting:

- The guard and `playAudio` test truthiness, not emptiness. A host of `0`
  fails the guard, and so does a missing host. A saved URL of `""` plays
  nothing.
- `playAudioPromise` rejects on any negative id, including one the engine
  returns, not only on the `-1` sentinel.
- `urlOf` always guards `this.directory`, even when a `dir` argument
  overrides the directory used in the URL.
- `loadImages` and `loadAudios` pass the file names to the batch loader
  unchanged. They are not turned into URLs.

## Model

| member | source | states |
|---|---|---|
| `ObjectAssign.Assign` | GameBase.js:165-186 | throws the TypeError exactly for a null or undefined target; an object target keeps all its keys |
| `ObjectAssign.CopyAll` | GameBase.js:173-184 | a key is present iff the target has it or some non-null source owns it; the last such source decides its value; otherwise the target's value stays |
| `ObjectAssign.IndexProps` | GameBase.js:177-180 | a string source contributes exactly the keys "0".."n-1", each mapped to its one-character string |
| `ObjectAssign.AssignOneObject` | GameBase.js:155 | copying one object: result keys are the union, the source wins on shared keys, other target keys are unchanged |
| `ObjectAssign.NullSourcesSkipped` | GameBase.js:176 | removing a null or undefined source from the list does not change the result |
| `Resources.CheckHostAndDir` | GameBase.js:116-123 | passes iff host and directory are both truthy; a falsy host gives the host error even when the directory is also falsy |
| `Resources.UrlOf` | GameBase.js:68-71 | throws exactly the guard's error; otherwise the URL begins with `host/` and ends with `/filename` |
| `Resources.UrlOfSplitsBack` | GameBase.js:68-71 | splitting the URL at its last slash gives back `host/dir` and a slash-free file name |
| `Resources.UrlOfJoinsStrings` | GameBase.js:68-70 | with non-empty string host and directory, `urlOf(f, d)` is `host + "/" + d + "/" + f`, and `d` defaults to the directory |
| `Resources.UrlOfExample` | GameBase.js:68-79 | host `https://cdn.x.com/games`, directory `lvl1`, file `bg.png` give `https://cdn.x.com/games/lvl1/bg.png` |
| `Resources.OverrideDoesNotBypassGuard` | GameBase.js:68-70 | with a falsy `this.directory`, every `dir` override still gets the directory error |
| `Resources.GuardRejectsEmpty` | GameBase.js:117-122 | an empty host fails with the host error; an empty directory under a set host fails with the directory error; both empty gives the host error |
| `Resources.SetResourceHost` | GameBase.js:72-75 | sets `resourceHost` to the argument and leaves every other field unchanged |
| `Resources.SetDirectory` | GameBase.js:76-79 | sets `directory` to the argument and leaves every other field unchanged |
| `Resources.ChainedSettersConfigure` | GameBase.js:72-79 | after `setResourceHost(h).setDirectory(d)` the guard passes iff `h` and `d` are truthy |
| `Resources.LoadConfig` | GameBase.js:80-85 | throws exactly the guard's error; otherwise loads `urlOf(filename)` with `config.json` as the default name and caches the result as the config |
| `Resources.LoadImage` | GameBase.js:86-91 | guard first; loads `urlOf(filename)`; converts to a sprite frame iff the flag, which defaults to true, is truthy |
| `Resources.LoadImages` | GameBase.js:92-99 | guard first; batch-loads the names unchanged; converts each to a sprite frame iff the flag is truthy |
| `Resources.LoadAudio` | GameBase.js:100-103 | guard first; loads `urlOf(filename)` as is |
| `Resources.LoadAudios` | GameBase.js:104-107 | guard first; batch-loads the names unchanged |
| `Resources.LoadersRunGuardFirst` | GameBase.js:69-106 | when the guard fails, `urlOf` and all five loaders throw its error and issue no request |
| `Resources.LoadConfigWithoutHost` | GameBase.js:80-81 | with no host set, `loadConfig()` throws the host error |
| `Audio.AudioKey` | GameBase.js:44 | the key is `audio` followed by the capitalized name |
| `Audio.SaveAudio` | GameBase.js:42-45 | a falsy or non-object node is unchanged; an object node gains the URL under the derived key, and every other key is unchanged; `node` defaults to the component |
| `Audio.PlayAudio` | GameBase.js:46-50 | throws iff the node is null; returns the sentinel iff the stored value is falsy; otherwise plays exactly the stored value |
| `Audio.PlayAudioPromise` | GameBase.js:51-57 | rejects with `<name> not found!` iff `playAudio` returned a negative id; otherwise waits on that id |
| `Audio.SaveThenPlay` | GameBase.js:42-50 | after saving a truthy URL on a node, playing the name on that node plays exactly that URL |
| `Audio.SaveThenPlayOnSelf` | GameBase.js:42-50 | the same round trip when both calls use the default node |
| `Audio.SentinelIffNothingStored` | GameBase.js:46-49 | with an engine returning non-negative ids, the result is -1 iff the derived key holds nothing truthy |
| `Audio.PromiseRejectsIffNothingStored` | GameBase.js:51-53 | with such an engine, the promise rejects iff nothing truthy is stored under the derived key |
| `Audio.SaveLeavesOtherNames` | GameBase.js:42-50 | saving under one name does not change what a name with a different key plays |
| `Audio.SameKeyLaterSaveWins` | GameBase.js:44-47 | two names that capitalize alike share one slot, and the later save is the one played |
| `Injection.HelperTable` | GameBase.js:5-108 | no entry of the helper table is the marker or one of the three data fields |
| `Injection.HelperTableContents` | GameBase.js:5-107 | the table has exactly the 17 helper keys; `$debug`/`$log` come from the environment module and every other entry is its helper |
| `Injection.Inject` | GameBase.js:155-158 | the injected component has every table entry, the host's `resourceHost`, `_query` as `query` and `_env` as `env`, and keeps its other properties |
| `Injection.InjectInto` | GameBase.js:150-158 | a null, unmarked or not-exactly-`true` component is unchanged; a marked one is injected |
| `Injection.Init` | GameBase.js:147-160 | same length as the component list; unmarked entries are unchanged and marked ones are injected |
| `Injection.OnLoad` | GameBase.js:137-146 | records the environment and query on the host; copies both collision flags; every marked component is injected (all helper entries, the host's three data values, other properties unchanged) and receives that query, environment and host; unmarked ones are unchanged |
| `Injection.SceneScriptMarker` | GameBase.js:151 | a component is a target iff it is an object whose `sceneScript` is the boolean `true` |
| `Injection.InjectIntoIdempotent` | GameBase.js:147-160 | injecting twice gives the same component as injecting once |
| `Injection.InjectOverwritesSameName` | GameBase.js:155 | a member a component already had under a helper's name is replaced by the helper |
| `Injection.DefaultHostLeavesLoadersUnconfigured` | GameBase.js:129-135 | with the default empty `resourceHost`, every injected component's `loadConfig` throws the host error |

## Left out

- `instantiatePrefab` and `addPrefabToScene`: they only call the engine's
  loader, `cc.instantiate` and scene-graph mutation. Their centering uses
  floating-point canvas sizes.
- `runActionPromise` and `runActionPromiseWithArg`: these are only
  promise/callback glue around `cc.sequence`, `cc.callFunc` and
  `runAction`.
- Engine behaviour behind the loaders (`cc.loaderp.load`/`loadAll`),
  `createSpriteFrame`/`cc.SpriteFrame`, and
  `cc.audioEngine.setFinishCallback`. A loader call is described by
  `Resources.LoaderCall`. Loading, rejection and the write of `_config`
  after the load are not modelled.
- The collision manager: `onLoad` is modelled only as far as the two flags
  it copies.
- `strings.parseQuery(location.search)` and the `util-env` module are
  browser I/O and libraries that are not part of this model. The parsed
  query and the environment module are parameters of `Injection.OnLoad`.
- `strings.capitalize` and `cc.audioEngine.play` are parameters, as is the
  engine's audio id.
- Object identity. Components are values, so aliasing is not modelled: the
  host appearing in its own component list, or one component listed twice.
  In both cases the copied values are the same.
- `Injection.Init` takes the component list itself. A missing `node`
  throws a TypeError when `init` reads `_components` from it; that is not
  modelled. A missing `_components` list makes the `for…in` loop run zero
  times, so `init` does nothing; the model's empty list has the same
  effect. Extra enumerable properties that `for…in` would visit on the
  array are not modelled either.
- Numbers are integers. NaN, `-0` and fractions are not modelled.
- `JsValues.ToStr`: a number is always printed in plain decimal digits.
  JavaScript prints numbers of 10^21 and above in exponent form (`1e+21`).
  Integers above 2^53 are not exactly representable as JavaScript
  numbers at all. The model covers only the safe integer range faithfully.
- `ObjectAssign.IndexProps`: Dafny strings are sequences of Unicode scalar
  values, while JavaScript strings are sequences of UTF-16 code units. For
  a string with a character outside the Basic Multilingual Plane, `for…in`
  visits one key per code unit, so it yields two keys holding lone
  surrogates. The model yields one key per character. The two agree on
  strings made of Basic Multilingual Plane characters only.
- Inherited properties are not modelled. A property read on a primitive
  other than null or undefined gives undefined. The keys read here
  (`audio…`, `sceneScript`) are never a string index or `length`.
- A property written on a truthy primitive node in `saveAudio` is dropped,
  as in sloppy mode. Strict mode would throw a TypeError.
- Function values carry no properties in this model. A write onto a
  function node is dropped, and a read from one gives undefined. In
  JavaScript a function is an object and would keep the write.
- String conversion of an object is always `[object Object]`, with no
  `toString` override. A function converts to its name, not its source
  text.
- `ObjectAssign.Assign`: a primitive target is treated as a wrapper with no
  own properties. The read-only index properties of a `String` wrapper,
  whose overwrite throws in strict mode, are not modelled. Symbol keys that
  the native `Object.assign` also copies are not modelled either.
- `JsValues.ReadProp`: the TypeError message for reading from null or
  undefined is the engine's, not taken from this file.
