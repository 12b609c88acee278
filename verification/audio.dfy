/** The audio-key store: `saveAudio` writes a URL onto a node under a key
    derived from the logical name, `playAudio` reads it back and hands it
    to the audio engine, `playAudioPromise` turns the "not found" sentinel
    into a rejection.

    `capitalize` (from a string utility library) and the engine's `play`
    are parameters: the model fixes nothing about them beyond being
    functions.  `self` is the component the helper was copied onto; the
    `node` argument defaults to it when undefined.
 */
module Audio {
  import opened JsValues

  const KeyPrefix := "audio"
  const NotFoundSuffix := " not found!"

  /** The property that holds the URL of logical audio `name`. */
  function AudioKey(capitalize: string -> string, name: string): (k: string)
    ensures |k| >= |KeyPrefix| && k[..|KeyPrefix|] == KeyPrefix
    ensures k[|KeyPrefix|..] == capitalize(name)
  {
    KeyPrefix + capitalize(name)
  }

  /** The value found under `key` on a node: own properties of an object,
      undefined on any other value. */
  function Stored(node: Value, key: string): Value {
    if node.Obj? then Get(node.props, key) else Undefined
  }

  /** What `playAudio` returned: the sentinel when nothing playable was
      stored, otherwise the URL handed to the engine and the engine's id. */
  datatype Playback = NotFound | Started(url: Value, id: int) {
    /** The number `playAudio` returns. */
    function Id(): int {
      match this
      case NotFound => -1
      case Started(_, id) => id
    }
  }

  /** What `playAudioPromise` returned: a rejected promise, or one that
      waits for the engine's finish callback of clip `id`. */
  datatype AudioPromise = Rejected(reason: string) | AwaitingFinish(id: int)

  /** `saveAudio(name, url, node = this)`: the resolved node as it is after
      the call.  A falsy node is left alone; a property written on a
      non-object value is dropped. */
  function SaveAudio(self: Props, capitalize: string -> string, name: string, url: Value, node: Value)
    : (r: Value)
    ensures var target := OrDefault(node, Obj(self));
            !target.Obj? ==> r == target
    ensures var target := OrDefault(node, Obj(self));
            var key := AudioKey(capitalize, name);
            target.Obj? ==> && r.Obj?
                            && r.props.Keys == target.props.Keys + {key}
                            && r.props[key] == url
                            && (forall k :: k in target.props && k != key ==> r.props[k] == target.props[k])
  {
    var target := OrDefault(node, Obj(self));
    if !Truthy(target) then target
    else
      match target
      case Obj(m) => Obj(m[AudioKey(capitalize, name) := url])
      case _ => target
  }

  /** `playAudio(name, node = this)`: throws when the node is null; returns
      the sentinel when the stored value is missing or falsy; otherwise
      plays exactly the stored value. */
  function PlayAudio(self: Props, capitalize: string -> string, play: Value -> int, name: string, node: Value)
    : (r: Result<Playback>)
    ensures r.Err? <==> node.Null?
    ensures var stored := Stored(OrDefault(node, Obj(self)), AudioKey(capitalize, name));
            r.Ok? ==> && (r.value.NotFound? <==> !Truthy(stored))
                      && (r.value.Started? ==> r.value.url == stored && r.value.id == play(stored))
  {
    var target := OrDefault(node, Obj(self));
    var url :- ReadProp(target, AudioKey(capitalize, name));
    if !Truthy(url) then Ok(NotFound) else Ok(Started(url, play(url)))
  }

  /** `playAudioPromise(name, node = this)`: rejects exactly when
      `playAudio` returned a negative id, with the message
      `<name> not found!`; otherwise waits on the id it got. */
  function PlayAudioPromise(self: Props, capitalize: string -> string, play: Value -> int, name: string, node: Value)
    : (r: Result<AudioPromise>)
    ensures r.Err? <==> PlayAudio(self, capitalize, play, name, node).Err?
    ensures r.Ok? ==> var id := PlayAudio(self, capitalize, play, name, node).value.Id();
                      && (r.value.Rejected? <==> id < 0)
                      && (r.value.Rejected? ==> r.value.reason == name + NotFoundSuffix)
                      && (r.value.AwaitingFinish? ==> r.value.id == id)
  {
    var played :- PlayAudio(self, capitalize, play, name, node);
    var id := played.Id();
    if id < 0 then Ok(Rejected(name + NotFoundSuffix)) else Ok(AwaitingFinish(id))
  }

  // ---------------------------------------------------------------------
  // Properties

  /** Round trip on an explicit node: after `saveAudio(name, url, node)`
      with a truthy url, `playAudio(name, node)` on the updated node plays
      exactly `url`, and its result is not the sentinel. */
  lemma SaveThenPlay(self: Props, other: Props, capitalize: string -> string, play: Value -> int,
                     name: string, url: Value, node: Props)
    requires Truthy(url)
    ensures var saved := SaveAudio(self, capitalize, name, url, Obj(node));
            PlayAudio(other, capitalize, play, name, saved) == Ok(Started(url, play(url)))
  {
  }

  /** Round trip on the component itself (the default node). */
  lemma SaveThenPlayOnSelf(self: Props, capitalize: string -> string, play: Value -> int,
                           name: string, url: Value)
    requires Truthy(url)
    ensures SaveAudio(self, capitalize, name, url, Undefined).Obj?
    ensures var updated := SaveAudio(self, capitalize, name, url, Undefined).props;
            PlayAudio(updated, capitalize, play, name, Undefined) == Ok(Started(url, play(url)))
  {
  }

  /** With an engine that only returns non-negative ids, `playAudio`
      returns -1 exactly when the value under the derived key is absent or
      falsy. */
  lemma SentinelIffNothingStored(self: Props, capitalize: string -> string, play: Value -> int,
                                 name: string, node: Value)
    requires forall v :: play(v) >= 0
    requires !node.Null?
    ensures var stored := Stored(OrDefault(node, Obj(self)), AudioKey(capitalize, name));
            PlayAudio(self, capitalize, play, name, node).value.Id() == -1 <==> !Truthy(stored)
  {
  }

  /** With such an engine, the promise is rejected exactly when nothing
      playable was saved under the name. */
  lemma PromiseRejectsIffNothingStored(self: Props, capitalize: string -> string, play: Value -> int,
                                       name: string, node: Value)
    requires forall v :: play(v) >= 0
    requires !node.Null?
    ensures var stored := Stored(OrDefault(node, Obj(self)), AudioKey(capitalize, name));
            PlayAudioPromise(self, capitalize, play, name, node).value.Rejected? <==> !Truthy(stored)
  {
  }

  /** Saving under one name leaves every name with a different derived key
      playing what it played before. */
  lemma SaveLeavesOtherNames(capitalize: string -> string, play: Value -> int,
                             name: string, other: string, url: Value, node: Props)
    requires AudioKey(capitalize, name) != AudioKey(capitalize, other)
    ensures var saved := SaveAudio(node, capitalize, name, url, Obj(node));
            PlayAudio(map[], capitalize, play, other, saved) == PlayAudio(map[], capitalize, play, other, Obj(node))
  {
  }

  /** Names that capitalize alike share one slot: the later save wins. */
  lemma SameKeyLaterSaveWins(capitalize: string -> string, play: Value -> int,
                             first: string, second: string, u1: Value, u2: Value, node: Props)
    requires capitalize(first) == capitalize(second)
    requires Truthy(u2)
    ensures var once := SaveAudio(map[], capitalize, first, u1, Obj(node));
            var twice := SaveAudio(map[], capitalize, second, u2, once);
            PlayAudio(map[], capitalize, play, first, twice) == Ok(Started(u2, play(u2)))
  {
  }
}
