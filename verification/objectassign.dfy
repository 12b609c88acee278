/** The `Object.assign` polyfill installed when the runtime lacks one:
    every non-null source contributes its own enumerable keys, sources are
    applied left to right, and a later write overwrites an earlier one.
 */
module ObjectAssign {
  import opened JsValues

  const NullTargetMessage := "Cannot convert undefined or null to object"

  /** The decimal names of the indices below `n`. */
  function IndexKeys(n: nat): set<string> {
    set i | 0 <= i < n :: NatToString(i)
  }

  lemma IndexKeysStep(n: nat)
    ensures IndexKeys(n + 1) == IndexKeys(n) + {NatToString(n)}
  {
  }

  /** Keys `"0"`, `"1"`, ... of a string, each mapped to its one-character
      string: what `for…in` with `hasOwnProperty` sees on a string source. */
  function IndexProps(s: string): (r: Props)
    ensures r.Keys == IndexKeys(|s|)
    ensures forall i :: 0 <= i < |s| ==> r[NatToString(i)] == Str([s[i]])
    decreases |s|
  {
    if s == [] then map[]
    else
      var last := |s| - 1;
      var init := IndexProps(s[..last]);
      IndexKeysStep(last);
      IndexPropsStep(s, init);
      init[NatToString(last) := Str([s[last]])]
  }

  lemma IndexPropsStep(s: string, init: Props)
    requires |s| > 0
    requires init.Keys == IndexKeys(|s| - 1)
    requires forall i :: 0 <= i < |s| - 1 ==> init[NatToString(i)] == Str([s[i]])
    ensures var r := init[NatToString(|s| - 1) := Str([s[|s| - 1]])];
            forall i :: 0 <= i < |s| ==> r[NatToString(i)] == Str([s[i]])
  {
    var last := |s| - 1;
    forall i | 0 <= i < last
      ensures NatToString(i) != NatToString(last)
    {
      if NatToString(i) == NatToString(last) {
        NatToStringInjective(i, last);
      }
    }
  }

  /** Own enumerable properties of a source value. */
  function OwnProps(v: Value): Props {
    match v
    case Obj(m) => m
    case Str(s) => IndexProps(s)
    case _ => map[]
  }

  /** Whether copying `src` writes key `k`: non-null sources only. */
  predicate Writes(src: Value, k: string) {
    !Nullish(src) && k in OwnProps(src)
  }

  /** No source at an index in [from, |sources|) writes `k`. */
  predicate NoLaterWrite(sources: seq<Value>, from: nat, k: string) {
    forall j :: from <= j < |sources| ==> !Writes(sources[j], k)
  }

  /** The outer loop of the polyfill, applied to the target's own
      properties `to`.  Its contract is the declarative reading of the
      loop: a key is present iff the target had it or some source writes
      it, and its value comes from the LAST source that writes it. */
  function CopyAll(to: Props, sources: seq<Value>): (r: Props)
    ensures forall k :: k in r <==> k in to || exists j :: 0 <= j < |sources| && Writes(sources[j], k)
    ensures forall k, j :: 0 <= j < |sources| && Writes(sources[j], k) && NoLaterWrite(sources, j + 1, k)
                      ==> k in r && r[k] == OwnProps(sources[j])[k]
    ensures forall k :: k in to && NoLaterWrite(sources, 0, k) ==> k in r && r[k] == to[k]
    decreases |sources|
  {
    if sources == [] then to
    else
      var src := sources[0];
      var next := if Nullish(src) then to else to + OwnProps(src);
      var r := CopyAll(next, sources[1..]);
      assert forall j :: 1 <= j < |sources| ==> sources[j] == sources[1..][j - 1];
      r
  }

  /** `Object.assign(target, ...sources)`: the own properties of the
      returned object, or the TypeError thrown for a null or undefined
      target.  A primitive target is boxed into a wrapper that starts with
      no own properties. */
  function Assign(target: Value, sources: seq<Value>): (r: Result<Props>)
    ensures r.Err? <==> Nullish(target)
    ensures r.Err? ==> r.error == TypeError(NullTargetMessage)
    ensures target.Obj? ==> r.Ok? && target.props.Keys <= r.value.Keys
  {
    if Nullish(target) then Err(TypeError(NullTargetMessage))
    else
      var start := if target.Obj? then target.props else map[];
      Ok(CopyAll(start, sources))
  }

  /** With one object source, as in the method injection: every key of the
      source is copied with the source's value, and every other key of the
      target keeps its value. */
  lemma AssignOneObject(target: Props, source: Props)
    ensures Assign(Obj(target), [Obj(source)]).Ok?
    ensures var r := Assign(Obj(target), [Obj(source)]).value;
            && r.Keys == target.Keys + source.Keys
            && (forall k :: k in source ==> r[k] == source[k])
            && (forall k :: k in target && k !in source ==> r[k] == target[k])
  {
  }

  /** Null and undefined sources are skipped: dropping them does not change
      the result. */
  lemma {:induction false} NullSourcesSkipped(to: Props, sources: seq<Value>, i: nat)
    requires i < |sources| && Nullish(sources[i])
    ensures CopyAll(to, sources) == CopyAll(to, sources[..i] + sources[i + 1..])
    decreases |sources|
  {
    var rest := sources[..i] + sources[i + 1..];
    if i == 0 {
      assert rest == sources[1..];
    } else {
      var src := sources[0];
      var next := if Nullish(src) then to else to + OwnProps(src);
      NullSourcesSkipped(next, sources[1..], i - 1);
      assert sources[1..][..i - 1] + sources[1..][i..] == rest[1..];
      assert rest[0] == src;
    }
  }
}
