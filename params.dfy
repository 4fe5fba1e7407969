/**
 * The required-parameter check shared by the endpoints (`validateRequiredParams`)
 * and the argument shuffle of the simple request helpers.
 */
module Params {
  import opened Js

  const OptionsNotSet: string := "Options not set."

  /** `util.format("%s '%s' not set.", f, name)` */
  function MissingMessage(f: string, name: string): string {
    f + " '" + name + "' not set."
  }

  /** The keys of a string or array: the decimal indices below its length. */
  function IndexKeys(n: nat): set<string> {
    set i | 0 <= i < n :: NatToDecimal(i)
  }

  /** `Object.keys(v)`, as a set, for a value other than undefined and null. */
  function Keys(heap: Heap, v: Value): set<string>
    requires Allocated(heap, v) && !Nullish(v)
  {
    match v
    case Ref(a) => heap[a].Keys
    case Obj(m) => m.Keys
    case Str(s) => IndexKeys(|s|)
    case Arr(items) => IndexKeys(|items|)
    case _ => {}
  }

  /**
   * The position of the first required name that is not a key, if any: the
   * specification of the validation loop.
   */
  function FirstMissing(keys: set<string>, required: seq<string>): (r: Option<nat>)
    ensures r.None? <==> forall j :: 0 <= j < |required| ==> required[j] in keys
    ensures r.Some? ==> r.value < |required| && required[r.value] !in keys
    ensures r.Some? ==> forall j :: 0 <= j < r.value ==> required[j] in keys
  {
    if required == [] then None
    else if required[0] !in keys then Some(0)
    else
      match FirstMissing(keys, required[1..])
      case None => None
      case Some(i) => Some(i + 1)
  }

  /**
   * `if (options != null && callback == null) { callback = options; options = null; }`:
   * the pair (options, callback) the simple helpers go on with.
   */
  function Shuffle(options: Value, callback: Value): (r: (Value, Value))
    ensures !Nullish(options) && Nullish(callback) ==> r == (Null, options)
    ensures Nullish(options) || !Nullish(callback) ==> r == (options, callback)
  {
    if !Nullish(options) && Nullish(callback) then (Null, options) else (options, callback)
  }

  // ---------------------------------------------------------------------------
  // Properties

  /** A name with a character other than a digit is never an index key. */
  lemma NotAnIndexKey(name: string, n: nat)
    requires !AllDigits(name)
    ensures name !in IndexKeys(n)
  {
  }

  /** Presence, not truthiness: a key that maps to a falsy value still counts as set. */
  lemma PresenceNotTruthiness(heap: Heap, a: nat, name: string)
    requires a < |heap| && name in heap[a] && !Truthy(heap[a][name])
    ensures FirstMissing(Keys(heap, Ref(a)), [name]).None?
  {
  }

  /**
   * When the required names are not numerals, only an object passes the check:
   * strings, arrays, numbers, booleans and functions all fail on the first name.
   */
  lemma OnlyObjectsPass(heap: Heap, v: Value, required: seq<string>)
    requires Allocated(heap, v) && !Nullish(v) && !v.Ref? && !v.Obj?
    requires |required| > 0 && !AllDigits(required[0])
    ensures FirstMissing(Keys(heap, v), required) == Some(0)
  {
    assert required[0] !in Keys(heap, v);
  }

  /** The first missing name is reported even when later ones are missing too. */
  lemma {:induction false} FirstMissingIsFirst(keys: set<string>, required: seq<string>, i: nat)
    requires i < |required| && required[i] !in keys
    requires forall j :: 0 <= j < i ==> required[j] in keys
    ensures FirstMissing(keys, required) == Some(i)
  {
    if i > 0 {
      assert required[0] in keys;
      FirstMissingIsFirst(keys, required[1..], i - 1);
    }
  }
}
