/**
 * The three leaf transforms of the engine (`renameKey`, `removeKeys`,
 * `newNode`). In the source each builds a closure `[Key: Any] -> [Key: Any]`
 * that `performOperation` later applies; here the closure is the value of
 * `Transform` and `Apply` runs it.
 */
module Transforms {
  import opened JsonValues

  /**
   * `renameKey(from: oldKey, to: newKey)`: when `oldKey` is present its value
   * moves to `newKey` (overwriting whatever `newKey` held); otherwise the
   * object is returned as it is.
   */
  function RenameKey(oldKey: string, newKey: string, d: Dict): (r: Dict)
    ensures oldKey in d ==> newKey in r && r[newKey] == d[oldKey]
    ensures oldKey in d && oldKey != newKey ==> oldKey !in r
    ensures oldKey in d && oldKey == newKey ==> r == d
    ensures oldKey !in d ==> r == d
    ensures forall k | k != oldKey && k != newKey :: (k in r <==> k in d) && (k in r ==> r[k] == d[k])
  {
    if oldKey in d then (d - {oldKey})[newKey := d[oldKey]] else d
  }

  /**
   * `newNode(value, for: key)`: `key` is bound to `value` whether or not it
   * was present before (last write wins); no other key changes.
   */
  function NewNode(value: Json, key: string, d: Dict): (r: Dict)
    ensures key in r && r[key] == value
    ensures r.Keys == d.Keys + {key}
    ensures forall k | k in d && k != key :: r[k] == d[k]
  {
    d[key := value]
  }

  /** The object `removeKeys(keys)` produces: `d` without any of `keys`. */
  function Without(d: Dict, keys: seq<string>): (r: Dict)
    ensures forall k :: k in r <==> k in d && k !in keys
    ensures forall k | k in r :: r[k] == d[k]
  {
    map k | k in d && k !in keys :: d[k]
  }

  /**
   * `removeKeys(keys)`: removes the listed keys one after the other from a
   * copy of `d`; a listed key that is absent is skipped.
   */
  method RemoveKeys(keys: seq<string>, d: Dict) returns (r: Dict)
    ensures r == Without(d, keys)
  {
    r := d;
    for i := 0 to |keys|
      invariant r == Without(d, keys[..i])
    {
      assert keys[..i + 1] == keys[..i] + [keys[i]];
      r := r - {keys[i]};
    }
    assert keys[..|keys|] == keys;
  }

  /** Removing the same keys a second time changes nothing. */
  lemma WithoutIdempotent(d: Dict, keys: seq<string>)
    ensures Without(Without(d, keys), keys) == Without(d, keys)
  {
  }

  /** A leaf transform, as the closure the source passes to `performOperation`. */
  datatype Transform =
    | RenameOp(oldKey: string, newKey: string)
    | RemoveOp(keys: seq<string>)
    | NewNodeOp(value: Json, key: string)

  /** The keys a transform may touch. */
  function Touched(t: Transform): set<string>
  {
    match t
    case RenameOp(o, n) => {o, n}
    case RemoveOp(ks) => set k | k in ks
    case NewNodeOp(_, k) => {k}
  }

  /** What running the closure `t` on `d` yields. */
  function Applied(t: Transform, d: Dict): Dict
  {
    match t
    case RenameOp(o, n) => RenameKey(o, n, d)
    case RemoveOp(ks) => Without(d, ks)
    case NewNodeOp(v, k) => NewNode(v, k, d)
  }

  /** Runs the closure `t` on `d`. */
  method Apply(t: Transform, d: Dict) returns (r: Dict)
    ensures r == Applied(t, d)
  {
    match t
    case RenameOp(o, n) => r := RenameKey(o, n, d);
    case RemoveOp(ks) => r := RemoveKeys(ks, d);
    case NewNodeOp(v, k) => r := NewNode(v, k, d);
  }

  /** Every transform leaves the keys it does not name exactly as they were. */
  lemma AppliedFrame(t: Transform, d: Dict, k: string)
    requires k !in Touched(t)
    ensures k in Applied(t, d) <==> k in d
    ensures k in d ==> Applied(t, d)[k] == d[k]
  {
  }
}
