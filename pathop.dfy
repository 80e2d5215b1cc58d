/**
 * `performOperation(on:at:with:)`: descend a key path through nested objects,
 * transform what is found, and rebuild the ancestors.
 *
 * The source is modelled as written, with its two quirks:
 *  - the descent applies the transform to EVERY nested object it reaches
 *    (not only the deepest) and keeps descending into the transformed copy;
 *  - a key that does not lead to an object is skipped, not a stop: the next
 *    key is looked up in the same object, and the rebuild then pairs the
 *    shorter queue with the LAST keys of the path.
 */
module PathOperation {
  import opened JsonValues
  import opened Transforms

  /** One turn of the descent loop: follow `key` from the last queued object. */
  function DescendStep(queue: seq<Dict>, key: string, t: Transform): (r: seq<Dict>)
    requires |queue| > 0
  {
    var current := queue[|queue| - 1];
    if key in current && current[key].JObj? then queue + [Applied(t, current[key].fields)] else queue
  }

  /** The queue after the descent loop has consumed `keys`. */
  function Descend(queue: seq<Dict>, keys: seq<string>, t: Transform): (r: seq<Dict>)
    requires |queue| > 0
    ensures |queue| <= |r| <= |queue| + |keys|
    ensures r[..|queue|] == queue
    decreases |keys|
  {
    if keys == [] then queue else Descend(DescendStep(queue, keys[0], t), keys[1..], t)
  }

  /**
   * The rebuild loop: keys are taken from the end of `keys`; each pops the
   * last queued object and stores the object built so far under that key.
   * Once the queue is empty the remaining keys do nothing.
   */
  function Rebuild(last: Dict, queue: seq<Dict>, keys: seq<string>): Dict
    decreases |keys|
  {
    if keys == [] || queue == [] then last
    else Rebuild(queue[|queue| - 1][keys[|keys| - 1] := JObj(last)], queue[..|queue| - 1], keys[..|keys| - 1])
  }

  /** The object `performOperation` returns. */
  function PerformOp(d: Dict, path: seq<string>, t: Transform): Dict
  {
    if path == [] then Applied(t, d)
    else
      var queue := Descend([d], path, t);
      Rebuild(queue[|queue| - 1], queue[..|queue| - 1], path)
  }

  /** The descent from key `i` on is one step at `path[i]`, then the descent from key `i + 1`. */
  lemma DescendAt(queue: seq<Dict>, path: seq<string>, i: int, t: Transform)
    requires |queue| > 0 && 0 <= i < |path|
    ensures Descend(queue, path[i..], t) == Descend(DescendStep(queue, path[i], t), path[i + 1..], t)
  {
    assert path[i..][1..] == path[i + 1..];
  }

  /** The rebuild over the first `j` keys takes key `j - 1` first. */
  lemma RebuildAt(last: Dict, queue: seq<Dict>, path: seq<string>, j: int)
    requires 0 < j <= |path|
    ensures Rebuild(last, queue, path[..j])
         == if queue == [] then last
            else Rebuild(queue[|queue| - 1][path[j - 1] := JObj(last)], queue[..|queue| - 1], path[..j - 1])
  {
    assert path[..j][..j - 1] == path[..j - 1];
  }

  /** The descent loop of `performOperation`: queues `d`, then the transform of each object reached. */
  method DescendLoop(d: Dict, path: seq<string>, t: Transform) returns (queue: seq<Dict>)
    ensures queue == Descend([d], path, t)
  {
    queue := [d];
    for i := 0 to |path|
      invariant |queue| > 0
      invariant Descend(queue, path[i..], t) == Descend([d], path, t)
    {
      DescendAt(queue, path, i, t);
      var current := queue[|queue| - 1];
      if path[i] in current && current[path[i]].JObj? {
        var updated := Apply(t, current[path[i]].fields);
        queue := queue + [updated];
      }
    }
    assert path[|path|..] == [];
  }

  /**
   * The rebuild loop of `performOperation`: pops the last queued object as
   * the result, then, for the keys from last to first, stores the result
   * under the key in the next popped object, while the queue lasts.
   */
  method RebuildLoop(queue: seq<Dict>, path: seq<string>) returns (r: Dict)
    requires |queue| > 0
    ensures r == Rebuild(queue[|queue| - 1], queue[..|queue| - 1], path)
  {
    var last := queue[|queue| - 1];
    var rest := queue[..|queue| - 1];
    var j := |path|;
    assert path[..j] == path;
    while j > 0
      invariant 0 <= j <= |path|
      invariant Rebuild(last, rest, path[..j]) == Rebuild(queue[|queue| - 1], queue[..|queue| - 1], path)
    {
      RebuildAt(last, rest, path, j);
      j := j - 1;
      if |rest| > 0 {
        var node := rest[|rest| - 1];
        rest := rest[..|rest| - 1];
        node := node[path[j] := JObj(last)];
        last := node;
      }
    }
    assert path[..0] == [];
    r := last;
  }

  /** `performOperation`: the transform itself on an empty path, else the descent and the rebuild. */
  method PerformOperation(d: Dict, path: seq<string>, t: Transform) returns (r: Dict)
    ensures r == PerformOp(d, path, t)
    ensures path == [] ==> r == Applied(t, d)
  {
    if path == [] {
      r := Apply(t, d);
      return;
    }
    var queue := DescendLoop(d, path, t);
    r := RebuildLoop(queue, path);
  }

  // ---- No object anywhere on the path: the input comes back unchanged ----

  /** No key of `keys` leads from `d` to an object. */
  predicate NoObjectOn(d: Dict, keys: seq<string>)
  {
    forall i :: 0 <= i < |keys| ==> !(keys[i] in d && d[keys[i]].JObj?)
  }

  lemma {:induction false} DescendMisses(queue: seq<Dict>, keys: seq<string>, t: Transform)
    requires |queue| > 0 && NoObjectOn(queue[|queue| - 1], keys)
    ensures Descend(queue, keys, t) == queue
    decreases |keys|
  {
    if keys != [] {
      assert DescendStep(queue, keys[0], t) == queue;
      assert NoObjectOn(queue[|queue| - 1], keys[1..]) by {
        forall i | 0 <= i < |keys| - 1 ensures keys[1..][i] == keys[i + 1] { }
      }
      DescendMisses(queue, keys[1..], t);
    }
  }

  /**
   * When no key of a non-empty path leads to an object, the input is
   * returned unchanged. For a one-key path this is "the first key does not
   * map to an object"; for a longer path every key must miss, because the
   * source goes on trying the later keys at the same level.
   */
  lemma PerformOpUnchanged(d: Dict, path: seq<string>, t: Transform)
    requires path != [] && NoObjectOn(d, path)
    ensures PerformOp(d, path, t) == d
  {
    DescendMisses([d], path, t);
  }

  /** With fewer queued objects than keys, the first key is never reached by the rebuild. */
  lemma {:induction false} RebuildSkipsFirst(last: Dict, queue: seq<Dict>, keys: seq<string>)
    requires |queue| < |keys|
    ensures Rebuild(last, queue, keys) == Rebuild(last, queue, keys[1..])
    decreases |keys|
  {
    if queue != [] {
      var n := |keys|;
      assert keys[1..][n - 2] == keys[n - 1];
      assert keys[1..][..n - 2] == keys[..n - 1][1..];
      RebuildSkipsFirst(queue[|queue| - 1][keys[n - 1] := JObj(last)], queue[..|queue| - 1], keys[..n - 1]);
    }
  }

  /**
   * A first key that does not lead to an object is skipped: on a path of two
   * or more keys the result is that of the path without it.
   */
  lemma PerformOpFirstMiss(d: Dict, path: seq<string>, t: Transform)
    requires |path| >= 2 && !(path[0] in d && d[path[0]].JObj?)
    ensures PerformOp(d, path, t) == PerformOp(d, path[1..], t)
  {
    assert DescendStep([d], path[0], t) == [d];
    var queue := Descend([d], path[1..], t);
    assert Descend([d], path, t) == queue;
    RebuildSkipsFirst(queue[|queue| - 1], queue[..|queue| - 1], path);
  }

  /**
   * When the queue lasts no longer than the keys, the rebuild ends by storing
   * into the first queued object: its keys all survive, and those off the
   * path keep their values.
   */
  lemma {:induction false} RebuildBase(last: Dict, queue: seq<Dict>, keys: seq<string>)
    requires 0 < |queue| <= |keys|
    ensures queue[0].Keys <= Rebuild(last, queue, keys).Keys
    ensures forall k | k in queue[0] && k !in keys :: Rebuild(last, queue, keys)[k] == queue[0][k]
    decreases |keys|
  {
    var n := |keys|;
    var next := queue[|queue| - 1][keys[n - 1] := JObj(last)];
    if |queue| > 1 {
      RebuildBase(next, queue[..|queue| - 1], keys[..n - 1]);
      assert forall k | k !in keys :: k !in keys[..n - 1];
    }
  }

  /**
   * On a non-empty path every key of the input survives, and every key that
   * is not on the path keeps its value: the input object itself is never
   * transformed, only stored into along the path.
   */
  lemma PerformOpTopFrame(d: Dict, path: seq<string>, t: Transform)
    requires path != []
    ensures d.Keys <= PerformOp(d, path, t).Keys
    ensures forall k | k in d && k !in path :: PerformOp(d, path, t)[k] == d[k]
  {
    var queue := Descend([d], path, t);
    assert queue[..1] == [d];
    if |queue| > 1 {
      RebuildBase(queue[|queue| - 1], queue[..|queue| - 1], path);
    }
  }

  /** A one-key path to an object replaces that key by the transformed child and nothing else. */
  lemma PerformOpSingleKey(d: Dict, k: string, t: Transform)
    requires k in d && d[k].JObj?
    ensures PerformOp(d, [k], t) == d[k := JObj(Applied(t, d[k].fields))]
    ensures forall j | j in d && j != k :: PerformOp(d, [k], t)[j] == d[j]
  {
    var child := Applied(t, d[k].fields);
    assert DescendStep([d], k, t) == [d, child];
    assert Descend([d], [k], t) == Descend([d, child], [], t);
    assert [k][..0] == [];
    assert Rebuild(child, [d], [k]) == Rebuild(d[k := JObj(child)], [], []);
  }

  // ---- A path that resolves all the way ----

  /** Every key of `path` leads to an object, each looked up in the transformed previous one. */
  predicate Resolves(d: Dict, path: seq<string>, t: Transform)
    decreases |path|
  {
    path == [] || (path[0] in d && d[path[0]].JObj? && Resolves(Applied(t, d[path[0]].fields), path[1..], t))
  }

  /**
   * What `performOperation` does on a resolving path: every object on the
   * path below the root is transformed, and each is stored back under its own key.
   */
  function ApplyAlong(d: Dict, path: seq<string>, t: Transform): Dict
    requires Resolves(d, path, t)
    decreases |path|
  {
    if path == [] then d
    else d[path[0] := JObj(ApplyAlong(Applied(t, d[path[0]].fields), path[1..], t))]
  }

  /** The objects the descent queues along a resolving path, `d` first. */
  function Chain(d: Dict, path: seq<string>, t: Transform): (r: seq<Dict>)
    requires Resolves(d, path, t)
    ensures |r| == |path| + 1 && r[0] == d
    decreases |path|
  {
    if path == [] then [d] else [d] + Chain(Applied(t, d[path[0]].fields), path[1..], t)
  }

  /** Following a key to an object from the last queued object queues its transform. */
  lemma StepOnto(queue: seq<Dict>, x: Dict, k: string, t: Transform)
    requires k in x && x[k].JObj?
    ensures DescendStep(queue + [x], k, t) == (queue + [x]) + [Applied(t, x[k].fields)]
  {
    assert (queue + [x])[|queue + [x]| - 1] == x;
  }

  lemma AppendAssoc(a: seq<Dict>, b: seq<Dict>, c: seq<Dict>)
    ensures (a + b) + c == a + (b + c)
  {
  }

  lemma {:induction false} DescendResolves(queue: seq<Dict>, x: Dict, path: seq<string>, t: Transform)
    requires Resolves(x, path, t)
    ensures Descend(queue + [x], path, t) == queue + Chain(x, path, t)
    decreases |path|
  {
    if path != [] {
      var y := Applied(t, x[path[0]].fields);
      StepOnto(queue, x, path[0], t);
      DescendResolves(queue + [x], y, path[1..], t);
      AppendAssoc(queue, [x], Chain(y, path[1..], t));
    }
  }

  /** The rebuild read from the front: `queue[i]` receives the result under `keys[i]`. */
  function RebuildFront(last: Dict, queue: seq<Dict>, keys: seq<string>): Dict
    requires |queue| == |keys|
    decreases |keys|
  {
    if keys == [] then last else queue[0][keys[0] := JObj(RebuildFront(last, queue[1..], keys[1..]))]
  }

  lemma {:induction false} RebuildFrontPeel(last: Dict, queue: seq<Dict>, keys: seq<string>)
    requires |queue| == |keys| > 0
    ensures RebuildFront(last, queue, keys)
         == RebuildFront(queue[|queue| - 1][keys[|keys| - 1] := JObj(last)], queue[..|queue| - 1], keys[..|keys| - 1])
    decreases |keys|
  {
    if |keys| > 1 {
      RebuildFrontPeel(last, queue[1..], keys[1..]);
      assert queue[1..][..|queue| - 2] == queue[..|queue| - 1][1..];
      assert keys[1..][..|keys| - 2] == keys[..|keys| - 1][1..];
    }
  }

  lemma {:induction false} RebuildMatchesFront(last: Dict, queue: seq<Dict>, keys: seq<string>)
    requires |queue| == |keys|
    ensures Rebuild(last, queue, keys) == RebuildFront(last, queue, keys)
    decreases |keys|
  {
    if keys != [] {
      RebuildFrontPeel(last, queue, keys);
      RebuildMatchesFront(queue[|queue| - 1][keys[|keys| - 1] := JObj(last)], queue[..|queue| - 1], keys[..|keys| - 1]);
    }
  }

  lemma {:induction false} RebuildFrontChain(d: Dict, path: seq<string>, t: Transform)
    requires Resolves(d, path, t)
    ensures var c := Chain(d, path, t); RebuildFront(c[|path|], c[..|path|], path) == ApplyAlong(d, path, t)
    decreases |path|
  {
    if path != [] {
      var y := Applied(t, d[path[0]].fields);
      var c := Chain(d, path, t);
      var c' := Chain(y, path[1..], t);
      assert c == [d] + c';
      assert c[..|path|][1..] == c'[..|path| - 1];
      RebuildFrontChain(y, path[1..], t);
    }
  }

  /**
   * On a path that resolves, `performOperation` applies the transform at
   * every object along the path and rebuilds each ancestor under its own key.
   */
  lemma PerformOpAlong(d: Dict, path: seq<string>, t: Transform)
    requires path != [] && Resolves(d, path, t)
    ensures PerformOp(d, path, t) == ApplyAlong(d, path, t)
  {
    DescendFromRoot(d, path, t);
    var c := Chain(d, path, t);
    RebuildMatchesFront(c[|path|], c[..|path|], path);
    RebuildFrontChain(d, path, t);
  }

  /** From the root, the descent along a resolving path queues exactly its chain of objects. */
  lemma DescendFromRoot(d: Dict, path: seq<string>, t: Transform)
    requires Resolves(d, path, t)
    ensures Descend([d], path, t) == Chain(d, path, t)
  {
    DescendResolves([], d, path, t);
    assert [] + [d] == [d];
    assert [] + Chain(d, path, t) == Chain(d, path, t);
  }

  // ---- The quirks, on concrete inputs ----

  /** On `{"a":{"b":{}}}` at path `a.b`, `newNode(1, for: "x")` adds `x` at BOTH levels. */
  lemma TransformAtEveryLevelExample()
    ensures PerformOp(map["a" := JObj(map["b" := JObj(map[])])], ["a", "b"], NewNodeOp(JNum(1), "x"))
         == map["a" := JObj(map["b" := JObj(map["x" := JNum(1)]), "x" := JNum(1)])]
  {
    var d := map["a" := JObj(map["b" := JObj(map[])])];
    var t := NewNodeOp(JNum(1), "x");
    assert Resolves(map["b" := JObj(map[]), "x" := JNum(1)], ["b"], t) by {
      assert ["b"][1..] == [];
    }
    assert Resolves(d, ["a", "b"], t) by {
      assert ["a", "b"][1..] == ["b"];
    }
    PerformOpAlong(d, ["a", "b"], t);
    var inner := map["b" := JObj(map[]), "x" := JNum(1)];
    assert Applied(t, map[]) == map["x" := JNum(1)];
    assert ApplyAlong(inner, ["b"], t) == inner["b" := JObj(ApplyAlong(map["x" := JNum(1)], [], t))] by {
      assert ["b"][1..] == [];
    }
    assert Applied(t, d["a"].fields) == inner;
    assert ApplyAlong(d, ["a", "b"], t) == d["a" := JObj(ApplyAlong(inner, ["b"], t))] by {
      assert ["a", "b"][1..] == ["b"];
    }
    assert inner["b" := JObj(map["x" := JNum(1)])] == map["b" := JObj(map["x" := JNum(1)]), "x" := JNum(1)];
  }

  /**
   * On `{"a":{}}` at path `a.b` the descent stops after `a`; the rebuild then
   * stores the transformed `a` object under `b` and leaves `a` as it was.
   */
  lemma RebuildPairsWrongKeyExample()
    ensures PerformOp(map["a" := JObj(map[])], ["a", "b"], NewNodeOp(JNum(1), "x"))
         == map["a" := JObj(map[]), "b" := JObj(map["x" := JNum(1)])]
  {
    var d := map["a" := JObj(map[])];
    var t := NewNodeOp(JNum(1), "x");
    var child := map["x" := JNum(1)];
    assert DescendStep([d], "a", t) == [d, child];
    assert DescendStep([d, child], "b", t) == [d, child];
    assert ["a", "b"][1..] == ["b"];
    assert ["b"][1..] == [];
    assert Descend([d], ["a", "b"], t) == [d, child];
    assert ["a", "b"][..1] == ["a"];
  }

  /**
   * On `{"b":{}}` at path `a.b` the first key is absent, yet the object under
   * `b` is still transformed: the descent goes on with the next key.
   */
  lemma DescentContinuesAfterMissExample()
    ensures PerformOp(map["b" := JObj(map[])], ["a", "b"], NewNodeOp(JNum(1), "x"))
         == map["b" := JObj(map["x" := JNum(1)])]
  {
    var d := map["b" := JObj(map[])];
    var t := NewNodeOp(JNum(1), "x");
    var child := map["x" := JNum(1)];
    assert DescendStep([d], "a", t) == [d];
    assert DescendStep([d], "b", t) == [d, child];
    assert ["a", "b"][1..] == ["b"];
    assert ["b"][1..] == [];
    assert Descend([d], ["a", "b"], t) == [d, child];
    assert ["a", "b"][..1] == ["a"];
  }
}
