/**
 * `parseKeys(for:nodes:path:)`: flattening of a migration-spec object into
 * one `Node` per non-object value found at any depth.
 *
 * Swift dictionaries have no order, so the key loop picks its next key
 * nondeterministically; everything proved about the result holds for every
 * order. The path-trimming step of the source is modelled as written: before
 * each key it pops the last path element when that element is a key of the
 * object being walked. That step restores the path after a nested object has
 * been walked, but it also fires when an object contains the key it is
 * stored under, and then the emitted paths lose an element (see
 * `EchoExample`).
 */
module Flatten {
  import opened JsonValues

  /** A leaf of the spec tree: the object keys above it, its own key and its value. */
  datatype Node = Node(path: seq<string>, key: string, value: Json)

  // ---- Order-independent views of an object's leaves ----

  /** The number of non-object values under the keys `ks` of `m`, counted at any depth. */
  ghost function LeafCountIn(m: Dict, ks: set<string>): nat
    requires ks <= m.Keys
    decreases JObj(m), ks
  {
    if ks == {} then 0
    else
      var k :| k in ks;
      (if m[k].JObj? then LeafCountIn(m[k].fields, m[k].fields.Keys) else 1) + LeafCountIn(m, ks - {k})
  }

  ghost function LeafCount(m: Dict): nat
  {
    LeafCountIn(m, m.Keys)
  }

  /** The leaves contributed by the entry under `k`. */
  ghost function EntryCount(m: Dict, k: string): nat
    requires k in m
  {
    if m[k].JObj? then LeafCount(m[k].fields) else 1
  }

  /**
   * The intended flattening of the keys `ks` of `m` below `path`: every leaf
   * carries the full chain of object keys above it.
   */
  ghost function LeafBagIn(m: Dict, ks: set<string>, path: seq<string>): multiset<Node>
    requires ks <= m.Keys
    decreases JObj(m), ks
  {
    if ks == {} then multiset{}
    else
      var k :| k in ks;
      (if m[k].JObj? then LeafBagIn(m[k].fields, m[k].fields.Keys, path + [k]) else multiset{Node(path, k, m[k])})
      + LeafBagIn(m, ks - {k}, path)
  }

  ghost function LeafBag(m: Dict, path: seq<string>): multiset<Node>
  {
    LeafBagIn(m, m.Keys, path)
  }

  ghost function EntryBag(m: Dict, k: string, path: seq<string>): multiset<Node>
    requires k in m
  {
    if m[k].JObj? then LeafBag(m[k].fields, path + [k]) else multiset{Node(path, k, m[k])}
  }

  /** The count does not depend on which key is taken first. */
  lemma {:induction false} LeafCountInSplit(m: Dict, ks: set<string>, k: string)
    requires ks <= m.Keys && k in ks
    ensures LeafCountIn(m, ks) == EntryCount(m, k) + LeafCountIn(m, ks - {k})
    decreases |ks|
  {
    var j :| j in ks && LeafCountIn(m, ks) == EntryCount(m, j) + LeafCountIn(m, ks - {j});
    if j != k {
      LeafCountInSplit(m, ks - {j}, k);
      LeafCountInSplit(m, ks - {k}, j);
      assert ks - {j} - {k} == ks - {k} - {j};
    }
  }

  /** The intended flattening does not depend on which key is taken first. */
  lemma {:induction false} LeafBagInSplit(m: Dict, ks: set<string>, path: seq<string>, k: string)
    requires ks <= m.Keys && k in ks
    ensures LeafBagIn(m, ks, path) == EntryBag(m, k, path) + LeafBagIn(m, ks - {k}, path)
    decreases |ks|
  {
    var j :| j in ks && LeafBagIn(m, ks, path) == EntryBag(m, j, path) + LeafBagIn(m, ks - {j}, path);
    if j != k {
      LeafBagInSplit(m, ks - {j}, path, k);
      LeafBagInSplit(m, ks - {k}, path, j);
      assert ks - {j} - {k} == ks - {k} - {j};
    }
  }

  /** The key and value of every node, in order: what a node keeps whatever its path. */
  function KVs(s: seq<Node>): seq<(string, Json)>
  {
    seq(|s|, i requires 0 <= i < |s| => (s[i].key, s[i].value))
  }

  lemma KVsAppend(a: seq<Node>, b: seq<Node>)
    ensures KVs(a + b) == KVs(a) + KVs(b)
  {
  }

  /** The key and value of every non-object value under the keys `ks` of `m`, at any depth. */
  ghost function LeafKVIn(m: Dict, ks: set<string>): multiset<(string, Json)>
    requires ks <= m.Keys
    decreases JObj(m), ks
  {
    if ks == {} then multiset{}
    else
      var k :| k in ks;
      (if m[k].JObj? then LeafKVIn(m[k].fields, m[k].fields.Keys) else multiset{(k, m[k])})
      + LeafKVIn(m, ks - {k})
  }

  ghost function LeafKV(m: Dict): multiset<(string, Json)>
  {
    LeafKVIn(m, m.Keys)
  }

  ghost function EntryKV(m: Dict, k: string): multiset<(string, Json)>
    requires k in m
  {
    if m[k].JObj? then LeafKV(m[k].fields) else multiset{(k, m[k])}
  }

  /** The keys and values of the leaves do not depend on which key is taken first. */
  lemma {:induction false} LeafKVInSplit(m: Dict, ks: set<string>, k: string)
    requires ks <= m.Keys && k in ks
    ensures LeafKVIn(m, ks) == EntryKV(m, k) + LeafKVIn(m, ks - {k})
    decreases |ks|
  {
    var j :| j in ks && LeafKVIn(m, ks) == EntryKV(m, j) + LeafKVIn(m, ks - {j});
    if j != k {
      LeafKVInSplit(m, ks - {j}, k);
      LeafKVInSplit(m, ks - {k}, j);
      assert ks - {j} - {k} == ks - {k} - {j};
    }
  }

  /**
   * The pop step never misfires: the last element of `path` is not a key of
   * `m`, and no nested object contains the key it is stored under.
   */
  ghost predicate EchoFree(m: Dict, path: seq<string>)
    decreases JObj(m)
  {
    && (|path| > 0 ==> path[|path| - 1] !in m)
    && forall k | k in m && m[k].JObj? :: EchoFree(m[k].fields, path + [k])
  }

  /** The path after the pop step, taken before each key of `m`. */
  function Popped(path: seq<string>, m: Dict): (r: seq<string>)
    ensures r == path || (|path| > 0 && r == path[..|path| - 1] && path[|path| - 1] in m)
    ensures |path| > 0 && path[|path| - 1] in m ==> r == path[..|path| - 1]
  {
    if |path| > 0 && path[|path| - 1] in m then path[..|path| - 1] else path
  }

  /**
   * On a chain of one-key objects (where the key order is forced) that ends in
   * a non-object value: the single node `parseKeys` emits, pop step included.
   */
  ghost function ChainLeaf(m: Dict, path: seq<string>): Option<Node>
    decreases JObj(m)
  {
    if |m| != 1 then None
    else
      var k :| k in m;
      var p := Popped(path, m);
      if m[k].JObj? then ChainLeaf(m[k].fields, p + [k]) else Some(Node(p, k, m[k]))
  }

  // ---- The flattening itself ----

  /** Taking `key` after the keys `done`: how the count and the intended bag grow. */
  lemma SplitAt(m: Dict, done: set<string>, key: string, path: seq<string>)
    requires done <= m.Keys && key in m && key !in done
    ensures LeafCountIn(m, done + {key}) == EntryCount(m, key) + LeafCountIn(m, done)
    ensures LeafBagIn(m, done + {key}, path) == EntryBag(m, key, path) + LeafBagIn(m, done, path)
  {
    assert (done + {key}) - {key} == done;
    LeafCountInSplit(m, done + {key}, key);
    LeafBagInSplit(m, done + {key}, path, key);
  }

  /** On a one-key chain the only key is `key`, and the chain continues below it or ends in it. */
  lemma ChainLeafStep(m: Dict, path: seq<string>, key: string)
    requires ChainLeaf(m, path).Some? && key in m
    ensures m.Keys == {key}
    ensures m[key].JObj? ==> ChainLeaf(m[key].fields, Popped(path, m) + [key]) == ChainLeaf(m, path)
    ensures !m[key].JObj? ==> ChainLeaf(m, path) == Some(Node(Popped(path, m), key, m[key]))
  {
    assert |m| == 1;
    assert |m.Keys - {key}| == 0;
  }

  /**
   * One turn of the key loop of `parseKeys`, for the entry under `key`: the
   * pop step, then either a recursive walk of a nested object (with `key`
   * pushed on the path) or one new node for a non-object value.
   */
  method ParseEntry(dict: Dict, key: string, result: seq<Node>, path: seq<string>)
    returns (result': seq<Node>, path': seq<string>)
    requires key in dict
    ensures |result'| >= |result| && result'[..|result|] == result
    ensures EntryWalked(dict, key, path, result'[|result|..], path')
    decreases JObj(dict), 0
  {
    path' := path;
    var child := dict[key];
    // The pop step: forget the last path element when it is a key of this object.
    if |path'| > 0 && path'[|path'| - 1] in dict {
      path' := path'[..|path'| - 1];
    }
    if child.JObj? {
      path' := path' + [key];
      result' := ParseKeys(child.fields, result, path');
    } else {
      result' := result + [Node(path', key, child)];
      assert result'[|result|..] == [Node(path', key, child)];
      assert multiset([Node(path', key, child)]) == multiset{Node(path', key, child)};
      assert KVs([Node(path', key, child)]) == [(key, child)];
    }
  }

  /**
   * What holds of the key loop of `parseKeys` once the keys outside `pending`
   * have been walked: `added` is what they appended to `nodes`; its length is
   * their leaf count and its keys and values are their leaves'; when the pop step cannot misfire it holds their
   * intended leaves and the path is `path`, possibly with one key of `dict`
   * pushed; on a one-key chain nothing is appended until the single key has
   * been walked, and then exactly the chain's leaf.
   */
  ghost predicate LoopInv(dict: Dict, path: seq<string>, pending: set<string>, added: seq<Node>, p: seq<string>)
  {
    && pending <= dict.Keys
    && |added| == LeafCountIn(dict, dict.Keys - pending)
    && multiset(KVs(added)) == LeafKVIn(dict, dict.Keys - pending)
    && (EchoFree(dict, path) ==>
          && multiset(added) == LeafBagIn(dict, dict.Keys - pending, path)
          && (p == path || (|p| == |path| + 1 && p[..|path|] == path && p[|path|] in dict)))
    && (ChainLeaf(dict, path).Some? && pending != {} ==> added == [] && p == path)
    && (ChainLeaf(dict, path).Some? && pending == {} ==> added == [ChainLeaf(dict, path).value])
  }

  /** The entry under `key`, walked from path `p0`, appended `part` and left the path at `p`. */
  ghost predicate EntryWalked(dict: Dict, key: string, p0: seq<string>, part: seq<Node>, p: seq<string>)
    requires key in dict
  {
    && p == (if dict[key].JObj? then Popped(p0, dict) + [key] else Popped(p0, dict))
    && |part| == EntryCount(dict, key)
    && multiset(KVs(part)) == EntryKV(dict, key)
    && (!dict[key].JObj? || EchoFree(dict[key].fields, p) ==> multiset(part) == EntryBag(dict, key, Popped(p0, dict)))
    && (dict[key].JObj? && ChainLeaf(dict[key].fields, p).Some? ==> part == [ChainLeaf(dict[key].fields, p).value])
  }

  /** The count part of `LoopInv` survives taking `key`. */
  lemma CountStep(dict: Dict, done: set<string>, key: string, added: seq<Node>, part: seq<Node>)
    requires done <= dict.Keys && key in dict && key !in done
    requires |added| == LeafCountIn(dict, done) && |part| == EntryCount(dict, key)
    ensures |added + part| == LeafCountIn(dict, done + {key})
  {
    SplitAt(dict, done, key, []);
  }

  /** The key-value part of `LoopInv` survives taking `key`. */
  lemma KVStep(dict: Dict, done: set<string>, key: string, added: seq<Node>, part: seq<Node>)
    requires done <= dict.Keys && key in dict && key !in done
    requires multiset(KVs(added)) == LeafKVIn(dict, done) && multiset(KVs(part)) == EntryKV(dict, key)
    ensures multiset(KVs(added + part)) == LeafKVIn(dict, done + {key})
  {
    KVsAppend(added, part);
    assert (done + {key}) - {key} == done;
    LeafKVInSplit(dict, done + {key}, key);
  }

  /**
   * When the pop step cannot misfire, the path seen before each key is
   * `path` itself or `path` with one key of `dict` pushed, so the pop step
   * restores `path` and the path stays of that shape.
   */
  lemma PathStep(dict: Dict, path: seq<string>, key: string, p0: seq<string>, p: seq<string>)
    requires key in dict && EchoFree(dict, path)
    requires p0 == path || (|p0| == |path| + 1 && p0[..|path|] == path && p0[|path|] in dict)
    requires p == if dict[key].JObj? then Popped(p0, dict) + [key] else Popped(p0, dict)
    ensures Popped(p0, dict) == path
    ensures dict[key].JObj? ==> EchoFree(dict[key].fields, p)
    ensures p == path || (|p| == |path| + 1 && p[..|path|] == path && p[|path|] in dict)
  {
    if p0 != path {
      assert p0[..|p0| - 1] == path;
    }
    if dict[key].JObj? {
      assert (path + [key])[..|path|] == path;
    }
  }

  /** When the pop step cannot misfire, the nodes of the entry under `key` are its intended leaves. */
  lemma BagStep(dict: Dict, path: seq<string>, done: set<string>, key: string,
                added: seq<Node>, part: seq<Node>)
    requires done <= dict.Keys && key in dict && key !in done
    requires multiset(added) == LeafBagIn(dict, done, path)
    requires multiset(part) == EntryBag(dict, key, path)
    ensures multiset(added + part) == LeafBagIn(dict, done + {key}, path)
  {
    SplitAt(dict, done, key, path);
  }

  /** On a one-key chain the loop runs once and appends exactly the chain's leaf. */
  lemma ChainStep(dict: Dict, path: seq<string>, pending: set<string>, key: string, part: seq<Node>)
    requires ChainLeaf(dict, path).Some? && key in pending && pending <= dict.Keys
    requires |part| == EntryCount(dict, key)
    requires !dict[key].JObj? ==> multiset(part) == EntryBag(dict, key, Popped(path, dict))
    requires dict[key].JObj? && ChainLeaf(dict[key].fields, Popped(path, dict) + [key]).Some?
             ==> part == [ChainLeaf(dict[key].fields, Popped(path, dict) + [key]).value]
    ensures pending - {key} == {}
    ensures part == [ChainLeaf(dict, path).value]
  {
    ChainLeafStep(dict, path, key);
    if !dict[key].JObj? {
      assert |part| == 1;
      assert part[0] in multiset(part);
      assert part == [part[0]];
    }
  }

  /** `LoopInv` holds before the first turn. */
  lemma LoopInit(dict: Dict, path: seq<string>)
    ensures LoopInv(dict, path, dict.Keys, [], path)
  {
    assert dict.Keys - dict.Keys == {};
  }

  /** Once every key is walked, `LoopInv` gives what `parseKeys` promises. */
  lemma LoopDone(dict: Dict, path: seq<string>, added: seq<Node>, p: seq<string>)
    requires LoopInv(dict, path, {}, added, p)
    ensures |added| == LeafCount(dict)
    ensures multiset(KVs(added)) == LeafKV(dict)
    ensures EchoFree(dict, path) ==> multiset(added) == LeafBag(dict, path)
    ensures ChainLeaf(dict, path).Some? ==> added == [ChainLeaf(dict, path).value]
  {
    assert dict.Keys - {} == dict.Keys;
  }

  /** One turn of the key loop keeps `LoopInv`. */
  lemma LoopStep(dict: Dict, path: seq<string>, pending: set<string>, key: string,
                 added: seq<Node>, part: seq<Node>, p0: seq<string>, p: seq<string>)
    requires key in pending && LoopInv(dict, path, pending, added, p0)
    requires EntryWalked(dict, key, p0, part, p)
    ensures LoopInv(dict, path, pending - {key}, added + part, p)
  {
    var done := dict.Keys - pending;
    assert dict.Keys - (pending - {key}) == done + {key};
    CountStep(dict, done, key, added, part);
    KVStep(dict, done, key, added, part);
    if EchoFree(dict, path) {
      PathStep(dict, path, key, p0, p);
      BagStep(dict, path, done, key, added, part);
    }
    if ChainLeaf(dict, path).Some? {
      ChainStep(dict, path, pending, key, part);
    }
  }

  lemma AppendNodes(a: seq<Node>, b: seq<Node>, c: seq<Node>)
    ensures (a + b) + c == a + (b + c)
  {
  }

  /**
   * `parseKeys`: appends to `nodes` one node per non-object value anywhere in
   * `dict`. `nodes` is kept as a prefix; the appended nodes carry exactly the
   * keys and values of the leaves, whatever the key order; when the pop step
   * cannot misfire the
   * appended nodes are exactly the leaves with their full key chains; on a
   * chain of one-key objects the single node is the one `ChainLeaf` gives.
   */
  method ParseKeys(dict: Dict, nodes: seq<Node>, path: seq<string>) returns (result: seq<Node>)
    ensures |result| >= |nodes| && result[..|nodes|] == nodes
    ensures |result| == |nodes| + LeafCount(dict)
    ensures multiset(KVs(result[|nodes|..])) == LeafKV(dict)
    ensures EchoFree(dict, path) ==> multiset(result[|nodes|..]) == LeafBag(dict, path)
    ensures ChainLeaf(dict, path).Some? ==> result[|nodes|..] == [ChainLeaf(dict, path).value]
    decreases JObj(dict), 1
  {
    result := nodes;
    var p := path;
    var pending := dict.Keys;
    ghost var added: seq<Node> := [];
    LoopInit(dict, path);
    while pending != {}
      invariant result == nodes + added
      invariant LoopInv(dict, path, pending, added, p)
      decreases pending
    {
      var key :| key in pending;
      ghost var p0 := p;
      var r, p' := ParseEntry(dict, key, result, p);
      ghost var part := r[|result|..];
      assert r == result + part;
      LoopStep(dict, path, pending, key, added, part, p0, p');
      AppendNodes(nodes, added, part);
      added := added + part;
      result := r;
      p := p';
      pending := pending - {key};
    }
    LoopDone(dict, path, added, p);
    assert result[..|nodes|] == nodes && result[|nodes|..] == added;
  }

  // ---- Consequences on particular shapes ----

  /** Every key of the object maps to a non-object value. */
  predicate SingleLevel(m: Dict)
  {
    forall k | k in m :: !m[k].JObj?
  }

  lemma {:induction false} SingleLevelCount(m: Dict, ks: set<string>)
    requires ks <= m.Keys && SingleLevel(m)
    ensures LeafCountIn(m, ks) == |ks|
    decreases |ks|
  {
    if ks != {} {
      var k :| k in ks;
      LeafCountInSplit(m, ks, k);
      SingleLevelCount(m, ks - {k});
    }
  }

  lemma {:induction false} SingleLevelBag(m: Dict, ks: set<string>, n: Node)
    requires ks <= m.Keys && SingleLevel(m)
    ensures n in LeafBagIn(m, ks, []) <==> n.path == [] && n.key in ks && n.value == m[n.key]
    decreases |ks|
  {
    if ks != {} {
      var k :| k in ks;
      LeafBagInSplit(m, ks, [], k);
      SingleLevelBag(m, ks - {k}, n);
    }
  }

  /**
   * A single-level object flattened from the empty path yields one node per
   * key, each with an empty path and the key's own value.
   */
  method FlattenSingleLevel(dict: Dict) returns (nodes: seq<Node>)
    requires SingleLevel(dict)
    ensures |nodes| == |dict|
    ensures forall i | 0 <= i < |nodes| :: nodes[i].path == [] && nodes[i].key in dict && nodes[i].value == dict[nodes[i].key]
    ensures forall k | k in dict :: Node([], k, dict[k]) in nodes
  {
    nodes := ParseKeys(dict, [], []);
    assert nodes[0..] == nodes;
    SingleLevelCount(dict, dict.Keys);
    assert |dict.Keys| == |dict|;
    forall i | 0 <= i < |nodes|
      ensures nodes[i].path == [] && nodes[i].key in dict && nodes[i].value == dict[nodes[i].key]
    {
      assert nodes[i] in multiset(nodes);
      SingleLevelBag(dict, dict.Keys, nodes[i]);
    }
    forall k | k in dict
      ensures Node([], k, dict[k]) in nodes
    {
      SingleLevelBag(dict, dict.Keys, Node([], k, dict[k]));
      assert Node([], k, dict[k]) in multiset(nodes);
    }
  }

  /** An object with a single key: its leaves and its chain leaf are those of that key's entry. */
  lemma SingleKey(m: Dict, k: string, path: seq<string>)
    requires m.Keys == {k}
    ensures LeafBag(m, path) == EntryBag(m, k, path)
    ensures ChainLeaf(m, path)
         == if m[k].JObj? then ChainLeaf(m[k].fields, Popped(path, m) + [k]) else Some(Node(Popped(path, m), k, m[k]))
  {
    assert |m| == |m.Keys| == 1;
    LeafBagInSplit(m, m.Keys, path, k);
    assert m.Keys - {k} == {};
  }

  /** The spec `{"renameProperty":{"College":{"rank":"ranking"}}}`. */
  function CollegeSpec(): Dict
  {
    map["renameProperty" := JObj(map["College" := JObj(map["rank" := JStr("ranking")])])]
  }

  /** `CollegeSpec` is a one-key chain ending in the value `"ranking"` under `rank`. */
  lemma CollegeChain()
    ensures ChainLeaf(CollegeSpec(), []) == Some(Node(["renameProperty", "College"], "rank", JStr("ranking")))
  {
    CollegeChainMiddle();
    SingleKey(CollegeSpec(), "renameProperty", []);
    assert Popped([], CollegeSpec()) + ["renameProperty"] == ["renameProperty"];
  }

  lemma CollegeChainMiddle()
    ensures ChainLeaf(map["College" := JObj(map["rank" := JStr("ranking")])], ["renameProperty"])
         == Some(Node(["renameProperty", "College"], "rank", JStr("ranking")))
  {
    var middle := map["College" := JObj(map["rank" := JStr("ranking")])];
    CollegeChainInner();
    SingleKey(middle, "College", ["renameProperty"]);
    assert Popped(["renameProperty"], middle) == ["renameProperty"];
    assert ["renameProperty"] + ["College"] == ["renameProperty", "College"];
  }

  lemma CollegeChainInner()
    ensures ChainLeaf(map["rank" := JStr("ranking")], ["renameProperty", "College"])
         == Some(Node(["renameProperty", "College"], "rank", JStr("ranking")))
  {
    var inner := map["rank" := JStr("ranking")];
    SingleKey(inner, "rank", ["renameProperty", "College"]);
    assert Popped(["renameProperty", "College"], inner) == ["renameProperty", "College"];
  }

  /**
   * `CollegeSpec` flattens to the one node with path
   * `["renameProperty","College"]`, key `"rank"` and value `"ranking"`.
   */
  method RenamePropertyExample() returns (nodes: seq<Node>)
    ensures nodes == [Node(["renameProperty", "College"], "rank", JStr("ranking"))]
  {
    nodes := ParseKeys(CollegeSpec(), [], []);
    assert nodes[0..] == nodes;
    CollegeChain();
  }

  /**
   * `{"newProperty":{"User":{"User":{"age":1}}}}`: the inner `User` object
   * contains the key it is stored under, so the pop step drops `User` from
   * the path and `parseKeys` emits path `["newProperty","User"]`, one element
   * short of the intended `["newProperty","User","User"]`.
   */
  method EchoExample() returns (nodes: seq<Node>)
    ensures nodes == [Node(["newProperty", "User"], "age", JNum(1))]
  {
    var leaf := map["age" := JNum(1)];
    var inner := map["User" := JObj(leaf)];
    var middle := map["User" := JObj(inner)];
    var spec := map["newProperty" := JObj(middle)];
    nodes := ParseKeys(spec, [], []);
    assert nodes[0..] == nodes;
    SingleKey(leaf, "age", ["newProperty", "User"]);
    SingleKey(inner, "User", ["newProperty", "User"]);
    assert ["newProperty", "User"][..1] == ["newProperty"];
    assert Popped(["newProperty", "User"], inner) + ["User"] == ["newProperty", "User"];
    SingleKey(middle, "User", ["newProperty"]);
    assert Popped(["newProperty"], middle) + ["User"] == ["newProperty", "User"];
    SingleKey(spec, "newProperty", []);
    assert Popped([], spec) + ["newProperty"] == ["newProperty"];
  }

  /** The intended flattening of the object of `EchoExample` keeps both `User` keys in the path. */
  lemma EchoIntended()
    ensures LeafBag(map["newProperty" := JObj(map["User" := JObj(map["User" := JObj(map["age" := JNum(1)])])])], [])
         == multiset{Node(["newProperty", "User", "User"], "age", JNum(1))}
  {
    var middle := map["User" := JObj(map["User" := JObj(map["age" := JNum(1)])])];
    EchoIntendedMiddle();
    SingleKey(map["newProperty" := JObj(middle)], "newProperty", []);
    assert [] + ["newProperty"] == ["newProperty"];
  }

  lemma EchoIntendedMiddle()
    ensures LeafBag(map["User" := JObj(map["User" := JObj(map["age" := JNum(1)])])], ["newProperty"])
         == multiset{Node(["newProperty", "User", "User"], "age", JNum(1))}
  {
    var inner := map["User" := JObj(map["age" := JNum(1)])];
    EchoIntendedInner();
    SingleKey(map["User" := JObj(inner)], "User", ["newProperty"]);
    assert ["newProperty"] + ["User"] == ["newProperty", "User"];
  }

  lemma EchoIntendedInner()
    ensures LeafBag(map["User" := JObj(map["age" := JNum(1)])], ["newProperty", "User"])
         == multiset{Node(["newProperty", "User", "User"], "age", JNum(1))}
  {
    var leaf := map["age" := JNum(1)];
    SingleKey(leaf, "age", ["newProperty", "User", "User"]);
    SingleKey(map["User" := JObj(leaf)], "User", ["newProperty", "User"]);
    assert ["newProperty", "User"] + ["User"] == ["newProperty", "User", "User"];
  }
}
