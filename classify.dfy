/**
 * Classification of flattened spec nodes into migration tasks
 * (`parseSchema`, `schemaData(for:)`, `entityName`, `parseFirst`). A node's
 * path starts with the action name; the entity is the next path element or,
 * when the path holds nothing more, the node's own key.
 */
module Classify {
  import opened JsonValues
  import opened SchemaAction
  import opened Flatten

  /** `StickySchemaData`: one edit to apply to every record of `entity`. */
  datatype Task = Task(action: Action, entity: string, node: Node)

  /** `parseFirst(from: &list)`: removes and returns the first element, or fails on an empty list. */
  method ParseFirst(list: seq<string>) returns (first: Option<string>, list': seq<string>)
    ensures first.None? <==> list == []
    ensures first.None? ==> list' == list
    ensures first.Some? ==> [first.value] + list' == list
  {
    if list == [] {
      first, list' := None, list;
    } else {
      first, list' := Some(list[0]), list[1..];
    }
  }

  /**
   * `entityName(for:nodeKey:path:)`: the node's key when the path is empty,
   * else the path's first element, which is removed. With string keys it
   * cannot fail.
   */
  method EntityName(nodeKey: string, path: seq<string>) returns (name: Option<string>, path': seq<string>)
    ensures name.Some?
    ensures path == [] ==> name == Some(nodeKey) && path' == []
    ensures path != [] ==> [name.value] + path' == path
  {
    if path == [] {
      name, path' := Some(nodeKey), path;
    } else {
      name, path' := ParseFirst(path);
    }
  }

  /** The task a node stands for, if any. */
  function Classified(n: Node): (r: Option<Task>)
    ensures r.None? <==> n.path == [] || ParseAction(n.path[0]).None?
    ensures r.Some? ==> r.value.node.key == n.key && r.value.node.value == n.value
  {
    if n.path == [] then None
    else
      match ParseAction(n.path[0])
      case None => None
      case Some(a) =>
        var rest := n.path[1..];
        if rest == [] then Some(Task(a, n.key, Node([], n.key, n.value)))
        else Some(Task(a, rest[0], Node(rest[1..], n.key, n.value)))
  }

  /**
   * The node a task is read from: the action's raw name, then (when `nested`)
   * the entity and the remaining path. A task read from a node whose path
   * holds only the action has the node's key as entity and an empty path.
   */
  function Spelled(t: Task, nested: bool): Node
  {
    Node([RawValue(t.action)] + (if nested then [t.entity] + t.node.path else []), t.node.key, t.node.value)
  }

  /** Classification reads back every task spelled with its entity in the path. */
  lemma ClassifySpelled(t: Task)
    ensures Classified(Spelled(t, true)) == Some(t)
  {
    ParseRawValue(t.action);
    var p := Spelled(t, true).path;
    assert p[1..] == [t.entity] + t.node.path;
    assert p[1..][1..] == t.node.path;
  }

  /** ... and every task spelled without it, when the entity is the key and the path is empty. */
  lemma ClassifySpelledShort(t: Task)
    requires t.entity == t.node.key && t.node.path == []
    ensures Classified(Spelled(t, false)) == Some(t)
  {
    ParseRawValue(t.action);
    assert Spelled(t, false).path == [RawValue(t.action)];
  }

  /** Every node that classifies is the spelling of its task: nothing of the node is lost. */
  lemma ClassifiedSpelling(n: Node)
    requires Classified(n).Some?
    ensures Spelled(Classified(n).value, |n.path| >= 2) == n
  {
    var t := Classified(n).value;
    assert RawValue(t.action) == n.path[0];
    if |n.path| >= 2 {
      assert n.path == [n.path[0]] + ([n.path[1]] + n.path[2..]);
    } else {
      assert n.path == [n.path[0]];
    }
  }

  /** `schemaData(for:)`: action from the first path element, then the entity, then the rest of the path. */
  method SchemaData(node: Node) returns (r: Option<Task>)
    ensures r == Classified(node)
  {
    var path := node.path;
    var actionName;
    actionName, path := ParseFirst(path);
    if actionName.None? {
      return None;
    }
    var action := ParseAction(actionName.value);
    if action.None? {
      return None;
    }
    var entityName;
    entityName, path := EntityName(node.key, path);
    if entityName.None? {
      return None;
    }
    assert path == if |node.path| == 1 then [] else node.path[2..];
    r := Some(Task(action.value, entityName.value, Node(path, node.key, node.value)));
  }

  /** All-or-nothing classification of a node list: one task per node, in node order. */
  function ClassifiedAll(nodes: seq<Node>): (r: Option<seq<Task>>)
    ensures r.None? <==> exists i :: 0 <= i < |nodes| && Classified(nodes[i]).None?
    ensures r.Some? ==> |r.value| == |nodes|
    ensures r.Some? ==> forall i :: 0 <= i < |nodes| ==> Classified(nodes[i]) == Some(r.value[i])
  {
    if nodes == [] then Some([])
    else
      match Classified(nodes[0])
      case None => None
      case Some(t) =>
        match ClassifiedAll(nodes[1..])
        case None =>
          assert forall i :: 0 <= i < |nodes| - 1 ==> nodes[1..][i] == nodes[i + 1];
          None
        case Some(ts) =>
          assert forall i :: 0 < i < |nodes| ==> nodes[i] == nodes[1..][i - 1];
          Some([t] + ts)
  }

  /**
   * `parseSchema(from:)`: flattens the spec from the empty path and classifies
   * every node, failing as a whole when one node fails. `nodes` is the
   * flattening the classification was made from.
   */
  method ParseSchema(schema: Dict) returns (r: Option<seq<Task>>, nodes: seq<Node>)
    ensures |nodes| == LeafCount(schema)
    ensures multiset(KVs(nodes)) == LeafKV(schema)
    ensures EchoFree(schema, []) ==> multiset(nodes) == LeafBag(schema, [])
    ensures ChainLeaf(schema, []).Some? ==> nodes == [ChainLeaf(schema, []).value]
    ensures r == ClassifiedAll(nodes)
  {
    var ns := ParseKeys(schema, [], []);
    assert ns[0..] == ns;
    nodes := ns;
    var tasks: seq<Task> := [];
    for i := 0 to |ns|
      invariant |tasks| == i
      invariant forall j :: 0 <= j < i ==> Classified(ns[j]) == Some(tasks[j])
    {
      var t := SchemaData(ns[i]);
      if t.None? {
        return None, nodes;
      }
      tasks := tasks + [t.value];
    }
    r := Some(tasks);
    ParsedAll(ns, tasks);
  }

  /** A task list that classifies every node pointwise is the all-or-nothing result. */
  lemma {:induction false} ParsedAll(nodes: seq<Node>, tasks: seq<Task>)
    requires |tasks| == |nodes|
    requires forall j :: 0 <= j < |nodes| ==> Classified(nodes[j]) == Some(tasks[j])
    ensures ClassifiedAll(nodes) == Some(tasks)
  {
    if nodes != [] {
      assert forall j :: 0 <= j < |nodes| - 1 ==> nodes[1..][j] == nodes[j + 1];
      ParsedAll(nodes[1..], tasks[1..]);
      assert tasks == [tasks[0]] + tasks[1..];
    }
  }

  /** The node of the College rename spec is a renameProperty task on entity `College`. */
  lemma CollegeClassified()
    ensures ClassifiedAll([Node(["renameProperty", "College"], "rank", JStr("ranking"))])
         == Some([Task(RenameProperty, "College", Node([], "rank", JStr("ranking")))])
  {
    var n := Node(["renameProperty", "College"], "rank", JStr("ranking"));
    var t := Task(RenameProperty, "College", Node([], "rank", JStr("ranking")));
    ParseRawValue(RenameProperty);
    assert n.path[1..] == ["College"];
    assert Classified(n) == Some(t);
    assert [n][1..] == [];
    assert ClassifiedAll([n][1..]) == Some([]);
    assert [t] + [] == [t];
  }

  /** The College rename spec parses into that one task. */
  method CollegeTasks() returns (r: Option<seq<Task>>)
    ensures r == Some([Task(RenameProperty, "College", Node([], "rank", JStr("ranking")))])
  {
    var nodes;
    r, nodes := ParseSchema(CollegeSpec());
    CollegeChain();
    CollegeClassified();
  }
}
