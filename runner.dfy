/**
 * The per-file runner (`process`) and the multi-file driver
 * (`processUpdates`, `checkUpdateNeeded`). Entity files on disk are an
 * abstract map from entity name to its collection of records; a write's
 * failure is an input (the set of entities whose write fails).
 */
module Runner {
  import opened JsonValues
  import opened SchemaAction
  import opened Flatten
  import opened Transforms
  import opened PathOperation
  import opened Classify

  /** `StickyEntityCollection`: the records stored for one entity. */
  type Collection = seq<Dict>

  /** `Sticky.shared`: the entity files and the schema version they are at. */
  class Sticky {
    var files: map<string, Collection>
    var currentSchemaVersion: int

    constructor(files: map<string, Collection>, version: int)
      ensures this.files == files && currentSchemaVersion == version
    {
      this.files := files;
      currentSchemaVersion := version;
    }

    /** `readStickyJsonFile(for:)`: the entity's collection, when its file exists and holds one. */
    function Read(entity: string): (r: Option<Collection>)
      reads this
      ensures r.Some? <==> entity in files
      ensures r.Some? ==> r.value == files[entity]
    {
      if entity in files then Some(files[entity]) else None
    }

    /** `writeJsonFile(for:to:)`: replaces the entity's file unless its write fails. */
    method WriteJsonFile(collection: Collection, entity: string, writeFails: set<string>) returns (ok: bool)
      modifies this
      ensures ok <==> entity !in writeFails
      ensures files == if ok then old(files)[entity := collection] else old(files)
      ensures currentSchemaVersion == old(currentSchemaVersion)
    {
      ok := entity !in writeFails;
      if ok {
        files := files[entity := collection];
      }
    }

    /** `changeSchemaVersion(to:)`: records the version the files are now at. */
    method ChangeSchemaVersion(version: int)
      modifies this
      ensures currentSchemaVersion == version && files == old(files)
    {
      currentSchemaVersion := version;
    }
  }

  /** `StickySchemaFile`: a version and the file's contents, `None` when it cannot be read or parsed. */
  datatype SchemaFile = SchemaFile(version: int, contents: Option<Json>)

  /** `dictionary(from:)`: the spec object, when the file was read and holds a JSON object. */
  function SpecObject(f: SchemaFile): (r: Option<Dict>)
    ensures r.Some? <==> f.contents.Some? && f.contents.value.JObj?
    ensures r.Some? ==> f.contents == Some(JObj(r.value))
  {
    if f.contents.Some? && f.contents.value.JObj? then Some(f.contents.value.fields) else None
  }

  /**
   * `stored(for:memoryStore:)`: the collection already staged in this run,
   * else the one on disk; `None` when the entity has neither.
   */
  function Stored(entity: string, memory: map<string, Collection>, disk: map<string, Collection>): (r: Option<Collection>)
    ensures r.None? <==> entity !in memory && entity !in disk
    ensures entity in memory ==> r == Some(memory[entity])
    ensures entity !in memory && entity in disk ==> r == Some(disk[entity])
  {
    if entity in memory then Some(memory[entity])
    else if entity in disk then Some(disk[entity])
    else None
  }

  /** The arguments a task passes to `performOperation`: a key path and a leaf transform. */
  datatype Operation = Operation(path: seq<string>, transform: Transform)

  /**
   * The `switch` of the record loop: `newProperty` always applies;
   * `removeProperty` needs a string-array payload and descends one level
   * further, into the node's key; `renameProperty` needs a string payload,
   * the new key. `renameEntity` falls into `default`; a payload of the wrong
   * shape enters its own case, where the cast fails. Either way no record is
   * appended, and the entity's collection is staged empty.
   */
  function TaskOperation(t: Task): (r: Option<Operation>)
    ensures r.None? <==> || t.action == RenameEntity
                         || (t.action == RemoveProperty && AsStringArray(t.node.value).None?)
                         || (t.action == RenameProperty && AsString(t.node.value).None?)
    ensures t.action == RemoveProperty && AsStringArray(t.node.value).Some? ==>
              r == Some(Operation(t.node.path + [t.node.key], RemoveOp(AsStringArray(t.node.value).value)))
    ensures t.action == NewProperty ==> r == Some(Operation(t.node.path, NewNodeOp(t.node.value, t.node.key)))
    ensures t.action == RenameProperty && AsString(t.node.value).Some? ==>
              r == Some(Operation(t.node.path, RenameOp(t.node.key, AsString(t.node.value).value)))
  {
    match t.action
    case RemoveProperty =>
      (match AsStringArray(t.node.value)
       case Some(properties) => Some(Operation(t.node.path + [t.node.key], RemoveOp(properties)))
       case None => None)
    case NewProperty => Some(Operation(t.node.path, NewNodeOp(t.node.value, t.node.key)))
    case RenameProperty =>
      (match AsString(t.node.value)
       case Some(newKey) => Some(Operation(t.node.path, RenameOp(t.node.key, newKey)))
       case None => None)
    case RenameEntity => None
  }

  /**
   * A `removeProperty` task never works on the record's top level: its path
   * always ends in the node's key, so no top-level key of a record is
   * removed, and those off the path keep their values.
   */
  lemma RemoveNeverAtTop(t: Task)
    requires TaskOperation(t).Some? && t.action == RemoveProperty
    ensures TaskOperation(t).value.path != []
    ensures TaskOperation(t).value.path[|TaskOperation(t).value.path| - 1] == t.node.key
    ensures forall d: Dict :: d.Keys <= PerformOp(d, TaskOperation(t).value.path, TaskOperation(t).value.transform).Keys
    ensures forall d: Dict, k | k in d && k !in TaskOperation(t).value.path ::
              PerformOp(d, TaskOperation(t).value.path, TaskOperation(t).value.transform)[k] == d[k]
  {
    var op := TaskOperation(t).value;
    forall d: Dict
      ensures d.Keys <= PerformOp(d, op.path, op.transform).Keys
      ensures forall k | k in d && k !in op.path :: PerformOp(d, op.path, op.transform)[k] == d[k]
    {
      PerformOpTopFrame(d, op.path, op.transform);
    }
  }

  /**
   * The collection a task stages for its entity from the stored one: every
   * record transformed, in order, when the task has an operation; nothing
   * otherwise.
   */
  function Staged(t: Task, stored: Collection): (r: Collection)
    ensures TaskOperation(t).None? ==> r == []
    ensures TaskOperation(t).Some? ==> |r| == |stored|
    ensures TaskOperation(t).Some? ==>
              forall i :: 0 <= i < |stored| ==>
                r[i] == PerformOp(stored[i], TaskOperation(t).value.path, TaskOperation(t).value.transform)
  {
    if stored == [] || TaskOperation(t).None? then []
    else
      var op := TaskOperation(t).value;
      [PerformOp(stored[0], op.path, op.transform)] + Staged(t, stored[1..])
  }

  /**
   * The `switch` of the record loop on one record: the records it appends to
   * the collection, none when the action or its payload does not fit.
   */
  method UpdateRecord(t: Task, dataItem: Dict) returns (appended: Collection)
    ensures TaskOperation(t).None? ==> appended == []
    ensures TaskOperation(t).Some? ==>
              appended == [PerformOp(dataItem, TaskOperation(t).value.path, TaskOperation(t).value.transform)]
  {
    appended := [];
    match t.action {
      case RemoveProperty =>
        var properties := AsStringArray(t.node.value);
        if properties.Some? {
          var pathWithKey := t.node.path + [t.node.key];
          var updatedItem := PerformOperation(dataItem, pathWithKey, RemoveOp(properties.value));
          appended := [updatedItem];
        }
      case NewProperty =>
        var updatedItem := PerformOperation(dataItem, t.node.path, NewNodeOp(t.node.value, t.node.key));
        appended := [updatedItem];
      case RenameProperty =>
        var newKey := AsString(t.node.value);
        if newKey.Some? {
          var updatedItem := PerformOperation(dataItem, t.node.path, RenameOp(t.node.key, newKey.value));
          appended := [updatedItem];
        }
      case RenameEntity =>
    }
  }

  /** The record loop of `process` for one task: appends each transformed record to `collection`. */
  method StageCollection(t: Task, stored: Collection) returns (collection: Collection)
    ensures collection == Staged(t, stored)
  {
    collection := [];
    for i := 0 to |stored|
      invariant collection == Staged(t, stored[..i])
    {
      assert stored[..i + 1][..i] == stored[..i];
      var appended := UpdateRecord(t, stored[i]);
      collection := collection + appended;
      StagedSnoc(t, stored[..i + 1]);
    }
    assert stored[..|stored|] == stored;
  }

  /** Staging a collection one record longer stages that record's transform at the end. */
  lemma {:induction false} StagedSnoc(t: Task, stored: Collection)
    requires stored != []
    ensures Staged(t, stored) == Staged(t, stored[..|stored| - 1])
            + (if TaskOperation(t).None? then []
               else [PerformOp(stored[|stored| - 1], TaskOperation(t).value.path, TaskOperation(t).value.transform)])
  {
    var front := stored[..|stored| - 1];
    if TaskOperation(t).Some? {
      var op := TaskOperation(t).value;
      var a := Staged(t, stored);
      var b := Staged(t, front) + [PerformOp(stored[|stored| - 1], op.path, op.transform)];
      assert |a| == |b|;
      forall i | 0 <= i < |a|
        ensures a[i] == b[i]
      {
        if i < |front| {
          assert stored[i] == front[i];
        }
      }
    }
  }

  /**
   * The task loop of `process`: each task stages, under its entity, its
   * transform of the entity's stored collection; the whole run fails when a
   * task's entity has no collection.
   */
  function StageAll(tasks: seq<Task>, memory: map<string, Collection>, disk: map<string, Collection>)
    : Option<map<string, Collection>>
  {
    if tasks == [] then Some(memory)
    else
      match Stored(tasks[0].entity, memory, disk)
      case None => None
      case Some(stored) => StageAll(tasks[1..], memory[tasks[0].entity := Staged(tasks[0], stored)], disk)
  }

  /** The entities the tasks name. */
  function EntitiesOf(tasks: seq<Task>): set<string>
  {
    set i | 0 <= i < |tasks| :: tasks[i].entity
  }

  /**
   * Staging fails exactly when some task names an entity that is neither on
   * disk nor staged before it, by the memory or by an earlier task.
   */
  lemma {:induction false} StageAllFails(tasks: seq<Task>, memory: map<string, Collection>, disk: map<string, Collection>)
    ensures StageAll(tasks, memory, disk).None?
        <==> exists i :: 0 <= i < |tasks| && tasks[i].entity !in disk && tasks[i].entity !in memory
                           && tasks[i].entity !in EntitiesOf(tasks[..i])
  {
    if tasks != [] {
      var e := tasks[0].entity;
      if e in memory || e in disk {
        var memory' := memory[e := Staged(tasks[0], Stored(e, memory, disk).value)];
        StageAllFails(tasks[1..], memory', disk);
        forall i | 0 < i < |tasks|
          ensures EntitiesOf(tasks[..i]) == {e} + EntitiesOf(tasks[1..][..i - 1])
        {
          EntitiesShift(tasks, i);
        }
        if StageAll(tasks, memory, disk).None? {
          var j :| 0 <= j < |tasks[1..]| && tasks[1..][j].entity !in disk && tasks[1..][j].entity !in memory'
                   && tasks[1..][j].entity !in EntitiesOf(tasks[1..][..j]);
          assert tasks[j + 1] == tasks[1..][j];
        } else {
          forall i | 0 <= i < |tasks| && tasks[i].entity !in disk && tasks[i].entity !in memory
            ensures tasks[i].entity in EntitiesOf(tasks[..i])
          {
            if i > 0 {
              assert tasks[1..][i - 1] == tasks[i];
            }
          }
        }
      } else {
        assert EntitiesOf(tasks[..0]) == {};
      }
    }
  }

  /** The entities of a prefix of length `i > 0` are the first one's and those of the rest's prefix. */
  lemma EntitiesShift(tasks: seq<Task>, i: int)
    requires 0 < i <= |tasks|
    ensures EntitiesOf(tasks[..i]) == {tasks[0].entity} + EntitiesOf(tasks[1..][..i - 1])
  {
    var a := EntitiesOf(tasks[..i]);
    var b := {tasks[0].entity} + EntitiesOf(tasks[1..][..i - 1]);
    forall e | e in a
      ensures e in b
    {
      var j :| 0 <= j < i && tasks[..i][j].entity == e;
      if j > 0 {
        assert tasks[1..][..i - 1][j - 1] == tasks[j];
      }
    }
    forall e | e in b
      ensures e in a
    {
      if e != tasks[0].entity {
        var j :| 0 <= j < i - 1 && tasks[1..][..i - 1][j].entity == e;
        assert tasks[..i][j + 1] == tasks[1..][..i - 1][j];
      } else {
        assert tasks[..i][0] == tasks[0];
      }
    }
  }

  /** When staging succeeds the staged entities are those of the memory and of the tasks. */
  lemma {:induction false} StageAllKeys(tasks: seq<Task>, memory: map<string, Collection>, disk: map<string, Collection>)
    requires StageAll(tasks, memory, disk).Some?
    ensures StageAll(tasks, memory, disk).value.Keys == memory.Keys + EntitiesOf(tasks)
  {
    if tasks != [] {
      var e := tasks[0].entity;
      var memory' := memory[e := Staged(tasks[0], Stored(e, memory, disk).value)];
      StageAllKeys(tasks[1..], memory', disk);
      EntitiesShift(tasks, |tasks|);
      assert tasks[..|tasks|] == tasks;
      assert tasks[1..][..|tasks| - 1] == tasks[1..];
    }
  }

  /**
   * A `renameEntity` task whose entity exists stages an empty collection for
   * it: the entity's records are lost when the staged files are written.
   */
  lemma RenameEntityClears(t: Task, disk: map<string, Collection>)
    requires t.action == RenameEntity && t.entity in disk
    ensures StageAll([t], map[], disk) == Some(map[t.entity := []])
  {
    assert [t][1..] == [];
  }

  /**
   * A `removeProperty` or `renameProperty` task whose payload has the wrong
   * shape stages an empty collection for an existing entity too: its records
   * are lost when the staged files are written.
   */
  lemma MalformedPayloadClears(t: Task, disk: map<string, Collection>)
    requires || (t.action == RemoveProperty && AsStringArray(t.node.value).None?)
             || (t.action == RenameProperty && AsString(t.node.value).None?)
    requires t.entity in disk
    ensures StageAll([t], map[], disk) == Some(map[t.entity := []])
  {
    assert [t][1..] == [];
  }

  /** The staged collections whose entities are in `done`. */
  function Restrict(staged: map<string, Collection>, done: set<string>): (r: map<string, Collection>)
    ensures r.Keys == staged.Keys * done
    ensures forall e | e in r :: r[e] == staged[e]
  {
    map e | e in staged && e in done :: staged[e]
  }

  /** Writing the staged collection of one more entity extends the written part by that entity. */
  lemma WrittenOneMore(disk: map<string, Collection>, staged: map<string, Collection>, done: set<string>, e: string)
    requires e in staged
    ensures disk + Restrict(staged, done + {e}) == (disk + Restrict(staged, done))[e := staged[e]]
  {
    assert Restrict(staged, done + {e}) == Restrict(staged, done)[e := staged[e]];
  }

  /** The staged files a run of `process` on `file` writes, when it gets that far. */
  function Plan(tasks: Option<seq<Task>>, disk: map<string, Collection>): Option<map<string, Collection>>
  {
    if tasks.None? then None else StageAll(tasks.value, map[], disk)
  }

  /**
   * The task loop of `process`: stages every task's collection in a fresh
   * memory store, reading each entity from memory, else from its file.
   */
  method StageTasks(ts: seq<Task>, store: Sticky) returns (memoryStore: Option<map<string, Collection>>)
    ensures memoryStore == StageAll(ts, map[], store.files)
  {
    var memory: map<string, Collection> := map[];
    for i := 0 to |ts|
      invariant StageAll(ts[i..], memory, store.files) == StageAll(ts, map[], store.files)
    {
      assert ts[i..][1..] == ts[i + 1..];
      var stored: Option<Collection>;
      if ts[i].entity in memory {
        stored := Some(memory[ts[i].entity]);
      } else {
        stored := store.Read(ts[i].entity);
      }
      assert stored == Stored(ts[i].entity, memory, store.files);
      if stored.None? {
        return None;
      }
      var collection := StageCollection(ts[i], stored.value);
      memory := memory[ts[i].entity := collection];
    }
    assert ts[|ts|..] == [];
    memoryStore := Some(memory);
  }

  /**
   * The write loop of `process`: writes the staged collections one by one, in
   * no particular order, and stops at the first failed write. Whatever was
   * written before it stays written.
   */
  method WriteAll(store: Sticky, staged: map<string, Collection>, writeFails: set<string>) returns (ok: bool)
    modifies store
    ensures ok <==> staged.Keys !! writeFails
    ensures ok ==> store.files == old(store.files) + staged
    ensures exists done :: done <= staged.Keys - writeFails && store.files == old(store.files) + Restrict(staged, done)
    ensures store.currentSchemaVersion == old(store.currentSchemaVersion)
  {
    var pending := staged.Keys;
    while pending != {}
      invariant pending <= staged.Keys
      invariant (staged.Keys - pending) !! writeFails
      invariant store.files == old(store.files) + Restrict(staged, staged.Keys - pending)
      invariant store.currentSchemaVersion == old(store.currentSchemaVersion)
      decreases pending
    {
      var entity :| entity in pending;
      ghost var done := staged.Keys - pending;
      ok := store.WriteJsonFile(staged[entity], entity, writeFails);
      if !ok {
        assert store.files == old(store.files) + Restrict(staged, done);
        return;
      }
      pending := pending - {entity};
      assert staged.Keys - pending == done + {entity};
      WrittenOneMore(old(store.files), staged, done, entity);
    }
    assert Restrict(staged, staged.Keys - pending) == staged;
    ok := true;
  }

  /** The entity files and the schema version of a store at one moment. */
  datatype StoreState = StoreState(files: map<string, Collection>, version: int)

  /**
   * `nodes` is a flattening of `spec` that `parseKeys` may produce: its
   * count, the keys and values of its nodes, its multiset when the pop step
   * cannot misfire, and the exact node of a one-key chain.
   */
  ghost predicate Flattening(spec: Dict, nodes: seq<Node>)
  {
    && |nodes| == LeafCount(spec)
    && multiset(KVs(nodes)) == LeafKV(spec)
    && (EchoFree(spec, []) ==> multiset(nodes) == LeafBag(spec, []))
    && (ChainLeaf(spec, []).Some? ==> nodes == [ChainLeaf(spec, []).value])
  }

  /**
   * One run of `process` on `file` takes the store from `before` to `after`,
   * with `nodes` the flattening of its spec. With no spec object, or when a
   * node does not classify or a task's entity has no collection, nothing
   * changes. Otherwise some staged files that do not fail are written, and
   * the version becomes the file's exactly when every write succeeds.
   */
  ghost predicate Migrated(file: SchemaFile, nodes: seq<Node>, before: StoreState, after: StoreState, writeFails: set<string>)
  {
    if SpecObject(file).None? then after == before
    else
      && Flattening(SpecObject(file).value, nodes)
      && match Plan(ClassifiedAll(nodes), before.files)
         case None => after == before
         case Some(staged) =>
           && (exists done :: done <= staged.Keys - writeFails && after.files == before.files + Restrict(staged, done))
           && (staged.Keys !! writeFails ==> after.files == before.files + staged && after.version == file.version)
           && (!(staged.Keys !! writeFails) ==> after.version == before.version)
  }

  /** A run of `process` leaves the version where it was or moves it to the file's version. */
  lemma MigratedVersion(file: SchemaFile, nodes: seq<Node>, before: StoreState, after: StoreState, writeFails: set<string>)
    requires Migrated(file, nodes, before, after, writeFails)
    ensures after.version == before.version || after.version == file.version
  {
  }

  /** `StickySchemaUpdater`: runs the migration of one schema file. */
  class SchemaUpdater {
    var stickySchemaFile: SchemaFile

    constructor(file: SchemaFile)
      ensures stickySchemaFile == file
    {
      stickySchemaFile := file;
    }

    function Version(): int
      reads this
    {
      stickySchemaFile.version
    }

    /**
     * `process()`: parse the spec, stage every task's collection
     * (all-or-nothing: a missing entity stops the run before any write), write
     * the staged files one by one in no particular order (a failed write
     * stops the run, leaving the earlier writes in place), then move the
     * version to the file's. `nodes` and `tasks` are the flattening and the
     * classification (ghost, for the contract).
     */
    method Process(store: Sticky, writeFails: set<string>) returns (ghost nodes: seq<Node>, ghost tasks: Option<seq<Task>>)
      modifies store
      ensures SpecObject(stickySchemaFile).Some? ==> tasks == ClassifiedAll(nodes)
      ensures Migrated(stickySchemaFile, nodes, StoreState(old(store.files), old(store.currentSchemaVersion)),
                       StoreState(store.files, store.currentSchemaVersion), writeFails)
    {
      nodes, tasks := [], None;
      var dictionaryData := SpecObject(stickySchemaFile);
      if dictionaryData.None? {
        return;
      }
      var schemaData;
      schemaData, nodes := ParseSchema(dictionaryData.value);
      tasks := schemaData;
      if schemaData.None? {
        return;
      }
      var memoryStore := StageTasks(schemaData.value, store);
      if memoryStore.None? {
        return;
      }
      var ok := WriteAll(store, memoryStore.value, writeFails);
      if !ok {
        return;
      }
      store.ChangeSchemaVersion(Version());
    }
  }

  /** `checkUpdateNeeded(for:)`: the store is not at `version`. */
  function CheckUpdateNeeded(store: Sticky, version: int): (r: bool)
    reads store
    ensures r <==> version != store.currentSchemaVersion
  {
    version != store.currentSchemaVersion
  }

  /** Schema files in non-decreasing version order. */
  predicate SortedByVersion(files: seq<SchemaFile>)
  {
    forall i, j :: 0 <= i < j < |files| ==> files[i].version <= files[j].version
  }

  /** A file no newer than the head of a sorted list may go in front of it. */
  lemma ConsSorted(f: SchemaFile, sorted: seq<SchemaFile>)
    requires SortedByVersion(sorted) && (sorted != [] ==> f.version <= sorted[0].version)
    ensures SortedByVersion([f] + sorted)
  {
    assert forall j :: 0 < j < |sorted| ==> sorted[0].version <= sorted[j].version;
  }

  /** Inserts `f` into a sorted list after every file of a smaller version. */
  function Insert(f: SchemaFile, sorted: seq<SchemaFile>): (r: seq<SchemaFile>)
    requires SortedByVersion(sorted)
    ensures SortedByVersion(r)
    ensures multiset(r) == multiset(sorted) + multiset{f}
    ensures r[0] == f || (sorted != [] && r[0] == sorted[0])
  {
    if sorted == [] then [f]
    else if f.version <= sorted[0].version then
      ConsSorted(f, sorted);
      [f] + sorted
    else
      var rest := Insert(f, sorted[1..]);
      ConsSorted(sorted[0], rest);
      assert sorted == [sorted[0]] + sorted[1..];
      [sorted[0]] + rest
  }

  /** `schemaFiles.sorted { $0.version < $1.version }`: a permutation in ascending version order. */
  function SortByVersion(files: seq<SchemaFile>): (r: seq<SchemaFile>)
    ensures SortedByVersion(r)
    ensures multiset(r) == multiset(files)
  {
    if files == [] then []
    else
      assert files == [files[0]] + files[1..];
      Insert(files[0], SortByVersion(files[1..]))
  }

  /**
   * `processUpdates(for:)`: runs `process` on every file in ascending version
   * order. `checkUpdateNeeded` is not consulted, so a file at or below the
   * current version is applied again. `order` is the processing order,
   * `states` the store before and after each run (the first the initial
   * store, the last the final one) and `flattenings` each run's nodes; all
   * ghost, for the contract. `writeFails[i]` is the set of entities whose
   * write fails during the `i`-th run.
   */
  method ProcessUpdates(schemaFiles: seq<SchemaFile>, store: Sticky, writeFails: seq<set<string>>)
    returns (ghost order: seq<SchemaFile>, ghost states: seq<StoreState>, ghost flattenings: seq<seq<Node>>)
    requires |writeFails| == |schemaFiles|
    modifies store
    ensures order == SortByVersion(schemaFiles) && |order| == |schemaFiles|
    ensures |states| == |order| + 1 && |flattenings| == |order|
    ensures states[0] == StoreState(old(store.files), old(store.currentSchemaVersion))
    ensures states[|order|] == StoreState(store.files, store.currentSchemaVersion)
    ensures forall i :: 0 <= i < |order| ==> Migrated(order[i], flattenings[i], states[i], states[i + 1], writeFails[i])
    ensures store.currentSchemaVersion == old(store.currentSchemaVersion)
            || exists i :: 0 <= i < |order| && order[i].version == store.currentSchemaVersion
  {
    var sorted := SortByVersion(schemaFiles);
    order := sorted;
    assert |sorted| == |multiset(sorted)| == |schemaFiles|;
    states := [StoreState(store.files, store.currentSchemaVersion)];
    flattenings := [];
    for i := 0 to |sorted|
      invariant |states| == i + 1 && |flattenings| == i
      invariant states[0] == StoreState(old(store.files), old(store.currentSchemaVersion))
      invariant states[i] == StoreState(store.files, store.currentSchemaVersion)
      invariant forall j :: 0 <= j < i ==> Migrated(sorted[j], flattenings[j], states[j], states[j + 1], writeFails[j])
      invariant store.currentSchemaVersion == old(store.currentSchemaVersion)
                || exists j :: 0 <= j < i && sorted[j].version == store.currentSchemaVersion
    {
      var stickySchema := new SchemaUpdater(sorted[i]);
      ghost var nodes, tasks := stickySchema.Process(store, writeFails[i]);
      MigratedVersion(sorted[i], nodes, states[i], StoreState(store.files, store.currentSchemaVersion), writeFails[i]);
      states := states + [StoreState(store.files, store.currentSchemaVersion)];
      flattenings := flattenings + [nodes];
    }
  }

  /**
   * Migrating a College file `[{"rank": 1}]` with the spec
   * `{"renameProperty":{"College":{"rank":"ranking"}}}` at version 2 leaves
   * `[{"ranking": 1}]` on disk and the store at version 2.
   */
  method CollegeMigration() returns (store: Sticky)
    ensures store.files == map["College" := [map["ranking" := JNum(1)]]]
    ensures store.currentSchemaVersion == 2
  {
    var disk := map["College" := [map["rank" := JNum(1)]]];
    store := new Sticky(disk, 1);
    var file := SchemaFile(2, Some(JObj(CollegeSpec())));
    var updater := new SchemaUpdater(file);
    var t := Task(RenameProperty, "College", Node([], "rank", JStr("ranking")));
    var staged := map["College" := [map["ranking" := JNum(1)]]];
    CollegeChain();
    CollegeClassified();
    CollegeStaged();
    assert SpecObject(file) == Some(CollegeSpec());
    ghost var nodes, tasks := updater.Process(store, {});
    assert tasks == Some([t]);
    assert Plan(tasks, disk) == Some(staged);
    MergeCovered(disk, staged);
  }

  lemma MergeCovered(a: map<string, Collection>, b: map<string, Collection>)
    requires a.Keys <= b.Keys
    ensures a + b == b
  {
  }

  /** The College rename task stages `[{"ranking": 1}]` for `College`. */
  lemma CollegeStaged()
    ensures StageAll([Task(RenameProperty, "College", Node([], "rank", JStr("ranking")))], map[],
                     map["College" := [map["rank" := JNum(1)]]])
         == Some(map["College" := [map["ranking" := JNum(1)]]])
  {
    var t := Task(RenameProperty, "College", Node([], "rank", JStr("ranking")));
    var record := map["rank" := JNum(1)];
    assert TaskOperation(t) == Some(Operation([], RenameOp("rank", "ranking")));
    assert PerformOp(record, [], RenameOp("rank", "ranking")) == map["ranking" := JNum(1)];
    assert Staged(t, [record]) == [map["ranking" := JNum(1)]];
    assert [t][1..] == [];
  }
}
