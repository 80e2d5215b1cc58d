# Sticky schema migration, modelled in Dafny

Sticky is a Swift persistence library. It stores each entity type as a JSON
file holding an array of records. This project models its schema-migration
engine (`sticky/StickySchema.swift`). A migration file carries a version and
a JSON spec, keyed by action name (`renameEntity`, `renameProperty`,
`newProperty`, `removeProperty`). The engine flattens the spec into leaf
nodes, classifies each node into a task (action, entity, remaining path, key,
value), and rewrites every stored record of the task's entity. The rewrite
descends a key path and applies one of three leaf transforms. The engine
stages the rewritten collections in memory, writes them back and advances
the store's schema version.

Modules, one per file, follow the engine's structure:

- `JsonValues` (`json.dfy`): Swift's `Any`/`[String: Any]` as a closed JSON
  datatype, plus the `as? String` and `as? [String]` casts.
- `SchemaAction` (`action.dfy`): the four actions and their raw names.
- `Transforms` (`transforms.dfy`): `renameKey`, `removeKeys` and `newNode`.
  The closures they return become the `Transform` datatype, and `Apply` runs one.
- `PathOperation` (`pathop.dfy`): `performOperation`, the descent queue and
  the rebuild, as written.
- `Flatten` (`flatten.dfy`): `parseKeys`, including its path-trimming step.
- `Classify` (`classify.dfy`): `parseFirst`, `entityName`, `schemaData(for:)`
  and `parseSchema`.
- `Runner` (`runner.dfy`):
  - The class `Sticky` stands for the store behind `Sticky.shared`. It
    holds the entity files (an abstract map from entity name to records) and
    the current schema version.
  - `StickySchemaUpdater.process` is a method that changes that store.
  - It uses `stored`, the record loop, the memory staging and the write loop.
  - Also here: `processUpdates` and `checkUpdateNeeded`.

Swift dictionary iteration has no defined order. The model reflects this in
two places:

- The key loop of `parseKeys` picks its next key nondeterministically.
  Everything proved about it holds for every order: counts, multisets, and
  the exact result on one-key chains.
- The write loop of `process` also picks its next entity nondeterministically.

Where the code does less, or otherwise, than its own comments and names
suggest, the model follows the code:

- **The descent.** The comment above `performOperation`
  (`StickySchema.swift:327-331`) says it finds the node at the key path,
  performs the operation on that node, and returns the updated node. The code
  does more, and otherwise:
  - It transforms every nested object it reaches, not only the one at the
    end of the path (`TransformAtEveryLevelExample`). The root itself is
    only stored into (`PerformOpTopFrame`).
  - A key that does not lead to an object is skipped, not a stop. The next
    key is looked up at the same level (`DescentContinuesAfterMissExample`,
    `PerformOpFirstMiss`).
  - The rebuild then pairs the queued objects with the last keys of the
    path (`RebuildPairsWrongKeyExample`).
- **`renameEntity`.** `processRenameEntity` exists
  (`StickySchema.swift:442`), but `process` never calls it. A
  `renameEntity` task falls into the `default` of the record switch, so an
  empty collection is staged and then written over the entity's file
  (`Runner.RenameEntityClears`). So is a `removeProperty` or
  `renameProperty` task whose payload has the wrong shape
  (`Runner.MalformedPayloadClears`).
- **Writes.** The write loop has no undo. It stops at the first failed write
  and leaves the earlier writes in place, and the version is not advanced
  (`Runner.WriteAll`).
- **Flattening.** The comment "Drop invalid keys from path"
  (`StickySchema.swift:309`) describes the pop step. The code drops the last
  path element whenever that element is a key of the object being walked,
  which also fires when an object holds a key equal to the one it is stored
  under.
  - `Flatten.LeafBag` is the flattening in which every node's path is its
    full key chain.
  - `Flatten.ParseKeys` is proved equal to it, as a multiset, whenever the
    pop cannot misfire (`Flatten.EchoFree`).
  - `Flatten.EchoExample` shows a misfire.

## Model

| member | source | states |
|---|---|---|
| JsonValues.AsString | sticky/StickySchema.swift:138 | `as? String` succeeds exactly on a JSON string and yields its text |
| JsonValues.AsStringArray | sticky/StickySchema.swift:128 | `as? [String]` succeeds exactly on an array whose elements are all strings (empty included) and yields them in order |
| SchemaAction.ParseAction | sticky/StickySchema.swift:37-50 | a key is recognised exactly when it is one of the four raw names, and the recognised action's raw value is that key |
| SchemaAction.ParseRawValue | sticky/StickySchema.swift:37-50 | recognising an action's raw value gives back that action |
| Transforms.RenameKey | sticky/StickySchema.swift:364-373 | with `oldKey` present, `newKey` holds the old value and `oldKey` is gone, unless the two keys are equal, when the object is unchanged; with `oldKey` absent the object is unchanged; every other key keeps its presence and value |
| Transforms.NewNode | sticky/StickySchema.swift:385-391 | `key` holds the new value, overwriting any earlier one; the key set grows by `key` only; every other key keeps its value |
| Transforms.Without | sticky/StickySchema.swift:375-383 | a key survives exactly when it was present and is not listed, and keeps its value |
| Transforms.RemoveKeys | sticky/StickySchema.swift:375-383 | the key-by-key removal loop yields exactly the object without the listed keys |
| Transforms.WithoutIdempotent | sticky/StickySchema.swift:375-383 | removing the same keys twice equals removing them once |
| Transforms.Apply | sticky/StickySchema.swift:344 | running a transform's closure gives the transform's defined result |
| Transforms.AppliedFrame | sticky/StickySchema.swift:364-391 | a key a transform does not name keeps its presence and value |
| PathOperation.Descend | sticky/StickySchema.swift:341-348 | the descent keeps the queue it starts from as a prefix and adds at most one object per key |
| PathOperation.DescendLoop | sticky/StickySchema.swift:337-348 | the descent loop builds exactly the queue the descent function defines |
| PathOperation.RebuildLoop | sticky/StickySchema.swift:350-359 | the rebuild loop builds exactly the object the rebuild function defines, pairing keys from the end of the path with queue entries from the end |
| PathOperation.PerformOperation | sticky/StickySchema.swift:332-362 | returns the operation applied to the input on an empty path, and otherwise the descent followed by the rebuild |
| PathOperation.DescendMisses | sticky/StickySchema.swift:341-348 | when no key leads from the last queued object to an object, the descent queues nothing |
| PathOperation.PerformOpUnchanged | sticky/StickySchema.swift:332-362 | on a non-empty path none of whose keys leads from the root to an object, the input is returned unchanged |
| PathOperation.RebuildSkipsFirst | sticky/StickySchema.swift:351-357 | with fewer queued objects than keys, the rebuild never reaches the first key |
| PathOperation.PerformOpFirstMiss | sticky/StickySchema.swift:341-359 | on a path of two or more keys whose first key does not lead to an object, the result is that of the path without its first key |
| PathOperation.RebuildBase | sticky/StickySchema.swift:351-357 | when the queue is no longer than the keys, every key of the first queued object survives the rebuild, and those not among the keys keep their values |
| PathOperation.PerformOpTopFrame | sticky/StickySchema.swift:332-362 | on a non-empty path every key of the input survives, and every key not on the path keeps its value |
| PathOperation.PerformOpSingleKey | sticky/StickySchema.swift:332-362 | on a one-key path to an object, only that key changes, to the transformed child |
| PathOperation.DescendResolves | sticky/StickySchema.swift:341-348 | on a path where every key leads to an object, the descent queues the whole chain of transformed objects |
| PathOperation.RebuildMatchesFront | sticky/StickySchema.swift:351-357 | with as many queued objects as keys, rebuilding from the end equals nesting from the front, each object receiving the result under its own key |
| PathOperation.RebuildFrontChain | sticky/StickySchema.swift:351-357 | nesting the chain of a resolving path gives the object with every level transformed and re-stored under its own key |
| PathOperation.PerformOpAlong | sticky/StickySchema.swift:341-359 | on a resolving non-empty path, the result is the input with the transform applied at every object along the path and each ancestor rebuilt under its own key |
| PathOperation.TransformAtEveryLevelExample | sticky/StickySchema.swift:343-346 | `newNode` at path `a.b` of `{"a":{"b":{}}}` adds the key at both `a` and `a.b` |
| PathOperation.RebuildPairsWrongKeyExample | sticky/StickySchema.swift:351-356 | at path `a.b` of `{"a":{}}` the transformed `a` object ends up under `b`, and `a` is left as it was |
| PathOperation.DescentContinuesAfterMissExample | sticky/StickySchema.swift:341-347 | at path `a.b` of `{"b":{}}` the missing `a` is skipped and the object under `b` is still transformed |
| Flatten.Popped | sticky/StickySchema.swift:310-312 | the path loses its last element exactly when that element is a key of the object, and is otherwise kept as it is |
| Flatten.LeafCountInSplit | sticky/StickySchema.swift:303-307 | the leaf count of a key set does not depend on which key is walked first |
| Flatten.LeafBagInSplit | sticky/StickySchema.swift:303-307 | the intended leaves of a key set do not depend on which key is walked first |
| Flatten.ParseEntry | sticky/StickySchema.swift:308-321 | one turn of the key loop keeps the earlier nodes as prefix and appends as many nodes as the entry has leaves; it appends the entry's intended leaves when trimming cannot misfire, and the chain's leaf on a one-key chain |
| Flatten.LoopStep | sticky/StickySchema.swift:307-323 | one turn of the key loop keeps the loop invariant: count so far, intended leaves so far and path shape, and the one-key-chain result |
| Flatten.LeafKVInSplit | sticky/StickySchema.swift:303-307 | the keys and values of the leaves of a key set do not depend on which key is walked first |
| Flatten.ParseKeys | sticky/StickySchema.swift:302-325 | for every key order: `nodes` is a prefix of the result; exactly one node is appended per non-object value at any depth; the appended nodes' keys and values are, as a multiset, exactly those of the leaves; when trimming cannot misfire, the appended nodes are, as a multiset, the leaves with their full key chains; on a one-key chain the single appended node is the chain's leaf |
| Flatten.FlattenSingleLevel | sticky/StickySchema.swift:302-325 | a single-level object flattened from the empty path gives one node per key, each with an empty path, its key and its value |
| Flatten.SingleKey | sticky/StickySchema.swift:307-321 | a one-key object's leaves and chain leaf are those of its only entry |
| Flatten.CollegeChain | sticky/StickySchema.swift:302-325 | the College rename spec is a one-key chain ending in `rank: "ranking"` with path `renameProperty.College` |
| Flatten.RenamePropertyExample | sticky/StickySchema.swift:302-325 | `{"renameProperty":{"College":{"rank":"ranking"}}}` flattens to the single node with path `["renameProperty","College"]`, key `rank` and value `"ranking"` |
| Flatten.EchoExample | sticky/StickySchema.swift:310-312 | in `{"newProperty":{"User":{"User":{"age":1}}}}` the trimming misfires, and the emitted path is `["newProperty","User"]` |
| Flatten.EchoIntended | sticky/StickySchema.swift:302-325 | the intended flattening of that spec has path `["newProperty","User","User"]` |
| Classify.ParseFirst | sticky/StickySchema.swift:260-263 | fails exactly on an empty list, and otherwise the first element followed by the remaining list rebuilds the list |
| Classify.EntityName | sticky/StickySchema.swift:249-258 | never fails for string keys; with an empty path the entity is the node's key and the path stays empty; otherwise the entity followed by the remaining path rebuilds the path |
| Classify.Classified | sticky/StickySchema.swift:227-247 | a node fails exactly when its path is empty or its first element is not an action name; the key and value of a task's node are the node's |
| Classify.ClassifySpelled | sticky/StickySchema.swift:227-247 | a task spelled as action name, entity and remaining path is read back as that very task |
| Classify.ClassifySpelledShort | sticky/StickySchema.swift:250-252 | a task spelled as the action name alone is read back with the node's key as entity |
| Classify.ClassifiedSpelling | sticky/StickySchema.swift:227-247 | every node that classifies is the spelling of its task, so classification loses nothing |
| Classify.SchemaData | sticky/StickySchema.swift:227-247 | the step-by-step `schemaData(for:)` computes exactly the classification |
| Classify.ClassifiedAll | sticky/StickySchema.swift:217-225 | all-or-nothing: fails exactly when some node fails; otherwise one task per node, in node order |
| Classify.ParsedAll | sticky/StickySchema.swift:219-224 | a task list that classifies each node in turn is the all-or-nothing result |
| Classify.ParseSchema | sticky/StickySchema.swift:217-225 | the nodes are the flattening from the empty path (count, keys and values, intended multiset, one-key chain) and the result is their all-or-nothing classification |
| Classify.CollegeTasks | sticky/StickySchema.swift:217-247 | the College rename spec parses into the one `renameProperty` task on entity `College`, key `rank`, empty path |
| Runner.Sticky.Read | sticky/StickySchema.swift:176-178 | the disk read succeeds exactly when the entity has a file, and yields its records |
| Runner.Sticky.WriteJsonFile | sticky/StickySchema.swift:152 | a write succeeds exactly when it is not among the failing ones, and only then replaces the entity's file; the version is untouched |
| Runner.Sticky.ChangeSchemaVersion | sticky/StickySchema.swift:265-267 | the version is set and the files are untouched |
| Runner.SpecObject | sticky/StickySchema.swift:102-108 | the spec is available exactly when the file's contents are a JSON object |
| Runner.Stored | sticky/StickySchema.swift:172-189 | the staged collection comes first, then the disk; fails exactly when the entity has neither |
| Runner.TaskOperation | sticky/StickySchema.swift:126-144 | `removeProperty` with a string-array payload removes those keys at path plus the node's key; `newProperty` sets the node's key to its value at the node's path; `renameProperty` with a string payload renames the node's key to it at the node's path; `renameEntity` and a payload of the wrong shape build no operation, so the record is not appended |
| Runner.RemoveNeverAtTop | sticky/StickySchema.swift:128-131 | a `removeProperty` path is never empty and ends in the node's key, so on every record no top-level key is removed and those off the path keep their values |
| Runner.Staged | sticky/StickySchema.swift:118-147 | with an operation, the staged collection has the stored one's length and order, each record passed through `performOperation`; without one it is empty |
| Runner.UpdateRecord | sticky/StickySchema.swift:126-144 | the record switch appends the record transformed by the task's operation, or nothing |
| Runner.StageCollection | sticky/StickySchema.swift:119-146 | the record loop builds exactly the staged collection |
| Runner.StagedSnoc | sticky/StickySchema.swift:123-146 | one more stored record adds one more transformed record at the end, or nothing |
| Runner.StageAllFails | sticky/StickySchema.swift:121 | staging fails exactly when a task names an entity that is neither on disk nor staged earlier |
| Runner.StageAllKeys | sticky/StickySchema.swift:147 | successful staging stages exactly the entities of the tasks (plus what was staged before) |
| Runner.RenameEntityClears | sticky/StickySchema.swift:142-147 | a `renameEntity` task on an existing entity stages an empty collection for it |
| Runner.MalformedPayloadClears | sticky/StickySchema.swift:127-141 | a `removeProperty` task whose payload is not a string array, or a `renameProperty` task whose payload is not a string, stages an empty collection for an existing entity |
| Runner.Restrict | sticky/StickySchema.swift:151-156 | the written part of the staged files: the staged entities in the done set, with their staged records |
| Runner.StageTasks | sticky/StickySchema.swift:114-149 | the task loop, reading each entity from its memory store and else from its file, computes exactly the staging, failing when staging fails |
| Runner.WriteAll | sticky/StickySchema.swift:151-156 | succeeds exactly when no staged entity's write fails, and then the disk is the old disk overridden by every staged file; in any case the disk is the old disk overridden by some staged files that did not fail; the version is untouched |
| Runner.MigratedVersion | sticky/StickySchema.swift:151-159 | a run of `process` leaves the version where it was or moves it to the file's version |
| Runner.SchemaUpdater.Process | sticky/StickySchema.swift:99-160 | the run is `Migrated`: with no spec object, or failing classification or staging, nothing changes; otherwise some non-failing staged files are written, all of them and the version moved to the file's exactly when no write fails, the version kept otherwise; the tasks are the classification of a flattening of the spec |
| Runner.CheckUpdateNeeded | sticky/StickySchema.swift:91-93 | an update is needed exactly when the version differs from the store's |
| Runner.ConsSorted | sticky/StickySchema.swift:82 | a file no newer than a sorted list's head can go in front of it |
| Runner.Insert | sticky/StickySchema.swift:82 | insertion keeps the list sorted by version and adds the file to the multiset |
| Runner.SortByVersion | sticky/StickySchema.swift:81-82 | the files in ascending version order, as a permutation of the input |
| Runner.ProcessUpdates | sticky/StickySchema.swift:79-89 | the files are sorted by ascending version, and the store passes through a chain of states from the initial to the final one, each step a `Migrated` run of the next file in that order, with that run's own failing writes; the version ends at its old value or at the version of a processed file |
| Runner.CollegeStaged | sticky/StickySchema.swift:118-147 | the College rename task stages `[{"ranking": 1}]` from `[{"rank": 1}]` |
| Runner.CollegeMigration | sticky/StickySchema.swift:99-160 | a College file `[{"rank": 1}]` migrated at version 2 by the College rename spec becomes `[{"ranking": 1}]`, and the store reaches version 2 |

## Left out

- Reading the schema file and parsing it as JSON are not modelled (Foundation I/O and an external codec). A `SchemaFile` carries the parsed contents, or `None` when reading or parsing fails.
- Serialising collections and reading or writing entity files are not modelled. They become the abstract map `Sticky.files` plus the set of entities whose write fails. A serialisation error counts as a failing write.
- `processSchemaAction` and `processRenameEntity` are not modelled. They are a filesystem rename, and `process` never calls them.
- The commented-out code in `StickySchema.swift` is not modelled, because it is dead.
- Logging (`stickyLog`, `print`) is not modelled, because it is output only.
- `FileHandler.swift`, `Persistable.swift`, `StickyCollections.swift` and the app's view code are not part of this model. They are file, queue and UI plumbing.
- The singleton access `Sticky.shared` is not modelled. The store it returns is passed explicitly as a `Sticky` object.
- JSON numbers are unbounded integers. The engine never computes with numbers, so floating point is not modelled.
- Swift's generic `Key: Hashable` is always `String` in the engine's uses, so keys are strings. The `as? String` casts on keys in `entityName` and `processSchemaAction` therefore always succeed.
- Keys and strings compare as sequences of code points. Swift `String` equality uses Unicode canonical equivalence, so a precomposed and a decomposed "é" are the same key in Swift and different keys in the model.
- Numbers compare as integers. Swift's bridging of `Any` (for example `NSNumber` booleans) is not modelled.
- PathOperation.PerformOpUnchanged: it states that the input comes back unchanged only when no key of the path leads from the root to an object. A first key that misses is skipped and the later keys are still tried at the same level, so a single miss does not leave the input unchanged. `PerformOpFirstMiss` states what happens then.
- Flatten.ParseKeys: the nodes' paths are stated only when the path-trimming step cannot misfire (`EchoFree`), or on a one-key chain. In every other case the emitted paths can be wrong, and can depend on key order. The count, the prefix and the keys and values are stated for every input.
- Runner.SortByVersion: this is one particular sort. Swift's `sorted` is not guaranteed stable, so files with equal versions may be processed in a different order than the model's.
- Runner.SchemaUpdater.Process: the nodes and tasks it works on are ghost outputs. This is because flattening order follows Swift dictionary order, which the model leaves open. The staged files are stated as a function of those tasks.
- Runner.ProcessUpdates: the intermediate states and flattenings are ghost outputs, because each run's flattening follows Swift dictionary order, which the model leaves open.
