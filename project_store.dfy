/** The per-project client store of src/lib/services/project-store.ts.

    The Svelte writable `_state` becomes the field `state`; IndexedDB is an oracle:
    each call that touches it receives the outcome of that call (`None` when it
    completed, `Some(thrown)` when it threw), and every completed write is
    appended to the log `writes`.  `crypto.randomUUID()` becomes a parameter. */
module ProjectStore {
  import opened Wrappers
  import opened Blocks
  import opened ErrorHandler

  datatype SnapshotData = SnapshotData(blocks: seq<Block>)

  datatype Snapshot = Snapshot(snapshotId: string, projectId: string, version: int, data: SnapshotData)

  datatype ProjectState = ProjectState(
    projectId: string,
    currentSnapshot: Option<Snapshot>,
    isLoading: bool,
    error: Option<string>)

  /** A completed write to IndexedDB. */
  datatype DbWrite = PutSnapshot(snapshot: Snapshot) | PutMedia(mediaId: string, projectId: string)

  /** What `getCurrentSnapshot` produced: a stored snapshot, none, or a thrown value. */
  datatype Fetched = Found(snapshot: Snapshot) | Missing | FetchThrew(thrown: Thrown)

  const NoSnapshotMessage: string := "No current snapshot"

  /** The snapshot `loadProject` installs when none is stored. */
  function DefaultSnapshot(projectId: string): Snapshot {
    Snapshot("current", projectId, 1, SnapshotData([]))
  }

  /** `blocks.filter(block => block.blockId !== blockId)` */
  function WithoutBlock(blocks: seq<Block>, blockId: string): (r: seq<Block>)
    ensures |r| <= |blocks|
    ensures forall b :: b in r <==> b in blocks && b.blockId != blockId
  {
    if |blocks| == 0 then []
    else
      var rest := WithoutBlock(blocks[1..], blockId);
      assert forall b :: b in blocks <==> b == blocks[0] || b in blocks[1..];
      if blocks[0].blockId == blockId then rest else [blocks[0]] + rest
  }

  /** The survivors keep their relative order: filtering distributes over concatenation,
      and a list without the id is left as it is. */
  lemma {:induction false} WithoutBlockOrder(a: seq<Block>, b: seq<Block>, blockId: string)
    ensures WithoutBlock(a + b, blockId) == WithoutBlock(a, blockId) + WithoutBlock(b, blockId)
    ensures !HasBlock(a, blockId) ==> WithoutBlock(a, blockId) == a
  {
    if |a| > 0 {
      assert (a + b)[1..] == a[1..] + b;
      WithoutBlockOrder(a[1..], b, blockId);
      if !HasBlock(a, blockId) {
        assert !HasBlock(a[1..], blockId) by {
          forall i | 0 <= i < |a[1..]| ensures a[1..][i].blockId != blockId {
            assert a[1..][i] == a[i + 1];
          }
        }
        assert a[0].blockId != blockId;
        assert a == [a[0]] + a[1..];
      }
    } else {
      assert a + b == b;
    }
  }

  /** The derived `blocks` store: the snapshot's blocks, or [] without a snapshot. */
  function BlocksOf(state: ProjectState): (blocks: seq<Block>)
    ensures state.currentSnapshot.None? ==> blocks == []
    ensures state.currentSnapshot.Some? ==> blocks == state.currentSnapshot.value.data.blocks
  {
    if state.currentSnapshot.Some? then state.currentSnapshot.value.data.blocks else []
  }

  /** The derived `isLoaded` store. */
  predicate IsLoaded(state: ProjectState): (r: bool)
    ensures r <==> !state.isLoading && state.currentSnapshot.Some?
  {
    !state.isLoading && state.currentSnapshot.Some?
  }

  /** `getBlockById` on a state: the first block with this id, or null. */
  function BlockById(state: ProjectState, blockId: string): (r: Option<Block>)
    ensures r.None? <==> !HasBlock(BlocksOf(state), blockId)
    ensures r.Some? ==> r.value.blockId == blockId && exists i | 0 <= i < |BlocksOf(state)| ::
      BlocksOf(state)[i] == r.value && forall j | 0 <= j < i :: BlocksOf(state)[j].blockId != blockId
  {
    var blocks := BlocksOf(state);
    var i := FindBlockIndex(blocks, blockId);
    if i == -1 then None else Some(blocks[i])
  }

  // ---------------------------------------------------------------- toPlainObject

  /** A JavaScript value as `toPlainObject` sees it; `own` tells an own property from an
      inherited enumerable one. */
  datatype JsValue =
    | JsUndefined
    | JsNull
    | JsBool(b: bool)
    | JsNumber(n: int)
    | JsString(s: string)
    | JsArray(items: seq<JsValue>)
    | JsObject(props: seq<Property>)

  datatype Property = Property(key: string, own: bool, value: JsValue)

  /** The own properties among `props`, in order: what `for … in` together with
      `hasOwnProperty` visits. */
  function OwnOnly(props: seq<Property>): (r: seq<Property>)
    ensures |r| <= |props|
    ensures forall p :: p in r <==> p in props && p.own
  {
    if |props| == 0 then []
    else
      assert forall p :: p in props <==> p == props[0] || p in props[1..];
      (if props[0].own then [props[0]] else []) + OwnOnly(props[1..])
  }

  /** `toPlainObject`: arrays element by element, objects through their own properties only. */
  function ToPlainObject(v: JsValue): (r: JsValue)
    ensures v.JsArray? <==> r.JsArray?
    ensures v.JsArray? ==> |r.items| == |v.items|
    ensures v.JsArray? ==> forall i | 0 <= i < |v.items| :: r.items[i] == ToPlainObject(v.items[i])
    ensures v.JsObject? <==> r.JsObject?
    ensures v.JsObject? ==> && |r.props| == |OwnOnly(v.props)|
                            && forall i | 0 <= i < |r.props| ::
                                 r.props[i] == Property(OwnOnly(v.props)[i].key, true, ToPlainObject(OwnOnly(v.props)[i].value))
    ensures !v.JsArray? && !v.JsObject? ==> r == v
    decreases v, 1
  {
    match v
    case JsArray(items) => JsArray(PlainItems(items))
    case JsObject(props) => JsObject(PlainProps(props))
    case _ => v
  }

  function PlainItems(items: seq<JsValue>): (r: seq<JsValue>)
    ensures |r| == |items|
    ensures forall i | 0 <= i < |items| :: r[i] == ToPlainObject(items[i])
    decreases items, 0
  {
    if |items| == 0 then [] else [ToPlainObject(items[0])] + PlainItems(items[1..])
  }

  function PlainProps(props: seq<Property>): (r: seq<Property>)
    ensures |r| == |OwnOnly(props)|
    ensures forall i | 0 <= i < |r| :: r[i] == Property(OwnOnly(props)[i].key, true, ToPlainObject(OwnOnly(props)[i].value))
    decreases props, 0
  {
    if |props| == 0 then []
    else if props[0].own then [Property(props[0].key, true, ToPlainObject(props[0].value))] + PlainProps(props[1..])
    else PlainProps(props[1..])
  }

  /** A value with no inherited property anywhere inside. */
  predicate IsPlain(v: JsValue)
    decreases v, 1
  {
    match v
    case JsArray(items) => AllPlain(items)
    case JsObject(props) => AllOwnPlain(props)
    case _ => true
  }

  predicate AllPlain(items: seq<JsValue>)
    decreases items, 0
  {
    |items| > 0 ==> IsPlain(items[0]) && AllPlain(items[1..])
  }

  predicate AllOwnPlain(props: seq<Property>)
    decreases props, 0
  {
    |props| > 0 ==> props[0].own && IsPlain(props[0].value) && AllOwnPlain(props[1..])
  }

  /** The copy is plain, and a plain value is copied unchanged, so copying twice is copying
      once.  What the copy keeps of any other value (every array element, every own property)
      is stated by the contracts of `ToPlainObject`, `PlainItems` and `PlainProps`. */
  lemma {:induction false} ToPlainObjectCopies(v: JsValue)
    ensures IsPlain(ToPlainObject(v))
    ensures IsPlain(v) ==> ToPlainObject(v) == v
    decreases v, 1
  {
    match v
    case JsArray(items) => PlainItemsCopies(items);
    case JsObject(props) => PlainPropsCopies(props);
    case _ =>
  }

  lemma {:induction false} PlainItemsCopies(items: seq<JsValue>)
    ensures AllPlain(PlainItems(items))
    ensures AllPlain(items) ==> PlainItems(items) == items
    decreases items, 0
  {
    if |items| > 0 {
      ToPlainObjectCopies(items[0]);
      PlainItemsCopies(items[1..]);
      var r := PlainItems(items);
      assert r[0] == ToPlainObject(items[0]) && r[1..] == PlainItems(items[1..]);
      if AllPlain(items) {
        assert items == [items[0]] + items[1..];
      }
    }
  }

  lemma {:induction false} PlainPropsCopies(props: seq<Property>)
    ensures AllOwnPlain(PlainProps(props))
    ensures AllOwnPlain(props) ==> PlainProps(props) == props
    ensures forall p | p in props && p.own :: Property(p.key, true, ToPlainObject(p.value)) in PlainProps(props)
    decreases props, 0
  {
    PlainPropsKeepsOwn(props);
    if |props| > 0 {
      ToPlainObjectCopies(props[0].value);
      PlainPropsCopies(props[1..]);
      if props[0].own {
        var r := PlainProps(props);
        assert r[0] == Property(props[0].key, true, ToPlainObject(props[0].value));
        assert r[1..] == PlainProps(props[1..]);
        if AllOwnPlain(props) {
          assert props == [props[0]] + props[1..];
        }
      }
    }
  }

  /** Inherited properties are dropped: copying a property list is copying its own
      properties alone. */
  lemma {:induction false} PlainPropsDropsInherited(props: seq<Property>)
    ensures PlainProps(props) == PlainProps(OwnOnly(props))
    decreases |props|
  {
    if |props| > 0 {
      PlainPropsDropsInherited(props[1..]);
      var rest := OwnOnly(props[1..]);
      if props[0].own {
        var head := Property(props[0].key, true, ToPlainObject(props[0].value));
        assert OwnOnly(props) == [props[0]] + rest;
        assert ([props[0]] + rest)[0] == props[0] && ([props[0]] + rest)[1..] == rest;
        assert PlainProps([props[0]] + rest) == [head] + PlainProps(rest);
        assert PlainProps(props) == [head] + PlainProps(props[1..]);
      } else {
        assert OwnOnly(props) == [] + rest == rest;
        assert PlainProps(props) == PlainProps(props[1..]);
      }
    }
  }

  /** Every own property survives the copy, with its key and a copy of its value. */
  lemma PlainPropsKeepsOwn(props: seq<Property>)
    ensures forall p | p in props && p.own :: Property(p.key, true, ToPlainObject(p.value)) in PlainProps(props)
  {
    forall p | p in props && p.own
      ensures Property(p.key, true, ToPlainObject(p.value)) in PlainProps(props)
    {
      var own := OwnOnly(props);
      assert p in own;
      var i :| 0 <= i < |own| && own[i] == p;
      assert PlainProps(props)[i] == Property(p.key, true, ToPlainObject(p.value));
    }
  }

  // ---------------------------------------------------------------- the store

  class ProjectStore {
    /** The constructor's `projectId` parameter property. */
    const projectId: string
    var state: ProjectState
    /** The completed IndexedDB writes, oldest first. */
    var writes: seq<DbWrite>

    constructor (projectId: string)
      ensures this.projectId == projectId
      ensures state == ProjectState(projectId, None, false, None)
      ensures writes == []
    {
      this.projectId := projectId;
      state := ProjectState(projectId, None, false, None);
      writes := [];
    }

    /** `saveSnapshot`: write the current snapshot (as a plain copy) unless the write throws. */
    method SaveSnapshot(save: Option<Thrown>) returns (thrown: Option<Thrown>)
      requires state.currentSnapshot.Some?
      modifies this`writes
      ensures thrown == save
      ensures writes == old(writes) + (if save.None? then [PutSnapshot(state.currentSnapshot.value)] else [])
    {
      if save.None? {
        writes := writes + [PutSnapshot(state.currentSnapshot.value)];
      }
      thrown := save;
    }

    /** `loadProject`: install the stored snapshot, or a default one that is then saved;
        on a failure keep the message.  Loading always ends with `isLoading` false. */
    method LoadProject(fetched: Fetched, save: Option<Thrown>)
      modifies this`state, this`writes
      ensures !state.isLoading
      ensures state.projectId == old(state.projectId)
      ensures fetched.Found? || fetched.Missing? ==> IsLoaded(state)
      ensures fetched.FetchThrew? ==> (IsLoaded(state) <==> old(state.currentSnapshot).Some?)
      ensures fetched.Found? ==>
        state.currentSnapshot == Some(fetched.snapshot) && state.error.None? && writes == old(writes)
      ensures fetched.Missing? ==> state.currentSnapshot == Some(DefaultSnapshot(projectId))
      ensures fetched.Missing? && save.None? ==>
        state.error.None? && writes == old(writes) + [PutSnapshot(DefaultSnapshot(projectId))]
      ensures fetched.Missing? && save.Some? ==>
        state.error == Some(ErrorMessageOr(save.value, "Failed to load project")) && writes == old(writes)
      ensures fetched.FetchThrew? ==>
        && state.currentSnapshot == old(state.currentSnapshot)
        && state.error == Some(ErrorMessageOr(fetched.thrown, "Failed to load project"))
        && writes == old(writes)
    {
      state := state.(isLoading := true, error := None);
      match fetched {
        case FetchThrew(t) =>
          state := state.(error := Some(ErrorMessageOr(t, "Failed to load project")), isLoading := false);
        case Found(snapshot) =>
          state := state.(currentSnapshot := Some(snapshot), isLoading := false);
        case Missing =>
          state := state.(currentSnapshot := Some(DefaultSnapshot(projectId)), isLoading := false);
          var thrown := SaveSnapshot(save);
          if thrown.Some? {
            state := state.(error := Some(ErrorMessageOr(thrown.value, "Failed to load project")), isLoading := false);
          }
      }
    }

    /** `addMediaToProject`: record the media, then append one new block holding it. */
    method AddMediaToProject(mediaId: string, newBlockId: string, addMedia: Option<Thrown>, save: Option<Thrown>)
      modifies this`state, this`writes
      ensures state.projectId == old(state.projectId) && state.isLoading == old(state.isLoading)
      ensures addMedia.Some? ==>
        && state == old(state).(error := Some(ErrorMessageOr(addMedia.value, "Failed to add media")))
        && writes == old(writes)
      ensures addMedia.None? && old(state.currentSnapshot).None? ==>
        && state == old(state).(error := Some(NoSnapshotMessage))
        && writes == old(writes) + [PutMedia(mediaId, projectId)]
      ensures addMedia.None? && old(state.currentSnapshot).Some? ==>
        && state.currentSnapshot.Some?
        && state.currentSnapshot.value == old(state.currentSnapshot.value).(data := SnapshotData(
             old(BlocksOf(state)) + [CreateBlock(newBlockId, mediaId)]))
        && state.error == (if save.None? then old(state.error) else Some(ErrorMessageOr(save.value, "Failed to add media")))
        && writes == old(writes) + [PutMedia(mediaId, projectId)]
                     + (if save.None? then [PutSnapshot(state.currentSnapshot.value)] else [])
    {
      if addMedia.Some? {
        state := state.(error := Some(ErrorMessageOr(addMedia.value, "Failed to add media")));
        return;
      }
      writes := writes + [PutMedia(mediaId, projectId)];
      var newBlock := CreateBlock(newBlockId, mediaId);
      if state.currentSnapshot.None? {
        state := state.(error := Some(NoSnapshotMessage));
        return;
      }
      var snapshot := state.currentSnapshot.value;
      state := state.(currentSnapshot := Some(snapshot.(data := SnapshotData(snapshot.data.blocks + [newBlock]))));
      var thrown := SaveSnapshot(save);
      if thrown.Some? {
        state := state.(error := Some(ErrorMessageOr(thrown.value, "Failed to add media")));
      }
    }

    /** `reorderBlocks`: the block list becomes exactly the given list. */
    method ReorderBlocks(newBlocks: seq<Block>, save: Option<Thrown>)
      modifies this`state, this`writes
      ensures old(state.currentSnapshot).None? ==>
        state == old(state).(error := Some(NoSnapshotMessage)) && writes == old(writes)
      ensures old(state.currentSnapshot).Some? ==>
        && state.currentSnapshot == Some(old(state.currentSnapshot.value).(data := SnapshotData(newBlocks)))
        && state == old(state).(currentSnapshot := state.currentSnapshot, error := state.error)
        && state.error == (if save.None? then old(state.error) else Some(ErrorMessageOr(save.value, "Failed to reorder blocks")))
        && writes == old(writes) + (if save.None? then [PutSnapshot(state.currentSnapshot.value)] else [])
    {
      if state.currentSnapshot.None? {
        state := state.(error := Some(NoSnapshotMessage));
        return;
      }
      var snapshot := state.currentSnapshot.value;
      state := state.(currentSnapshot := Some(snapshot.(data := SnapshotData(newBlocks))));
      var thrown := SaveSnapshot(save);
      if thrown.Some? {
        state := state.(error := Some(ErrorMessageOr(thrown.value, "Failed to reorder blocks")));
      }
    }

    /** `removeBlock`: drop every block with this id, keeping the others in order. */
    method RemoveBlock(blockId: string, save: Option<Thrown>)
      modifies this`state, this`writes
      ensures old(state.currentSnapshot).None? ==>
        state == old(state).(error := Some(NoSnapshotMessage)) && writes == old(writes)
      ensures old(state.currentSnapshot).Some? ==>
        && state.currentSnapshot == Some(old(state.currentSnapshot.value).(data := SnapshotData(WithoutBlock(old(BlocksOf(state)), blockId))))
        && state == old(state).(currentSnapshot := state.currentSnapshot, error := state.error)
        && state.error == (if save.None? then old(state.error) else Some(ErrorMessageOr(save.value, "Failed to remove block")))
        && writes == old(writes) + (if save.None? then [PutSnapshot(state.currentSnapshot.value)] else [])
    {
      if state.currentSnapshot.None? {
        state := state.(error := Some(NoSnapshotMessage));
        return;
      }
      var snapshot := state.currentSnapshot.value;
      state := state.(currentSnapshot := Some(snapshot.(data := SnapshotData(WithoutBlock(snapshot.data.blocks, blockId)))));
      var thrown := SaveSnapshot(save);
      if thrown.Some? {
        state := state.(error := Some(ErrorMessageOr(thrown.value, "Failed to remove block")));
      }
    }

    /** `getBlockById` */
    function GetBlockById(blockId: string): (r: Option<Block>)
      reads this
      ensures r.None? <==> !HasBlock(BlocksOf(state), blockId)
      ensures r.Some? ==> r.value.blockId == blockId && exists i | 0 <= i < |BlocksOf(state)| ::
        BlocksOf(state)[i] == r.value && forall j | 0 <= j < i :: BlocksOf(state)[j].blockId != blockId
    {
      BlockById(state, blockId)
    }

    /** `clearError` */
    method ClearError()
      modifies this`state
      ensures state == old(state).(error := None)
    {
      state := state.(error := None);
    }
  }

  /** After a successful `addMediaToProject` the new block is found by its id, is valid
      when the media id is non-empty, and the earlier blocks are still there, in order. */
  lemma AddedBlockIsFound(blocks: seq<Block>, newBlockId: string, mediaId: string)
    requires !HasBlock(blocks, newBlockId)
    requires newBlockId != "" && mediaId != ""
    ensures var after := blocks + [CreateBlock(newBlockId, mediaId)];
            && FindBlockIndex(after, newBlockId) == |blocks|
            && after[..|blocks|] == blocks
            && ValidBlock(after[|blocks|])
  {
    var after := blocks + [CreateBlock(newBlockId, mediaId)];
    assert after[|blocks|].blockId == newBlockId;
    assert forall i | 0 <= i < |blocks| :: after[i] == blocks[i];
    CreateBlockValid(newBlockId, mediaId);
  }

  /** Removing a block id makes every lookup of it fail and leaves other lookups as they were. */
  lemma RemovedBlockIsGone(state: ProjectState, blockId: string, other: string)
    requires state.currentSnapshot.Some?
    requires other != blockId
    ensures var s := state.currentSnapshot.value;
            var after := state.(currentSnapshot := Some(s.(data := SnapshotData(WithoutBlock(s.data.blocks, blockId)))));
            BlockById(after, blockId).None? && (BlockById(after, other).Some? <==> BlockById(state, other).Some?)
  {
    var s := state.currentSnapshot.value;
    var after := state.(currentSnapshot := Some(s.(data := SnapshotData(WithoutBlock(s.data.blocks, blockId)))));
    var r := WithoutBlock(s.data.blocks, blockId);
    assert !HasBlock(r, blockId) by {
      forall i | 0 <= i < |r| ensures r[i].blockId != blockId {
        assert r[i] in r;
      }
    }
    if HasBlock(s.data.blocks, other) {
      var i :| 0 <= i < |s.data.blocks| && s.data.blocks[i].blockId == other;
      assert s.data.blocks[i] in r;
      var j :| 0 <= j < |r| && r[j] == s.data.blocks[i];
    }
    if HasBlock(r, other) {
      var i :| 0 <= i < |r| && r[i].blockId == other;
      assert r[i] in s.data.blocks;
      var j :| 0 <= j < |s.data.blocks| && s.data.blocks[j] == r[i];
    }
  }

  /** `ProjectStore.getInstance`: one store per project id, created on first use. */
  class ProjectStoreRegistry {
    var instances: map<string, ProjectStore>

    ghost predicate Valid()
      reads this
    {
      forall id | id in instances :: instances[id].projectId == id
    }

    constructor ()
      ensures Valid() && instances == map[]
    {
      instances := map[];
    }

    method GetInstance(projectId: string) returns (store: ProjectStore)
      requires Valid()
      modifies this
      ensures Valid()
      ensures store.projectId == projectId
      ensures projectId in old(instances) ==> store == old(instances)[projectId] && instances == old(instances)
      ensures projectId !in old(instances) ==>
        fresh(store) && store.state == ProjectState(projectId, None, false, None) && store.writes == []
      ensures instances == old(instances)[projectId := store]
    {
      if projectId !in instances {
        var created := new ProjectStore(projectId);
        instances := instances[projectId := created];
      }
      store := instances[projectId];
    }
  }

  /** Asking the registry twice for the same id gives the same store. */
  method GetInstanceTwice(registry: ProjectStoreRegistry, projectId: string) returns (first: ProjectStore, second: ProjectStore)
    requires registry.Valid()
    modifies registry
    ensures first == second && first.projectId == projectId
  {
    first := registry.GetInstance(projectId);
    second := registry.GetInstance(projectId);
  }
}
