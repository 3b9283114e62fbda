/** The server read side of src/lib/server/repo/project.ts over the version-1 snapshot
    document of src/lib/types/project-snapshot-v1.ts.

    The database is a value: the rows of the `project` table and the rows of the
    `project_snapshot` table with their JSON bodies already parsed.  A query with
    `.limit(1)` returns the first matching row.  `uuidValid` is the parameter
    `isUuid`, a predicate on the textual form of RFC 9562 section 4 that this model
    does not define.  Thrown SvelteKit `error(status, message)` values become `Err`. */
module ProjectRepo {
  import opened Wrappers

  // ---------------------------------------------------------------- the V1 document

  datatype Codec = DefaultOpusV1 | DefaultWebpV1

  datatype MediaFile = MediaFile(filename: string, estimatedDurationMillis: Option<int>, codec: Codec)

  datatype Recording = Recording(exports: seq<MediaFile>)

  datatype Alternative = Alternative(
    id: string,
    name: string,
    description: Option<string>,
    modifiedAt: int,
    recording: Option<Recording>)

  datatype BlockV1 = BlockV1(
    id: string,
    name: string,
    description: Option<string>,
    disable: bool,
    alternatives: seq<Alternative>,
    currentAltId: string)

  datatype SnapshotData = SnapshotData(blocks: seq<BlockV1>)

  // ---------------------------------------------------------------- the stored rows

  datatype MediaType = Audio | Video

  datatype ProjectRow = ProjectRow(
    id: string,
    createdAt: int,
    name: string,
    description: Option<string>,
    mediaType: MediaType,
    userId: string)

  datatype SnapshotRow = SnapshotRow(projectId: string, body: SnapshotData)

  datatype Database = Database(projects: seq<ProjectRow>, snapshots: seq<SnapshotRow>)

  // ---------------------------------------------------------------- results

  datatype HttpError = HttpError(status: int, message: string)

  datatype Result<T> = Ok(value: T) | Err(error: HttpError)

  datatype BlockListItem = BlockListItem(
    id: string,
    name: string,
    currentAlternativeId: string,
    currentAlternativeName: string)

  datatype AlternativeListItem = AlternativeListItem(id: string, name: string)

  const InvalidProjectDetails := HttpError(404, "Invalid project ID")
  const InvalidProjectSnapshot := HttpError(404, "Ivalid project ID")
  const ProjectNotFound := HttpError(404, "Project not found")
  const MissingCurrentAlternative := HttpError(500, "Block missing current alternative!")
  const InvalidBlockId := HttpError(422, "Blockid not valid")

  // ---------------------------------------------------------------- queries

  /** `select * from project where id = projectId and user_id = userId limit 1` */
  function FindProjectRow(rows: seq<ProjectRow>, projectId: string, userId: string): (r: Option<ProjectRow>)
    ensures r.None? <==> forall i | 0 <= i < |rows| :: !(rows[i].id == projectId && rows[i].userId == userId)
    ensures r.Some? ==> r.value in rows && r.value.id == projectId && r.value.userId == userId
  {
    if |rows| == 0 then None
    else if rows[0].id == projectId && rows[0].userId == userId then Some(rows[0])
    else
      assert forall i | 1 <= i < |rows| :: rows[i] == rows[1..][i - 1];
      FindProjectRow(rows[1..], projectId, userId)
  }

  /** `select * from project_snapshot where project_id = projectId limit 1` */
  function FindSnapshotRow(rows: seq<SnapshotRow>, projectId: string): (r: Option<SnapshotRow>)
    ensures r.None? <==> forall i | 0 <= i < |rows| :: rows[i].projectId != projectId
    ensures r.Some? ==> r.value in rows && r.value.projectId == projectId
  {
    if |rows| == 0 then None
    else if rows[0].projectId == projectId then Some(rows[0])
    else
      assert forall i | 1 <= i < |rows| :: rows[i] == rows[1..][i - 1];
      FindSnapshotRow(rows[1..], projectId)
  }

  /** `getProjectDetails`: the project row owned by `userId`, or 404. */
  function GetProjectDetails(db: Database, isUuid: string -> bool, projectId: string, userId: string): (r: Result<ProjectRow>)
    ensures !isUuid(projectId) ==> r == Err(InvalidProjectDetails)
    ensures r.Ok? <==> isUuid(projectId) && exists i | 0 <= i < |db.projects| ::
      db.projects[i].id == projectId && db.projects[i].userId == userId
    ensures r.Ok? ==> r.value in db.projects && r.value.id == projectId && r.value.userId == userId
    ensures r.Err? && isUuid(projectId) ==> r.error == ProjectNotFound
  {
    if !isUuid(projectId) then Err(InvalidProjectDetails)
    else
      match FindProjectRow(db.projects, projectId, userId)
      case None => Err(ProjectNotFound)
      case Some(row) => Ok(row)
  }

  /** `getProjectSnapshot`: the body of a snapshot row of this project, or 404. */
  function GetProjectSnapshot(db: Database, isUuid: string -> bool, projectId: string): (r: Result<SnapshotData>)
    ensures !isUuid(projectId) ==> r == Err(InvalidProjectSnapshot)
    ensures r.Ok? <==> isUuid(projectId) && exists i | 0 <= i < |db.snapshots| :: db.snapshots[i].projectId == projectId
    ensures r.Ok? ==> SnapshotRow(projectId, r.value) in db.snapshots
    ensures r.Err? ==> r.error.status == 404
  {
    if !isUuid(projectId) then Err(InvalidProjectSnapshot)
    else
      match FindSnapshotRow(db.snapshots, projectId)
      case None => Err(ProjectNotFound)
      case Some(row) => Ok(row.body)
  }

  // ---------------------------------------------------------------- projections

  /** Some alternative in the list has this id. */
  predicate HasAlternative(alts: seq<Alternative>, altId: string) {
    exists i | 0 <= i < |alts| :: alts[i].id == altId
  }

  /** `block.alternatives.find(i => block.currentAltId === i.id)` */
  function FindAlternative(alts: seq<Alternative>, altId: string): (r: Option<Alternative>)
    ensures r.None? <==> !HasAlternative(alts, altId)
    ensures r.Some? ==> r.value.id == altId && exists i | 0 <= i < |alts| ::
      alts[i] == r.value && forall j | 0 <= j < i :: alts[j].id != altId
  {
    if |alts| == 0 then None
    else if alts[0].id == altId then Some(alts[0])
    else
      var r := FindAlternative(alts[1..], altId);
      assert forall i | 1 <= i < |alts| :: alts[i] == alts[1..][i - 1];
      if r.Some? then
        var k :| 0 <= k < |alts[1..]| && alts[1..][k] == r.value && forall j | 0 <= j < k :: alts[1..][j].id != altId;
        assert alts[k + 1] == r.value;
        r
      else r
  }

  /** The list item of one block whose current alternative resolves. */
  predicate ItemDescribes(item: BlockListItem, block: BlockV1) {
    && item.id == block.id
    && item.name == block.name
    && item.currentAlternativeId == block.currentAltId
    && FindAlternative(block.alternatives, block.currentAltId).Some?
    && item.currentAlternativeName == FindAlternative(block.alternatives, block.currentAltId).value.name
  }

  /** The `blocks.map(...)` of `getBlockList`: one item per block in order, or 500 as soon
      as a block's current alternative is missing. */
  function BlockItems(blocks: seq<BlockV1>): (r: Result<seq<BlockListItem>>)
    ensures r.Err? <==> exists i | 0 <= i < |blocks| :: !HasAlternative(blocks[i].alternatives, blocks[i].currentAltId)
    ensures r.Err? ==> r.error == MissingCurrentAlternative
    ensures r.Ok? ==> |r.value| == |blocks| && forall i | 0 <= i < |blocks| :: ItemDescribes(r.value[i], blocks[i])
  {
    if |blocks| == 0 then Ok([])
    else
      var block := blocks[0];
      assert forall i | 1 <= i < |blocks| :: blocks[i] == blocks[1..][i - 1];
      match FindAlternative(block.alternatives, block.currentAltId)
      case None => Err(MissingCurrentAlternative)
      case Some(alt) =>
        var item := BlockListItem(block.id, block.name, alt.id, alt.name);
        match BlockItems(blocks[1..])
        case Err(e) => Err(e)
        case Ok(rest) => Ok([item] + rest)
  }

  /** `getBlockList`: the snapshot is loaded first, then projected. */
  function GetBlockList(db: Database, isUuid: string -> bool, projectId: string): (r: Result<seq<BlockListItem>>)
    ensures GetProjectSnapshot(db, isUuid, projectId).Err? ==> r == Err(GetProjectSnapshot(db, isUuid, projectId).error)
    ensures GetProjectSnapshot(db, isUuid, projectId).Ok? ==> r == BlockItems(GetProjectSnapshot(db, isUuid, projectId).value.blocks)
  {
    match GetProjectSnapshot(db, isUuid, projectId)
    case Err(e) => Err(e)
    case Ok(snapshot) => BlockItems(snapshot.blocks)
  }

  /** A stored document whose every block resolves its current alternative (every block's
      `currentAltId` names one of its alternatives) is listed in full: one item per block,
      in order. */
  lemma GetBlockListOnConsistentDocument(db: Database, isUuid: string -> bool, projectId: string)
    requires GetProjectSnapshot(db, isUuid, projectId).Ok?
    requires var blocks := GetProjectSnapshot(db, isUuid, projectId).value.blocks;
             forall i | 0 <= i < |blocks| :: HasAlternative(blocks[i].alternatives, blocks[i].currentAltId)
    ensures GetBlockList(db, isUuid, projectId).Ok?
    ensures var blocks := GetProjectSnapshot(db, isUuid, projectId).value.blocks;
            var items := GetBlockList(db, isUuid, projectId).value;
            |items| == |blocks| &&
            forall i | 0 <= i < |blocks| :: items[i].id == blocks[i].id && items[i].currentAlternativeId == blocks[i].currentAltId
  {
    var blocks := GetProjectSnapshot(db, isUuid, projectId).value.blocks;
    var items := BlockItems(blocks).value;
    forall i | 0 <= i < |blocks| ensures items[i].id == blocks[i].id && items[i].currentAlternativeId == blocks[i].currentAltId {
      assert ItemDescribes(items[i], blocks[i]);
    }
  }

  /** The `{id, name}` items of a block's alternatives, in order. */
  function AlternativeItems(alts: seq<Alternative>): (r: seq<AlternativeListItem>)
    ensures |r| == |alts|
    ensures forall i | 0 <= i < |alts| :: r[i] == AlternativeListItem(alts[i].id, alts[i].name)
  {
    seq(|alts|, i requires 0 <= i < |alts| => AlternativeListItem(alts[i].id, alts[i].name))
  }

  /** The first block with this id. */
  function FindBlockV1(blocks: seq<BlockV1>, blockId: string): (r: Option<BlockV1>)
    ensures r.None? <==> forall i | 0 <= i < |blocks| :: blocks[i].id != blockId
    ensures r.Some? ==> r.value.id == blockId && exists i | 0 <= i < |blocks| ::
      blocks[i] == r.value && forall j | 0 <= j < i :: blocks[j].id != blockId
  {
    if |blocks| == 0 then None
    else if blocks[0].id == blockId then Some(blocks[0])
    else
      var r := FindBlockV1(blocks[1..], blockId);
      assert forall i | 1 <= i < |blocks| :: blocks[i] == blocks[1..][i - 1];
      if r.Some? then
        var k :| 0 <= k < |blocks[1..]| && blocks[1..][k] == r.value && forall j | 0 <= j < k :: blocks[1..][j].id != blockId;
        assert blocks[k + 1] == r.value;
        r
      else r
  }

  /** `getAlternativeList`: load the snapshot (404s first), then reject a malformed block id
      with 422, then list the alternatives of the first block with that id, or nothing. */
  function GetAlternativeList(db: Database, isUuid: string -> bool, projectId: string, blockId: string)
    : (r: Result<seq<AlternativeListItem>>)
    ensures GetProjectSnapshot(db, isUuid, projectId).Err? ==> r == Err(GetProjectSnapshot(db, isUuid, projectId).error)
    ensures GetProjectSnapshot(db, isUuid, projectId).Ok? && !isUuid(blockId) ==> r == Err(InvalidBlockId)
    ensures GetProjectSnapshot(db, isUuid, projectId).Ok? && isUuid(blockId) ==> r.Ok?
    ensures r.Ok? ==>
      var blocks := GetProjectSnapshot(db, isUuid, projectId).value.blocks;
      match FindBlockV1(blocks, blockId)
      case None => r.value == []
      case Some(block) => r.value == AlternativeItems(block.alternatives)
  {
    match GetProjectSnapshot(db, isUuid, projectId)
    case Err(e) => Err(e)
    case Ok(snapshot) =>
      if !isUuid(blockId) then Err(InvalidBlockId)
      else
        match FindBlockV1(snapshot.blocks, blockId)
        case None => Ok([])
        case Some(block) => Ok(AlternativeItems(block.alternatives))
  }

  /** A malformed project id is reported as 404 whatever the block id: the project is
      checked before the block. */
  lemma AlternativeListChecksProjectFirst(db: Database, isUuid: string -> bool, projectId: string, blockId: string)
    requires !isUuid(projectId)
    ensures GetAlternativeList(db, isUuid, projectId, blockId) == Err(InvalidProjectSnapshot)
    ensures GetBlockList(db, isUuid, projectId) == Err(InvalidProjectSnapshot)
  {
  }
}
