/** The client-side block-list algebra of src/lib/services/block-manager.ts.

    A block holds a list of media references and names one of them as current.
    The lookups and updates are pure; `validateBlocks` accumulates its findings
    in a loop; `updateConfig` overwrites the manager's configuration field. */
module Blocks {
  import opened Wrappers

  datatype MediaRef = MediaRef(mediaId: string)

  datatype Block = Block(blockId: string, media: seq<MediaRef>, currentMediaId: string)

  /** `media.some(m => m.mediaId === mediaId)` */
  predicate HasMedia(media: seq<MediaRef>, mediaId: string) {
    exists i | 0 <= i < |media| :: media[i].mediaId == mediaId
  }

  /** Some block carries this id. */
  predicate HasBlock(blocks: seq<Block>, blockId: string) {
    exists i | 0 <= i < |blocks| :: blocks[i].blockId == blockId
  }

  /** The invariant every block should satisfy: it has an id, it has media, and its
      current media id is non-empty and is one of its media. */
  predicate ValidBlock(b: Block) {
    && b.blockId != ""
    && |b.media| > 0
    && b.currentMediaId != ""
    && HasMedia(b.media, b.currentMediaId)
  }

  /** No media id occurs twice in the list. */
  predicate DistinctMedia(media: seq<MediaRef>) {
    forall i, j | 0 <= i < j < |media| :: media[i].mediaId != media[j].mediaId
  }

  // ---------------------------------------------------------------- lookups

  /** `findBlockIndex`: the index of the first block with this id, or -1. */
  function FindBlockIndex(blocks: seq<Block>, blockId: string): (r: int)
    ensures -1 <= r < |blocks|
    ensures r == -1 <==> !HasBlock(blocks, blockId)
    ensures 0 <= r ==> blocks[r].blockId == blockId
    ensures 0 <= r ==> forall i | 0 <= i < r :: blocks[i].blockId != blockId
  {
    if |blocks| == 0 then -1
    else if blocks[0].blockId == blockId then 0
    else
      var k := FindBlockIndex(blocks[1..], blockId);
      if k == -1 then
        assert forall i | 1 <= i < |blocks| :: blocks[i] == blocks[1..][i - 1];
        -1
      else k + 1
  }

  /** `findBlockByMediaId`: the first block whose current media is `mediaId`, else null. */
  function FindBlockByMediaId(blocks: seq<Block>, mediaId: string): (r: Option<Block>)
    ensures r.None? <==> forall i | 0 <= i < |blocks| :: blocks[i].currentMediaId != mediaId
    ensures r.Some? ==> exists i | 0 <= i < |blocks| ::
      && blocks[i] == r.value
      && (forall j | 0 <= j < i :: blocks[j].currentMediaId != mediaId)
    ensures r.Some? ==> r.value.currentMediaId == mediaId
  {
    if |blocks| == 0 then None
    else if blocks[0].currentMediaId == mediaId then Some(blocks[0])
    else
      var r := FindBlockByMediaId(blocks[1..], mediaId);
      assert forall i | 1 <= i < |blocks| :: blocks[i] == blocks[1..][i - 1];
      if r.Some? then
        var k :| 0 <= k < |blocks[1..]| && blocks[1..][k] == r.value
                 && (forall j | 0 <= j < k :: blocks[1..][j].currentMediaId != mediaId);
        assert blocks[k + 1] == r.value;
        r
      else r
  }

  // ---------------------------------------------------------------- block updates

  /** `createBlock`: the block id comes from `crypto.randomUUID()` and is a parameter here. */
  function CreateBlock(blockId: string, mediaId: string): (b: Block)
    ensures b.blockId == blockId
    ensures b.media == [MediaRef(mediaId)] && b.currentMediaId == mediaId
  {
    Block(blockId, [MediaRef(mediaId)], mediaId)
  }

  /** A freshly created block passes validation exactly when both ids are non-empty. */
  lemma CreateBlockValid(blockId: string, mediaId: string)
    ensures ValidBlock(CreateBlock(blockId, mediaId)) <==> blockId != "" && mediaId != ""
  {
    var b := CreateBlock(blockId, mediaId);
    if blockId != "" && mediaId != "" {
      assert b.media[0].mediaId == mediaId;
    }
  }

  /** `updateBlockMedia`: select `mediaId`, appending it to the media only when absent. */
  function UpdateBlockMedia(block: Block, mediaId: string): (r: Block)
    ensures r.blockId == block.blockId
    ensures r.currentMediaId == mediaId
    ensures HasMedia(r.media, mediaId)
    ensures HasMedia(block.media, mediaId) ==> r.media == block.media
    ensures !HasMedia(block.media, mediaId) ==> r.media == block.media + [MediaRef(mediaId)]
  {
    var media := if HasMedia(block.media, mediaId) then block.media else block.media + [MediaRef(mediaId)];
    assert media[|media| - 1].mediaId == mediaId || HasMedia(block.media, mediaId);
    block.(currentMediaId := mediaId, media := media)
  }

  /** Selecting media never introduces a duplicate, and the result passes validation
      exactly when the block has an id and the media id is non-empty. */
  lemma UpdateBlockMediaKeepsInvariants(block: Block, mediaId: string)
    ensures DistinctMedia(block.media) ==> DistinctMedia(UpdateBlockMedia(block, mediaId).media)
    ensures ValidBlock(UpdateBlockMedia(block, mediaId)) <==> block.blockId != "" && mediaId != ""
  {
    var r := UpdateBlockMedia(block, mediaId);
    if DistinctMedia(block.media) && !HasMedia(block.media, mediaId) {
      forall i, j | 0 <= i < j < |r.media| ensures r.media[i].mediaId != r.media[j].mediaId {
        if j == |block.media| {
          assert r.media[i] == block.media[i];
        }
      }
    }
  }

  /** Selecting the same media twice is the same as selecting it once. */
  lemma UpdateBlockMediaIdempotent(block: Block, mediaId: string)
    ensures UpdateBlockMedia(UpdateBlockMedia(block, mediaId), mediaId) == UpdateBlockMedia(block, mediaId)
  {
  }

  /** `media.filter(m => m.mediaId !== mediaId)` */
  function WithoutMedia(media: seq<MediaRef>, mediaId: string): (r: seq<MediaRef>)
    ensures |r| <= |media|
    ensures forall m :: m in r <==> m in media && m.mediaId != mediaId
    ensures !HasMedia(r, mediaId)
  {
    if |media| == 0 then []
    else
      var rest := WithoutMedia(media[1..], mediaId);
      assert forall m :: m in media <==> m == media[0] || m in media[1..];
      if media[0].mediaId == mediaId then rest else [media[0]] + rest
  }

  /** Filtering out an id the list does not hold keeps the list as it is. */
  lemma {:induction false} WithoutAbsentMedia(media: seq<MediaRef>, mediaId: string)
    requires !HasMedia(media, mediaId)
    ensures WithoutMedia(media, mediaId) == media
  {
    if |media| > 0 {
      assert media[0].mediaId != mediaId;
      assert !HasMedia(media[1..], mediaId) by {
        forall i | 0 <= i < |media[1..]| ensures media[1..][i].mediaId != mediaId {
          assert media[1..][i] == media[i + 1];
        }
      }
      WithoutAbsentMedia(media[1..], mediaId);
      assert media == [media[0]] + media[1..];
    }
  }

  /** Filtering keeps the relative order of the survivors: removing another id
      first, or afterwards, gives the same list. */
  lemma {:induction false} WithoutMediaCommutes(media: seq<MediaRef>, a: string, b: string)
    ensures WithoutMedia(WithoutMedia(media, a), b) == WithoutMedia(WithoutMedia(media, b), a)
  {
    if |media| > 0 {
      WithoutMediaCommutes(media[1..], a, b);
    }
  }

  /** `removeMediaFromBlock`: drop every entry with `mediaId`; if it was current, the first
      survivor becomes current, or '' when none survive. */
  function RemoveMediaFromBlock(block: Block, mediaId: string): (r: Block)
    ensures r.blockId == block.blockId
    ensures r.media == WithoutMedia(block.media, mediaId)
    ensures block.currentMediaId != mediaId ==> r.currentMediaId == block.currentMediaId
    ensures block.currentMediaId == mediaId && |r.media| > 0 ==> r.currentMediaId == r.media[0].mediaId
    ensures block.currentMediaId == mediaId && |r.media| == 0 ==> r.currentMediaId == ""
  {
    var updated := WithoutMedia(block.media, mediaId);
    var current :=
      if block.currentMediaId == mediaId then
        (if |updated| > 0 && updated[0].mediaId != "" then updated[0].mediaId else "")
      else block.currentMediaId;
    block.(media := updated, currentMediaId := current)
  }

  /** After removal the id is gone: neither among the media nor, for a non-empty id, current. */
  lemma RemoveMediaIsComplete(block: Block, mediaId: string)
    requires mediaId != ""
    ensures !HasMedia(RemoveMediaFromBlock(block, mediaId).media, mediaId)
    ensures RemoveMediaFromBlock(block, mediaId).currentMediaId != mediaId
  {
    var r := RemoveMediaFromBlock(block, mediaId);
    if block.currentMediaId == mediaId && |r.media| > 0 {
      assert r.media[0] in r.media;
    }
  }

  /** Removing media that is not current keeps a valid block valid. */
  lemma RemoveOtherMediaKeepsValid(block: Block, mediaId: string)
    requires ValidBlock(block)
    requires block.currentMediaId != mediaId
    ensures ValidBlock(RemoveMediaFromBlock(block, mediaId))
  {
    var r := RemoveMediaFromBlock(block, mediaId);
    var i :| 0 <= i < |block.media| && block.media[i].mediaId == block.currentMediaId;
    assert block.media[i] in r.media;
    var j :| 0 <= j < |r.media| && r.media[j] == block.media[i];
  }

  /** Removing the current media of a valid block reselects a survivor; the block stays
      valid as long as the first survivor has a non-empty id. */
  lemma RemoveCurrentMediaReselects(block: Block, mediaId: string)
    requires ValidBlock(block)
    requires block.currentMediaId == mediaId
    requires |WithoutMedia(block.media, mediaId)| > 0
    requires WithoutMedia(block.media, mediaId)[0].mediaId != ""
    ensures ValidBlock(RemoveMediaFromBlock(block, mediaId))
  {
  }

  /** Removing the only media of a valid block leaves an empty media list and an empty
      current id, and validation then rejects the block. */
  lemma RemoveOnlyMediaInvalidates(block: Block, mediaId: string)
    requires ValidBlock(block)
    requires block.media == [MediaRef(mediaId)]
    ensures RemoveMediaFromBlock(block, mediaId).media == []
    ensures RemoveMediaFromBlock(block, mediaId).currentMediaId == ""
    ensures !ValidBlock(RemoveMediaFromBlock(block, mediaId))
    ensures BlockIssues(RemoveMediaFromBlock(block, mediaId), 0) != []
  {
    var r := RemoveMediaFromBlock(block, mediaId);
    assert block.media[1..] == [];
  }

  /** Adding media the block did not have and removing it again restores the media list. */
  lemma UpdateThenRemoveRestoresMedia(block: Block, mediaId: string)
    requires !HasMedia(block.media, mediaId)
    ensures RemoveMediaFromBlock(UpdateBlockMedia(block, mediaId), mediaId).media == block.media
  {
    var media := block.media + [MediaRef(mediaId)];
    assert WithoutMedia([MediaRef(mediaId)], mediaId) == [];
    WithoutMediaAppend(block.media, [MediaRef(mediaId)], mediaId);
    WithoutAbsentMedia(block.media, mediaId);
  }

  /** Filtering distributes over concatenation. */
  lemma {:induction false} WithoutMediaAppend(a: seq<MediaRef>, b: seq<MediaRef>, mediaId: string)
    ensures WithoutMedia(a + b, mediaId) == WithoutMedia(a, mediaId) + WithoutMedia(b, mediaId)
  {
    if |a| > 0 {
      var head := if a[0].mediaId == mediaId then [] else [a[0]];
      assert (a + b)[0] == a[0] && (a + b)[1..] == a[1..] + b;
      assert WithoutMedia(a + b, mediaId) == head + WithoutMedia(a[1..] + b, mediaId);
      assert WithoutMedia(a, mediaId) == head + WithoutMedia(a[1..], mediaId);
      WithoutMediaAppend(a[1..], b, mediaId);
    } else {
      assert a + b == b;
    }
  }

  // ---------------------------------------------------------------- validation

  /** One entry of the error list `validateBlocks` builds (the message texts interpolate
      the index or the block id, which the constructors carry). */
  datatype Issue =
    | MissingBlockId(index: nat)
    | NoMedia(blockId: string)
    | NoCurrentMedia(blockId: string)
    | CurrentNotInMedia(blockId: string)

  /** The entries the four checks of `validateBlocks` push for one block, in order. */
  function BlockIssues(b: Block, index: nat): seq<Issue> {
    (if b.blockId == "" then [MissingBlockId(index)] else [])
    + (if |b.media| == 0 then [NoMedia(b.blockId)] else [])
    + (if b.currentMediaId == "" then [NoCurrentMedia(b.blockId)] else [])
    + (if b.currentMediaId != "" && !HasMedia(b.media, b.currentMediaId) then [CurrentNotInMedia(b.blockId)] else [])
  }

  /** A block draws no entry exactly when it satisfies the block invariant. */
  lemma BlockIssuesEmptyIffValid(b: Block, index: nat)
    ensures BlockIssues(b, index) == [] <==> ValidBlock(b)
  {
  }

  /** The entries for the whole list, block by block in list order. */
  function AllIssues(blocks: seq<Block>): seq<Issue> {
    if |blocks| == 0 then []
    else AllIssues(blocks[..|blocks| - 1]) + BlockIssues(blocks[|blocks| - 1], |blocks| - 1)
  }

  /** The list draws no entry exactly when every block is valid. */
  lemma {:induction false} AllIssuesEmptyIffValid(blocks: seq<Block>)
    ensures AllIssues(blocks) == [] <==> forall i | 0 <= i < |blocks| :: ValidBlock(blocks[i])
  {
    if |blocks| > 0 {
      var init := blocks[..|blocks| - 1];
      AllIssuesEmptyIffValid(init);
      BlockIssuesEmptyIffValid(blocks[|blocks| - 1], |blocks| - 1);
      assert forall i | 0 <= i < |init| :: init[i] == blocks[i];
    }
  }

  /** `validateBlocks`: walk the list, collect the entries, and report validity. */
  method ValidateBlocks(blocks: seq<Block>) returns (valid: bool, errors: seq<Issue>)
    ensures errors == AllIssues(blocks)
    ensures valid <==> forall i | 0 <= i < |blocks| :: ValidBlock(blocks[i])
  {
    errors := [];
    var index := 0;
    while index < |blocks|
      invariant 0 <= index <= |blocks|
      invariant errors == AllIssues(blocks[..index])
    {
      assert blocks[..index + 1][..index] == blocks[..index];
      errors := errors + BlockIssues(blocks[index], index);
      index := index + 1;
    }
    assert blocks[..index] == blocks;
    AllIssuesEmptyIffValid(blocks);
    valid := |errors| == 0;
  }

  // ---------------------------------------------------------------- playlist

  /** `getBlocksPlaylist`: the whole list without a (non-empty) start id or when the id is
      unknown; otherwise the suffix that begins at the first block with that id. */
  function GetBlocksPlaylist(blocks: seq<Block>, startFromBlockId: Option<string>): (r: seq<Block>)
    ensures startFromBlockId.None? || startFromBlockId.value == "" || !HasBlock(blocks, startFromBlockId.value)
      ==> r == blocks
    ensures startFromBlockId.Some? && startFromBlockId.value != "" && HasBlock(blocks, startFromBlockId.value) ==>
      && 0 < |r| <= |blocks|
      && r == blocks[|blocks| - |r|..]
      && r[0].blockId == startFromBlockId.value
      && forall i | 0 <= i < |blocks| - |r| :: blocks[i].blockId != startFromBlockId.value
  {
    if startFromBlockId.None? || startFromBlockId.value == "" then blocks
    else
      var startIndex := FindBlockIndex(blocks, startFromBlockId.value);
      if startIndex == -1 then blocks else blocks[startIndex..]
  }

  /** `getPlaylistDuration`: an estimate of three seconds per block. */
  function GetPlaylistDuration(blocks: seq<Block>): (d: nat)
    ensures d == 0 <==> |blocks| == 0
    ensures |blocks| > 0 ==> d == GetPlaylistDuration(blocks[1..]) + 3
  {
    |blocks| * 3
  }

  /** A playlist never lasts longer than the full list, and lasts as long exactly when it
      is the full list. */
  lemma PlaylistDurationBounded(blocks: seq<Block>, startFromBlockId: Option<string>)
    ensures GetPlaylistDuration(GetBlocksPlaylist(blocks, startFromBlockId)) <= GetPlaylistDuration(blocks)
    ensures GetPlaylistDuration(GetBlocksPlaylist(blocks, startFromBlockId)) == GetPlaylistDuration(blocks)
            <==> GetBlocksPlaylist(blocks, startFromBlockId) == blocks
  {
  }

  // ---------------------------------------------------------------- configuration

  /** The drag-and-drop settings the manager keeps. */
  datatype Config = Config(animation: int, ghostClass: string, delayOnTouchOnly: bool, delay: int)

  /** A `Partial<BlockManagerConfig>`: only the supplied fields override. */
  datatype ConfigPatch = ConfigPatch(
    animation: Option<int>,
    ghostClass: Option<string>,
    delayOnTouchOnly: Option<bool>,
    delay: Option<int>)

  const DefaultConfig: Config := Config(200, "dragged-item", true, 200)
  const EmptyPatch: ConfigPatch := ConfigPatch(None, None, None, None)

  /** `{ ...config, ...patch }` */
  function ApplyPatch(config: Config, patch: ConfigPatch): Config {
    Config(
      patch.animation.GetOr(config.animation),
      patch.ghostClass.GetOr(config.ghostClass),
      patch.delayOnTouchOnly.GetOr(config.delayOnTouchOnly),
      patch.delay.GetOr(config.delay))
  }

  /** Two patches applied in turn: the later one wins field by field. */
  function CombinePatches(first: ConfigPatch, second: ConfigPatch): ConfigPatch {
    ConfigPatch(
      if second.animation.Some? then second.animation else first.animation,
      if second.ghostClass.Some? then second.ghostClass else first.ghostClass,
      if second.delayOnTouchOnly.Some? then second.delayOnTouchOnly else first.delayOnTouchOnly,
      if second.delay.Some? then second.delay else first.delay)
  }

  /** Merging is a monoid action: the empty patch changes nothing, a patch is idempotent,
      and two updates equal one update with the combined patch. */
  lemma ApplyPatchLaws(config: Config, p: ConfigPatch, q: ConfigPatch)
    ensures ApplyPatch(config, EmptyPatch) == config
    ensures ApplyPatch(ApplyPatch(config, p), p) == ApplyPatch(config, p)
    ensures ApplyPatch(ApplyPatch(config, p), q) == ApplyPatch(config, CombinePatches(p, q))
  {
  }

  /** The manager object; only its configuration is state. */
  class BlockManager {
    var config: Config

    /** The private constructor: defaults overridden by the supplied fields. */
    constructor (patch: ConfigPatch)
      ensures config == ApplyPatch(DefaultConfig, patch)
    {
      config := ApplyPatch(DefaultConfig, patch);
    }

    /** `updateConfig` */
    method UpdateConfig(patch: ConfigPatch)
      modifies this
      ensures config == ApplyPatch(old(config), patch)
    {
      config := ApplyPatch(config, patch);
    }
  }
}
