/** Playlist playback of src/lib/services/media-playback.ts.

    The video element, `MediaSource` and `SourceBuffer` are represented by whether
    they are present; `MediaSource.isTypeSupported`, reading a block's media file
    from OPFS (with the `appendBuffer` that follows) and the buffered end time are
    oracles given as parameters.  Browser events (`play`, `pause`, `timeupdate`,
    `updateend`, ...) are methods the environment calls.  The block-change
    callback is represented by the notification `OnTimeUpdate` returns. */
module MediaPlayback {
  import opened Wrappers
  import opened ErrorHandler
  import opened Blocks

  /** `PlaybackState`.  Being a value, the copy the `state` getter hands out cannot alias
      the service's own record. */
  datatype PlaybackState = PlaybackState(
    isPlaying: bool,
    currentBlockId: Option<string>,
    currentPosition: real,
    totalDuration: real,
    currentBlockIndex: nat,
    totalBlocks: nat)

  const InitialState: PlaybackState := PlaybackState(false, None, 0.0, 0.0, 0, 0)

  /** One call of the block-change callback. */
  datatype BlockChange = BlockChange(blockId: string, blockIndex: nat)

  const NoVideoElement: string := "Video element not set"
  const NoSupportedType: string := "No supported WebM MIME types found"

  function BlockNotFound(blockId: string): string {
    "Block with ID " + blockId + " not found"
  }

  /** The MIME types tried for playback, in order of preference. */
  const PlaybackMimeTypes: seq<string> := ["audio/webm; codecs=opus", "video/webm; codecs=\"vp8\"", "video/webm"]

  /** `getSupportedMimeType`: the first supported type in preference order; throws when
      none is supported. */
  method GetSupportedMimeType(isSupported: string -> bool) returns (r: Step<string>)
    ensures r.Threw? <==> forall i | 0 <= i < |PlaybackMimeTypes| :: !isSupported(PlaybackMimeTypes[i])
    ensures r.Threw? ==> r.thrown == ThrownError(NoSupportedType)
    ensures r.Done? ==> exists i | 0 <= i < |PlaybackMimeTypes| ::
      && r.value == PlaybackMimeTypes[i]
      && isSupported(r.value)
      && forall j | 0 <= j < i :: !isSupported(PlaybackMimeTypes[j])
  {
    var i := 0;
    while i < |PlaybackMimeTypes|
      invariant 0 <= i <= |PlaybackMimeTypes|
      invariant forall j | 0 <= j < i :: !isSupported(PlaybackMimeTypes[j])
    {
      if isSupported(PlaybackMimeTypes[i]) {
        return Done(PlaybackMimeTypes[i]);
      }
      i := i + 1;
    }
    return Threw(ThrownError(NoSupportedType));
  }

  /** The block playing at time `t`: the largest index whose start time `t` has reached,
      or 0 when it has reached none. */
  function BlockIndexAt(startTimes: seq<real>, t: real): (r: nat)
    ensures |startTimes| > 0 ==> r < |startTimes|
    ensures |startTimes| == 0 ==> r == 0
    ensures (exists i | 0 <= i < |startTimes| :: t >= startTimes[i]) ==>
      && t >= startTimes[r]
      && forall j | r < j < |startTimes| :: t < startTimes[j]
    ensures (forall i | 0 <= i < |startTimes| :: t < startTimes[i]) ==> r == 0
  {
    if |startTimes| == 0 then 0
    else if t >= startTimes[|startTimes| - 1] then |startTimes| - 1
    else BlockIndexAt(startTimes[..|startTimes| - 1], t)
  }

  /** With increasing start times beginning at 0, the block found is the one whose interval
      `[start, next start)` holds `t`. */
  lemma BlockIndexAtInterval(startTimes: seq<real>, t: real)
    requires |startTimes| > 0 && startTimes[0] == 0.0 && t >= 0.0
    requires forall i, j | 0 <= i < j < |startTimes| :: startTimes[i] <= startTimes[j]
    ensures var r := BlockIndexAt(startTimes, t);
            startTimes[r] <= t && (r + 1 < |startTimes| ==> t < startTimes[r + 1])
  {
  }

  /** The backward search loop of `updateCurrentBlock`. */
  method SearchBlockIndex(startTimes: seq<real>, currentTime: real) returns (newBlockIndex: nat)
    ensures newBlockIndex == BlockIndexAt(startTimes, currentTime)
  {
    newBlockIndex := 0;
    var i := |startTimes| - 1;
    while i >= 0
      invariant -1 <= i < |startTimes|
      invariant BlockIndexAt(startTimes, currentTime) == BlockIndexAt(startTimes[..i + 1], currentTime)
    {
      assert startTimes[..i + 1][..i] == startTimes[..i];
      if currentTime >= startTimes[i] {
        newBlockIndex := i;
        break;
      }
      i := i - 1;
    }
    if i < 0 {
      assert startTimes[..0] == [];
    }
  }

  class MediaPlaybackService {
    var hasVideoElement: bool
    var hasMediaSource: bool
    var hasSourceBuffer: bool
    var playlist: seq<Block>
    var currentIndex: nat
    var state: PlaybackState
    var blockStartTimes: seq<real>
    var hasCallback: bool
    /** An `updateend` listener of `appendNextMedia` is waiting for an append to finish. */
    var appendPending: bool

    /** Start times are recorded only for blocks of the playlist, and only up to the block
        being appended. */
    predicate Valid()
      reads this
    {
      && |blockStartTimes| <= |playlist|
      && |blockStartTimes| <= currentIndex + 1
    }

    constructor ()
      ensures Valid()
      ensures !hasVideoElement && !hasMediaSource && !hasSourceBuffer && !hasCallback && !appendPending
      ensures playlist == [] && currentIndex == 0 && blockStartTimes == [] && state == InitialState
    {
      hasVideoElement := false;
      hasMediaSource := false;
      hasSourceBuffer := false;
      playlist := [];
      currentIndex := 0;
      state := InitialState;
      blockStartTimes := [];
      hasCallback := false;
      appendPending := false;
    }

    /** `state` */
    function State(): (r: PlaybackState)
      reads this
      ensures r == state
    {
      state
    }

    /** `setVideoElement` */
    method SetVideoElement()
      modifies this
      ensures hasVideoElement
      ensures playlist == old(playlist) && currentIndex == old(currentIndex) && state == old(state)
      ensures blockStartTimes == old(blockStartTimes) && hasMediaSource == old(hasMediaSource)
      ensures hasSourceBuffer == old(hasSourceBuffer) && hasCallback == old(hasCallback) && appendPending == old(appendPending)
    {
      hasVideoElement := true;
    }

    /** `setBlockChangeCallback` */
    method SetBlockChangeCallback()
      modifies this
      ensures hasCallback
      ensures playlist == old(playlist) && currentIndex == old(currentIndex) && state == old(state)
      ensures blockStartTimes == old(blockStartTimes) && hasMediaSource == old(hasMediaSource)
      ensures hasSourceBuffer == old(hasSourceBuffer) && hasVideoElement == old(hasVideoElement) && appendPending == old(appendPending)
    {
      hasCallback := true;
    }

    /** `cleanupMediaSource` */
    method CleanupMediaSource()
      modifies this
      ensures !hasMediaSource && !hasSourceBuffer
      ensures playlist == old(playlist) && currentIndex == old(currentIndex) && state == old(state)
      ensures blockStartTimes == old(blockStartTimes) && hasVideoElement == old(hasVideoElement)
      ensures hasCallback == old(hasCallback) && appendPending == old(appendPending)
    {
      hasMediaSource := false;
      hasSourceBuffer := false;
    }

    /** `handlePlaybackError` */
    method HandlePlaybackError()
      modifies this
      ensures state == old(state).(isPlaying := false)
      ensures !hasMediaSource && !hasSourceBuffer
      ensures playlist == old(playlist) && currentIndex == old(currentIndex)
      ensures blockStartTimes == old(blockStartTimes) && hasVideoElement == old(hasVideoElement)
      ensures hasCallback == old(hasCallback) && appendPending == old(appendPending)
    {
      state := state.(isPlaying := false);
      CleanupMediaSource();
    }

    /** `appendNextMedia`: past the end of the playlist it finalises (no state of the model
        changes); otherwise `load` is None when the block's media file is read and handed to
        `appendBuffer`, which leaves an `updateend` listener waiting. */
    method AppendNextMedia(load: Option<Thrown>)
      requires Valid()
      modifies this
      ensures Valid()
      ensures playlist == old(playlist) && currentIndex == old(currentIndex) && blockStartTimes == old(blockStartTimes)
      ensures hasVideoElement == old(hasVideoElement) && hasCallback == old(hasCallback)
      ensures !old(hasSourceBuffer) || !old(hasMediaSource) || currentIndex >= |playlist| ==>
        && state == old(state) && hasMediaSource == old(hasMediaSource) && hasSourceBuffer == old(hasSourceBuffer)
        && appendPending == old(appendPending)
      ensures old(hasSourceBuffer) && old(hasMediaSource) && currentIndex < |playlist| && load.None? ==>
        && appendPending && state == old(state) && hasMediaSource && hasSourceBuffer
      ensures old(hasSourceBuffer) && old(hasMediaSource) && currentIndex < |playlist| && load.Some? ==>
        && !appendPending && state == old(state).(isPlaying := false) && !hasMediaSource && !hasSourceBuffer
    {
      if !hasSourceBuffer || !hasMediaSource {
        return;
      }
      if currentIndex >= |playlist| {
        return;
      }
      if load.Some? {
        appendPending := false;
        HandlePlaybackError();
      } else {
        appendPending := true;
      }
    }

    /** `playFromBlock`: check the element and the start block, take the playlist from that
        block on, open the media source (whose source buffer needs a supported MIME type)
        and start appending the first block, read with outcome `firstLoad`. */
    method PlayFromBlock(startBlockId: string, blocks: seq<Block>, isSupported: string -> bool, firstLoad: Option<Thrown>)
      returns (thrown: Option<Thrown>)
      requires Valid()
      modifies this
      ensures Valid()
      ensures hasVideoElement == old(hasVideoElement) && hasCallback == old(hasCallback)
      ensures !old(hasVideoElement) || !HasBlock(blocks, startBlockId) ==>
        && state == old(state) && playlist == old(playlist) && blockStartTimes == old(blockStartTimes)
        && currentIndex == old(currentIndex) && hasMediaSource == old(hasMediaSource)
        && hasSourceBuffer == old(hasSourceBuffer) && appendPending == old(appendPending)
      ensures !old(hasVideoElement) ==> thrown == Some(ThrownError(NoVideoElement))
      ensures old(hasVideoElement) && !HasBlock(blocks, startBlockId) ==>
        thrown == Some(ThrownError(BlockNotFound(startBlockId)))
      ensures old(hasVideoElement) && HasBlock(blocks, startBlockId) ==>
        && playlist == blocks[FindBlockIndex(blocks, startBlockId)..]
        && |playlist| > 0 && playlist[0].blockId == startBlockId
        && (startBlockId != "" ==> playlist == GetBlocksPlaylist(blocks, Some(startBlockId)))
        && currentIndex == 0 && blockStartTimes == [0.0]
        && state == old(state).(currentBlockId := Some(startBlockId), currentBlockIndex := 0,
                                totalBlocks := |playlist|,
                                isPlaying := if thrown.None? && firstLoad.Some? then false else old(state).isPlaying)
        && (thrown.Some? <==> forall i | 0 <= i < |PlaybackMimeTypes| :: !isSupported(PlaybackMimeTypes[i]))
        && (thrown.Some? ==> hasMediaSource && !hasSourceBuffer && appendPending == old(appendPending))
        && (thrown.None? && firstLoad.None? ==> appendPending && hasMediaSource && hasSourceBuffer)
        && (thrown.None? && firstLoad.Some? ==> !appendPending && !hasMediaSource && !hasSourceBuffer)
    {
      if !hasVideoElement {
        return Some(ThrownError(NoVideoElement));
      }
      var startIndex := FindBlockIndex(blocks, startBlockId);
      if startIndex == -1 {
        return Some(ThrownError(BlockNotFound(startBlockId)));
      }
      playlist := blocks[startIndex..];
      currentIndex := 0;
      state := state.(currentBlockId := Some(startBlockId), currentBlockIndex := 0, totalBlocks := |playlist|);
      blockStartTimes := [0.0];

      // initializeMediaSource, with setupSourceBuffer on 'sourceopen'
      CleanupMediaSource();
      hasMediaSource := true;
      var mimeType := GetSupportedMimeType(isSupported);
      if mimeType.Threw? {
        return Some(mimeType.thrown);
      }
      hasSourceBuffer := true;

      // loadMediaSequence
      currentIndex := 0;
      AppendNextMedia(firstLoad);
      thrown := None;
    }

    /** The `updateend` listener `appendNextMedia` installed: record where the next block
        starts (`bufferedEnd`, None when nothing is buffered) if one follows, move on, and
        append the next block with outcome `nextLoad`. */
    method OnAppendDone(bufferedEnd: Option<real>, nextLoad: Option<Thrown>)
      requires Valid()
      modifies this
      ensures Valid()
      ensures playlist == old(playlist) && hasVideoElement == old(hasVideoElement) && hasCallback == old(hasCallback)
      ensures !old(appendPending) ==>
        && currentIndex == old(currentIndex) && blockStartTimes == old(blockStartTimes) && state == old(state)
        && hasMediaSource == old(hasMediaSource) && hasSourceBuffer == old(hasSourceBuffer) && !appendPending
      ensures old(appendPending) ==> currentIndex == old(currentIndex) + 1
      ensures old(appendPending) && (!old(hasSourceBuffer) || !old(hasMediaSource) || currentIndex >= |playlist|) ==>
        && !appendPending && state == old(state)
        && hasMediaSource == old(hasMediaSource) && hasSourceBuffer == old(hasSourceBuffer)
      ensures old(appendPending) && old(hasSourceBuffer) && old(hasMediaSource) && currentIndex < |playlist| && nextLoad.None? ==>
        && appendPending && state == old(state) && hasMediaSource && hasSourceBuffer
      ensures old(appendPending) && old(hasSourceBuffer) && old(hasMediaSource) && currentIndex < |playlist| && nextLoad.Some? ==>
        && !appendPending && state == old(state).(isPlaying := false) && !hasMediaSource && !hasSourceBuffer
      ensures old(appendPending) && old(hasVideoElement) && old(hasSourceBuffer) && bufferedEnd.Some?
              && old(currentIndex) + 1 < |playlist| ==>
        blockStartTimes == old(blockStartTimes) + [bufferedEnd.value]
      ensures !(old(hasVideoElement) && old(hasSourceBuffer) && bufferedEnd.Some? && old(currentIndex) + 1 < |playlist|) ==>
        blockStartTimes == old(blockStartTimes)
    {
      if !appendPending {
        return;
      }
      appendPending := false;
      if hasVideoElement && hasSourceBuffer && bufferedEnd.Some? {
        if currentIndex + 1 < |playlist| {
          blockStartTimes := blockStartTimes + [bufferedEnd.value];
        }
      }
      currentIndex := currentIndex + 1;
      AppendNextMedia(nextLoad);
    }

    /** `stop` */
    method Stop()
      requires Valid()
      modifies this
      ensures Valid()
      ensures state == old(state).(isPlaying := false, currentBlockId := None, currentBlockIndex := 0, totalBlocks := 0)
      ensures !hasMediaSource && !hasSourceBuffer
      ensures playlist == old(playlist) && currentIndex == old(currentIndex) && blockStartTimes == old(blockStartTimes)
      ensures hasVideoElement == old(hasVideoElement) && hasCallback == old(hasCallback) && appendPending == old(appendPending)
    {
      CleanupMediaSource();
      state := state.(isPlaying := false, currentBlockId := None, currentBlockIndex := 0, totalBlocks := 0);
    }

    /** The `play`, `pause` and `ended` listeners. */
    method OnPlayingChanged(isPlaying: bool)
      modifies this
      ensures state == old(state).(isPlaying := isPlaying)
      ensures playlist == old(playlist) && currentIndex == old(currentIndex) && blockStartTimes == old(blockStartTimes)
      ensures hasVideoElement == old(hasVideoElement) && hasCallback == old(hasCallback) && appendPending == old(appendPending)
      ensures hasMediaSource == old(hasMediaSource) && hasSourceBuffer == old(hasSourceBuffer)
    {
      state := state.(isPlaying := isPlaying);
    }

    /** The `timeupdate` listener: record the position, then `updateCurrentBlock` moves the
        current block to the one playing at `currentTime`, and returns the callback's
        notification when the block id changed and a callback is set. */
    method OnTimeUpdate(currentTime: real) returns (notified: Option<BlockChange>)
      requires Valid()
      modifies this
      ensures Valid()
      ensures playlist == old(playlist) && currentIndex == old(currentIndex) && blockStartTimes == old(blockStartTimes)
      ensures hasVideoElement == old(hasVideoElement) && hasCallback == old(hasCallback) && appendPending == old(appendPending)
      ensures hasMediaSource == old(hasMediaSource) && hasSourceBuffer == old(hasSourceBuffer)
      ensures !hasVideoElement ==> state == old(state) && notified.None?
      ensures hasVideoElement && |blockStartTimes| == 0 ==>
        state == old(state).(currentPosition := currentTime) && notified.None?
      ensures hasVideoElement && |blockStartTimes| > 0 ==>
        var idx := BlockIndexAt(blockStartTimes, currentTime);
        && state.currentPosition == currentTime
        && state.currentBlockIndex == idx
        && state.isPlaying == old(state).isPlaying && state.totalBlocks == old(state).totalBlocks
        && state.totalDuration == old(state).totalDuration
        && (idx == old(state).currentBlockIndex || idx >= |playlist| ==> state.currentBlockId == old(state).currentBlockId)
        && (idx != old(state).currentBlockIndex && idx < |playlist| ==> state.currentBlockId == Some(playlist[idx].blockId))
        && (notified.Some? <==>
              idx != old(state).currentBlockIndex && idx < |playlist| && hasCallback
              && old(state).currentBlockId != Some(playlist[idx].blockId))
        && (notified.Some? ==> notified.value == BlockChange(playlist[idx].blockId, idx))
    {
      notified := None;
      if !hasVideoElement {
        return;
      }
      state := state.(currentPosition := currentTime);
      if |blockStartTimes| == 0 {
        return;
      }
      var newBlockIndex := SearchBlockIndex(blockStartTimes, currentTime);
      if newBlockIndex != state.currentBlockIndex {
        state := state.(currentBlockIndex := newBlockIndex);
        if newBlockIndex < |playlist| {
          var newCurrentBlock := playlist[newBlockIndex];
          var oldBlockId := state.currentBlockId;
          state := state.(currentBlockId := Some(newCurrentBlock.blockId));
          if hasCallback && oldBlockId != Some(newCurrentBlock.blockId) {
            notified := Some(BlockChange(newCurrentBlock.blockId, newBlockIndex));
          }
        }
      }
    }

    /** The `loadedmetadata` listener. */
    method OnLoadedMetadata(duration: real)
      modifies this
      ensures state == old(state).(totalDuration := duration)
      ensures playlist == old(playlist) && currentIndex == old(currentIndex) && blockStartTimes == old(blockStartTimes)
      ensures hasVideoElement == old(hasVideoElement) && hasCallback == old(hasCallback) && appendPending == old(appendPending)
      ensures hasMediaSource == old(hasMediaSource) && hasSourceBuffer == old(hasSourceBuffer)
    {
      state := state.(totalDuration := duration);
    }

    /** The video element's `error` listener. */
    method OnVideoError()
      modifies this
      ensures state == old(state).(isPlaying := false)
      ensures !hasMediaSource && !hasSourceBuffer
      ensures playlist == old(playlist) && currentIndex == old(currentIndex) && blockStartTimes == old(blockStartTimes)
      ensures hasVideoElement == old(hasVideoElement) && hasCallback == old(hasCallback) && appendPending == old(appendPending)
    {
      HandlePlaybackError();
    }
  }

  /** Every index the playing position yields names a start time the playlist recorded, so
      whenever start times exist, the current block index stays inside the playlist. */
  lemma BlockIndexInPlaylist(startTimes: seq<real>, playlist: seq<Block>, t: real)
    requires 0 < |startTimes| <= |playlist|
    ensures BlockIndexAt(startTimes, t) < |playlist|
  {
  }
}
