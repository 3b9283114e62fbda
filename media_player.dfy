/** Chunked file playback of src/lib/client/media-player.remove.ts.

    A file is cut into chunks of at most 2 MiB that go through a FIFO queue into
    the `SourceBuffer`.  The browser objects are represented by whether they are
    present; the source buffer by its `updating` flag and the chunks it has been
    given (`bufferContents`).  Whether `appendBuffer` throws on a chunk, the file
    lookup, and the `sourceopen`/`addSourceBuffer` outcomes are oracles given as
    parameters.

    The `updateend` listener of the source clears neither `isAppending` nor
    anything else before calling `processNextChunk`; since `appendBuffer` sets
    `updating` synchronously, `isAppending` is never reset after a successful
    append and every later chunk stays queued.  `AfterUpdateEndAsWritten` models
    that listener (the class runs it as `OnUpdateEndAsWritten`) and
    `AsWrittenDeliversOnlyFirstChunk` exhibits the effect; `AfterUpdateEnd`, which
    clears `isAppending` first, is the corrected listener (`OnUpdateEnd`), and
    `CorrectedDeliversEveryChunk` proves it drains the queue in order. */
module MediaPlayer {
  import opened Wrappers
  import opened ErrorHandler

  const ChunkSize: nat := 2 * 1024 * 1024

  /** `file.slice(offset, offset + size)` */
  datatype Chunk = Chunk(offset: nat, size: nat)

  function Min(a: nat, b: nat): nat {
    if a <= b then a else b
  }

  /** The chunks `streamFileInChunks` cuts from `offset` to the end of a file of `size` bytes. */
  function ChunksFrom(offset: nat, size: nat): seq<Chunk>
    decreases size - offset
  {
    if offset >= size then []
    else
      var chunkSize := Min(ChunkSize, size - offset);
      [Chunk(offset, chunkSize)] + ChunksFrom(offset + chunkSize, size)
  }

  /** The chunks of a whole file. */
  function Chunks(size: nat): seq<Chunk> {
    ChunksFrom(0, size)
  }

  /** The chunks tile `[offset, size)` in order with no gap or overlap; every chunk is
      non-empty and all but the last are exactly `ChunkSize` long. */
  lemma {:induction false} ChunksTile(offset: nat, size: nat)
    requires offset <= size
    ensures var cs := ChunksFrom(offset, size);
      && (|cs| == 0 <==> offset == size)
      && (forall i | 0 <= i < |cs| :: cs[i].offset == offset + i * ChunkSize && 0 < cs[i].size <= ChunkSize)
      && (forall i | 0 <= i < |cs| - 1 :: cs[i].size == ChunkSize && cs[i].offset + cs[i].size == cs[i + 1].offset)
      && (|cs| > 0 ==> cs[|cs| - 1].offset + cs[|cs| - 1].size == size)
    decreases size - offset
  {
    if offset < size {
      var chunkSize := Min(ChunkSize, size - offset);
      var rest := ChunksFrom(offset + chunkSize, size);
      ChunksTile(offset + chunkSize, size);
      var cs := ChunksFrom(offset, size);
      assert cs == [Chunk(offset, chunkSize)] + rest;
      if |rest| > 0 {
        assert chunkSize == ChunkSize;
      }
      forall i | 1 <= i < |cs|
        ensures cs[i].offset == offset + i * ChunkSize
      {
        assert cs[i] == rest[i - 1];
      }
    }
  }

  /** A file longer than one chunk is cut into at least two chunks. */
  lemma LongFileHasTwoChunks(size: nat)
    requires size > ChunkSize
    ensures |Chunks(size)| >= 2
  {
    assert Chunks(size) == [Chunk(0, ChunkSize)] + ChunksFrom(ChunkSize, size);
    assert ChunksFrom(ChunkSize, size) == [Chunk(ChunkSize, Min(ChunkSize, size - ChunkSize))]
      + ChunksFrom(ChunkSize + Min(ChunkSize, size - ChunkSize), size);
  }

  /** The queue and the source buffer as `processNextChunk` sees them. */
  datatype Pipeline = Pipeline(
    queue: seq<Chunk>,
    isAppending: bool,
    hasSourceBuffer: bool,
    updating: bool,
    bufferContents: seq<Chunk>)

  /** No chunk is lost: what the buffer holds followed by what is queued. */
  function Delivered(p: Pipeline): seq<Chunk> {
    p.bufferContents + p.queue
  }

  /** `processNextChunk`: unless a guard holds, the head of the queue goes to the buffer
      (or is dropped when `appendBuffer` throws on it). */
  function Process(p: Pipeline, appendThrows: Chunk -> bool): (r: Pipeline)
    ensures p.isAppending || |p.queue| == 0 || !p.hasSourceBuffer || p.updating ==> r == p
    ensures !(p.isAppending || |p.queue| == 0 || !p.hasSourceBuffer || p.updating) ==>
      && r.queue == p.queue[1..]
      && r.hasSourceBuffer
      && (appendThrows(p.queue[0]) ==> r.bufferContents == p.bufferContents && !r.isAppending && !r.updating)
      && (!appendThrows(p.queue[0]) ==>
            Delivered(r) == Delivered(p) && r.bufferContents == p.bufferContents + [p.queue[0]]
            && r.isAppending && r.updating)
  {
    if p.isAppending || |p.queue| == 0 || !p.hasSourceBuffer then p
    else if p.updating then p
    else
      var chunk := p.queue[0];
      var shifted := p.(queue := p.queue[1..], isAppending := true);
      var appended :=
        if appendThrows(chunk) then shifted.(isAppending := false)
        else shifted.(updating := true, bufferContents := p.bufferContents + [chunk]);
      assert appendThrows(chunk) || Delivered(appended) == Delivered(p) by {
        assert p.queue == [chunk] + p.queue[1..];
      }
      if appended.hasSourceBuffer && !appended.updating then appended.(isAppending := false) else appended
  }

  /** One iteration of the `streamFileInChunks` loop: queue the chunk and process it unless
      an append is under way. */
  function StreamStep(p: Pipeline, chunk: Chunk, appendThrows: Chunk -> bool): (r: Pipeline)
    ensures p.isAppending ==> r == p.(queue := p.queue + [chunk])
    ensures r.hasSourceBuffer == p.hasSourceBuffer && p.bufferContents <= r.bufferContents
    ensures (forall c :: !appendThrows(c)) ==> Delivered(r) == Delivered(p) + [chunk]
  {
    var queued := p.(queue := p.queue + [chunk]);
    if !queued.isAppending then Process(queued, appendThrows) else queued
  }

  /** The whole `streamFileInChunks` loop over `chunks`. */
  function Stream(p: Pipeline, chunks: seq<Chunk>, appendThrows: Chunk -> bool): (r: Pipeline)
    ensures r.hasSourceBuffer == p.hasSourceBuffer
    ensures p.bufferContents <= r.bufferContents
    decreases |chunks|
  {
    if |chunks| == 0 then p else Stream(StreamStep(p, chunks[0], appendThrows), chunks[1..], appendThrows)
  }

  /** The index of the first chunk whose `chunk.arrayBuffer()` read rejects, or the number
      of chunks when every read completes. */
  function FirstReadFailure(chunks: seq<Chunk>, chunkRead: Chunk -> Option<Thrown>): (k: nat)
    ensures k <= |chunks|
    ensures forall i | 0 <= i < k :: chunkRead(chunks[i]).None?
    ensures k < |chunks| ==> chunkRead(chunks[k]).Some?
    decreases |chunks|
  {
    if |chunks| == 0 then 0
    else if chunkRead(chunks[0]).Some? then 0
    else 1 + FirstReadFailure(chunks[1..], chunkRead)
  }

  /** The `streamFileInChunks` loop with each chunk read first: a rejected read ends the loop
      and is passed on, with the chunks before it already streamed. */
  function StreamReading(p: Pipeline, chunks: seq<Chunk>, chunkRead: Chunk -> Option<Thrown>,
                         appendThrows: Chunk -> bool): (Pipeline, Option<Thrown>)
    decreases |chunks|
  {
    if |chunks| == 0 then (p, None)
    else if chunkRead(chunks[0]).Some? then (p, chunkRead(chunks[0]))
    else StreamReading(StreamStep(p, chunks[0], appendThrows), chunks[1..], chunkRead, appendThrows)
  }

  /** Reading the chunks streams exactly those before the first rejected read and reports
      that rejection; when every read completes it is the plain `Stream` and nothing is
      thrown. */
  lemma {:induction false} StreamReadingOutcome(p: Pipeline, chunks: seq<Chunk>, chunkRead: Chunk -> Option<Thrown>,
                                                appendThrows: Chunk -> bool)
    ensures var k := FirstReadFailure(chunks, chunkRead);
      StreamReading(p, chunks, chunkRead, appendThrows)
        == (Stream(p, chunks[..k], appendThrows), if k == |chunks| then None else chunkRead(chunks[k]))
    decreases |chunks|
  {
    if |chunks| > 0 && chunkRead(chunks[0]).None? {
      var k := FirstReadFailure(chunks, chunkRead);
      StreamReadingOutcome(StreamStep(p, chunks[0], appendThrows), chunks[1..], chunkRead, appendThrows);
      assert chunks[..k][0] == chunks[0];
      assert chunks[..k][1..] == chunks[1..][..k - 1];
    }
  }

  /** Chunks reach the buffer in the order they were queued, and the queue keeps the rest
      in file order behind them: streaming only ever adds the file's chunks at the end. */
  lemma {:induction false} StreamKeepsFileOrder(p: Pipeline, chunks: seq<Chunk>, appendThrows: Chunk -> bool)
    requires forall c :: !appendThrows(c)
    ensures Delivered(Stream(p, chunks, appendThrows)) == Delivered(p) + chunks
    decreases |chunks|
  {
    if |chunks| > 0 {
      var next := StreamStep(p, chunks[0], appendThrows);
      assert Delivered(next) == Delivered(p) + [chunks[0]];
      StreamKeepsFileOrder(next, chunks[1..], appendThrows);
      assert [chunks[0]] + chunks[1..] == chunks;
    }
  }

  /** While an append is under way, streaming only queues. */
  lemma {:induction false} StreamWhileAppending(p: Pipeline, chunks: seq<Chunk>, appendThrows: Chunk -> bool)
    requires p.isAppending
    ensures Stream(p, chunks, appendThrows) == p.(queue := p.queue + chunks)
    decreases |chunks|
  {
    if |chunks| > 0 {
      var next := p.(queue := p.queue + [chunks[0]]);
      StreamWhileAppending(next, chunks[1..], appendThrows);
      assert next.queue + chunks[1..] == p.queue + chunks;
    }
  }

  /** Streaming into an idle, empty pipeline hands the first chunk to the buffer and queues
      the rest behind it, in file order. */
  lemma StreamFromIdle(p: Pipeline, chunks: seq<Chunk>, appendThrows: Chunk -> bool)
    requires p.hasSourceBuffer && !p.isAppending && !p.updating && p.queue == []
    requires |chunks| > 0 && !appendThrows(chunks[0])
    ensures var r := Stream(p, chunks, appendThrows);
      && r.bufferContents == p.bufferContents + [chunks[0]]
      && r.queue == chunks[1..]
      && r.isAppending && r.updating && r.hasSourceBuffer
  {
    var first := StreamStep(p, chunks[0], appendThrows);
    assert first.queue == [];
    StreamWhileAppending(first, chunks[1..], appendThrows);
  }

  /** The `updateend` listener as written: the browser has cleared `updating`, then
      `processNextChunk` runs with `isAppending` still set. */
  function AfterUpdateEndAsWritten(p: Pipeline, appendThrows: Chunk -> bool): (r: Pipeline)
    ensures p.isAppending ==> r == p.(updating := false)
    ensures !p.isAppending ==> r == AfterUpdateEnd(p, appendThrows)
  {
    Process(p.(updating := false), appendThrows)
  }

  /** The `updateend` listener with the append marked finished before the next chunk. */
  function AfterUpdateEnd(p: Pipeline, appendThrows: Chunk -> bool): Pipeline {
    Process(p.(updating := false, isAppending := false), appendThrows)
  }

  function UpdateEndsAsWritten(p: Pipeline, n: nat, appendThrows: Chunk -> bool): Pipeline
    decreases n
  {
    if n == 0 then p else UpdateEndsAsWritten(AfterUpdateEndAsWritten(p, appendThrows), n - 1, appendThrows)
  }

  function UpdateEnds(p: Pipeline, n: nat, appendThrows: Chunk -> bool): Pipeline
    decreases n
  {
    if n == 0 then p else UpdateEnds(AfterUpdateEnd(p, appendThrows), n - 1, appendThrows)
  }

  /** As written, once an append is under way no number of `updateend` events moves another
      chunk: the buffer and the queue stay as they are and `isAppending` stays set. */
  lemma {:induction false} AsWrittenNeverResumes(p: Pipeline, n: nat, appendThrows: Chunk -> bool)
    requires p.isAppending
    ensures var r := UpdateEndsAsWritten(p, n, appendThrows);
      r.bufferContents == p.bufferContents && r.queue == p.queue && r.isAppending
    decreases n
  {
    if n > 0 {
      AsWrittenNeverResumes(AfterUpdateEndAsWritten(p, appendThrows), n - 1, appendThrows);
    }
  }

  /** The discrepancy: for any file over 2 MiB, streaming then any number of `updateend`
      events leaves only the first chunk in the buffer. */
  lemma AsWrittenDeliversOnlyFirstChunk(size: nat, n: nat, p: Pipeline, appendThrows: Chunk -> bool)
    requires size > ChunkSize
    requires p == Pipeline([], false, true, false, [])
    requires forall c :: !appendThrows(c)
    ensures var r := UpdateEndsAsWritten(Stream(p, Chunks(size), appendThrows), n, appendThrows);
      && r.bufferContents == [Chunks(size)[0]]
      && r.bufferContents != Chunks(size)
      && |r.queue| > 0
  {
    LongFileHasTwoChunks(size);
    StreamFromIdle(p, Chunks(size), appendThrows);
    AsWrittenNeverResumes(Stream(p, Chunks(size), appendThrows), n, appendThrows);
  }

  /** With the listener corrected, each `updateend` moves the next queued chunk into the
      buffer; one more after the last leaves the pipeline idle and empty. */
  lemma {:induction false} CorrectedDeliversEveryChunk(p: Pipeline, appendThrows: Chunk -> bool)
    requires p.hasSourceBuffer && p.isAppending && p.updating
    requires forall c :: !appendThrows(c)
    ensures var r := UpdateEnds(p, |p.queue| + 1, appendThrows);
      && r.bufferContents == p.bufferContents + p.queue
      && r.queue == [] && !r.isAppending && !r.updating
    decreases |p.queue|
  {
    var next := AfterUpdateEnd(p, appendThrows);
    if |p.queue| == 0 {
      assert UpdateEnds(next, 0, appendThrows) == next;
    } else {
      assert next.bufferContents == p.bufferContents + [p.queue[0]] && next.queue == p.queue[1..];
      CorrectedDeliversEveryChunk(next, appendThrows);
      assert p.queue == [p.queue[0]] + p.queue[1..];
    }
  }

  /** A whole file streamed into an idle player, followed by the `updateend` events, ends
      with every chunk in the buffer in file order. */
  lemma CorrectedPlaysWholeFile(size: nat, p: Pipeline, appendThrows: Chunk -> bool)
    requires size > 0
    requires p == Pipeline([], false, true, false, [])
    requires forall c :: !appendThrows(c)
    ensures var r := UpdateEnds(Stream(p, Chunks(size), appendThrows), |Chunks(size)|, appendThrows);
      r.bufferContents == Chunks(size) && r.queue == [] && !r.isAppending
  {
    ChunksTile(0, size);
    var cs := Chunks(size);
    StreamFromIdle(p, cs, appendThrows);
    var streamed := Stream(p, cs, appendThrows);
    CorrectedDeliversEveryChunk(streamed, appendThrows);
    assert |streamed.queue| + 1 == |cs|;
    assert [cs[0]] + cs[1..] == cs;
  }

  const MediaSourceUnsupported: string := "MediaSource API is not supported in this browser"
  const EmptyFile: string := "Video file is empty"
  /** `'MediaSource error: ' + e` for the `Event` passed to the listener. */
  const MediaSourceFailed: string := "MediaSource error: [object Event]"

  function SourceBufferFailed(mimeType: string, error: string): string {
    "Failed to create SourceBuffer with MIME type " + mimeType + ": " + error
  }

  class MediaPlayer {
    var hasVideoElement: bool
    var hasMediaSource: bool
    var hasSourceBuffer: bool
    var updating: bool
    var chunkQueue: seq<Chunk>
    var isAppending: bool
    var bufferContents: seq<Chunk>

    function Pipe(): Pipeline
      reads this
    {
      Pipeline(chunkQueue, isAppending, hasSourceBuffer, updating, bufferContents)
    }

    constructor ()
      ensures !hasVideoElement && !hasMediaSource && Pipe() == Pipeline([], false, false, false, [])
    {
      hasVideoElement := false;
      hasMediaSource := false;
      hasSourceBuffer := false;
      updating := false;
      chunkQueue := [];
      isAppending := false;
      bufferContents := [];
    }

    /** `processNextChunk` */
    method ProcessNextChunk(appendThrows: Chunk -> bool)
      modifies this
      ensures Pipe() == Process(old(Pipe()), appendThrows)
      ensures hasVideoElement == old(hasVideoElement) && hasMediaSource == old(hasMediaSource)
    {
      if isAppending || |chunkQueue| == 0 || !hasSourceBuffer {
        return;
      }
      if updating {
        return;
      }
      var chunk := chunkQueue[0];
      chunkQueue := chunkQueue[1..];
      isAppending := true;
      if appendThrows(chunk) {
        isAppending := false;
      } else {
        bufferContents := bufferContents + [chunk];
        updating := true;
      }
      if hasSourceBuffer && !updating {
        isAppending := false;
      }
    }

    /** The source buffer's `updateend` listener as written: the browser has cleared
        `updating`, and `processNextChunk` runs with `isAppending` as it was. */
    method OnUpdateEndAsWritten(appendThrows: Chunk -> bool)
      modifies this
      ensures Pipe() == AfterUpdateEndAsWritten(old(Pipe()), appendThrows)
      ensures hasVideoElement == old(hasVideoElement) && hasMediaSource == old(hasMediaSource)
    {
      updating := false;
      ProcessNextChunk(appendThrows);
    }

    /** The source buffer's `updateend` listener, with the finished append marked as such. */
    method OnUpdateEnd(appendThrows: Chunk -> bool)
      modifies this
      ensures Pipe() == AfterUpdateEnd(old(Pipe()), appendThrows)
      ensures hasVideoElement == old(hasVideoElement) && hasMediaSource == old(hasMediaSource)
    {
      updating := false;
      isAppending := false;
      ProcessNextChunk(appendThrows);
    }

    /** `streamFileInChunks`.  `chunkRead` is None when `chunk.arrayBuffer()` completes and
        otherwise what it rejects with; a rejection leaves the loop and is returned. */
    method StreamFileInChunks(size: nat, chunkRead: Chunk -> Option<Thrown>, appendThrows: Chunk -> bool)
      returns (thrown: Option<Thrown>)
      modifies this
      ensures (Pipe(), thrown) == StreamReading(old(Pipe()), Chunks(size), chunkRead, appendThrows)
      ensures hasVideoElement == old(hasVideoElement) && hasMediaSource == old(hasMediaSource)
    {
      var offset: nat := 0;
      while offset < size
        invariant offset <= size
        invariant StreamReading(Pipe(), ChunksFrom(offset, size), chunkRead, appendThrows)
          == StreamReading(old(Pipe()), Chunks(size), chunkRead, appendThrows)
        invariant hasVideoElement == old(hasVideoElement) && hasMediaSource == old(hasMediaSource)
        decreases size - offset
      {
        var chunkSize := Min(ChunkSize, size - offset);
        var chunk := Chunk(offset, chunkSize);
        assert ChunksFrom(offset, size)[0] == chunk;
        if chunkRead(chunk).Some? {
          return chunkRead(chunk);
        }
        chunkQueue := chunkQueue + [chunk];
        offset := offset + chunkSize;
        if !isAppending {
          ProcessNextChunk(appendThrows);
        }
      }
      thrown := None;
    }

    /** `cleanup`: empty the queue and drop the buffer, the source and the element. */
    method Cleanup()
      modifies this
      ensures chunkQueue == [] && !isAppending
      ensures !hasSourceBuffer && !hasMediaSource && !hasVideoElement
      ensures updating == old(updating) && bufferContents == old(bufferContents)
    {
      chunkQueue := [];
      isAppending := false;
      hasSourceBuffer := false;
      hasMediaSource := false;
      hasVideoElement := false;
    }

    /** `stop` */
    method Stop()
      modifies this
      ensures chunkQueue == [] && !isAppending
      ensures !hasSourceBuffer && !hasMediaSource && !hasVideoElement
      ensures updating == old(updating) && bufferContents == old(bufferContents)
    {
      Cleanup();
    }

    /** `getCurrentTime`, given the element's current time. */
    function GetCurrentTime(elementTime: real): (t: real)
      reads this
      ensures !hasVideoElement ==> t == 0.0
      ensures hasVideoElement ==> t == elementTime
    {
      if hasVideoElement then elementTime else 0.0
    }

    /** `getDuration`, given the element's duration; None stands for the NaN an element
        reports until its metadata is known, which `|| 0` turns into 0. */
    function GetDuration(elementDuration: Option<real>): (d: real)
      reads this
      ensures !hasVideoElement || elementDuration.None? ==> d == 0.0
      ensures hasVideoElement && elementDuration.Some? ==> d == elementDuration.value
    {
      if hasVideoElement && elementDuration.Some? then elementDuration.value else 0.0
    }

    /** `playMedia2`.  `file` is the OPFS lookup of the file's size; `sourceOpens` tells
        whether the media source opens (rather than raising 'error'); `addSourceBuffer` is
        None when the buffer is created and otherwise the text of the error it throws;
        `chunkRead` is the outcome of reading each chunk.  Any failure cleans up and is
        rethrown. */
    method PlayMedia2(mediaSourceSupported: bool, file: Step<nat>, sourceOpens: bool,
                      mimeType: string, addSourceBuffer: Option<string>,
                      chunkRead: Chunk -> Option<Thrown>, appendThrows: Chunk -> bool)
      returns (thrown: Option<Thrown>)
      modifies this
      ensures thrown.Some? ==>
        && chunkQueue == [] && !isAppending && !hasSourceBuffer && !hasMediaSource && !hasVideoElement
      ensures !mediaSourceSupported ==> thrown == Some(ThrownError(MediaSourceUnsupported))
      ensures mediaSourceSupported && file.Threw? ==> thrown == Some(file.thrown)
      ensures mediaSourceSupported && file == Done(0) ==> thrown == Some(ThrownError(EmptyFile))
      ensures mediaSourceSupported && file.Done? && file.value > 0 && !sourceOpens ==>
        thrown == Some(ThrownError(MediaSourceFailed))
      ensures mediaSourceSupported && file.Done? && file.value > 0 && sourceOpens && addSourceBuffer.Some? ==>
        thrown == Some(ThrownError(SourceBufferFailed(mimeType, addSourceBuffer.value)))
      ensures mediaSourceSupported && file.Done? && file.value > 0 && sourceOpens && addSourceBuffer.None? ==>
        var streamed := StreamReading(Pipeline([], false, true, false, []), Chunks(file.value), chunkRead, appendThrows);
        && thrown == streamed.1
        && (thrown.None? ==> hasVideoElement && hasMediaSource && Pipe() == streamed.0)
    {
      Cleanup();
      hasVideoElement := true;
      if !mediaSourceSupported {
        thrown := Some(ThrownError(MediaSourceUnsupported));
      } else if file.Threw? {
        thrown := Some(file.thrown);
      } else if file.value == 0 {
        thrown := Some(ThrownError(EmptyFile));
      } else {
        hasMediaSource := true;
        if !sourceOpens {
          thrown := Some(ThrownError(MediaSourceFailed));
        } else if addSourceBuffer.Some? {
          thrown := Some(ThrownError(SourceBufferFailed(mimeType, addSourceBuffer.value)));
        } else {
          hasSourceBuffer := true;
          updating := false;
          bufferContents := [];
          thrown := StreamFileInChunks(file.value, chunkRead, appendThrows);
          if thrown.None? {
            return;
          }
        }
      }
      Cleanup();
    }
  }
}
