/** The media cleanup decisions of src/lib/services/media-cleanup.ts.

    IndexedDB (`getMediaById`, `isMediaUsedInOtherBlocks`, `removeMedia`) and the
    OPFS recorder-cache directory are oracles: each call's outcome is given as a
    parameter, either a value or the value it throws. */
module MediaCleanup {
  import opened Wrappers
  import opened ErrorHandler

  datatype MediaRecord = MediaRecord(mediaId: string, projectId: string)

  /** How `removeFromOPFS`'s directory lookup and `removeEntry` end: removed, a DOMException
      named 'NotFoundError', or any other thrown value. */
  datatype StorageOutcome = StorageRemoved | StorageNotFound | StorageFailed(thrown: Thrown)

  /** The outcomes of the storage calls one `cleanupMedia` call makes, in order.
      `usedElsewhere` answers `isMediaUsedInOtherBlocks(mediaId, projectId, excludeBlockId)`;
      `dbRemove` is None when `removeMedia` completes. */
  datatype CleanupOracle = CleanupOracle(
    lookup: Step<Option<MediaRecord>>,
    usedElsewhere: Step<bool>,
    dbRemove: Option<Thrown>,
    storage: StorageOutcome)

  datatype CleanupResult = CleanupResult(
    success: bool,
    mediaId: string,
    removedFromDatabase: bool,
    removedFromStorage: bool,
    error: Option<string>)

  const NotInDatabase: string := "Media not found in database"
  const StillUsed: string := "Media is still used in other blocks"
  const UnknownCleanupError: string := "Unknown cleanup error"

  /** The message of the `FileSystemError` that `removeFromOPFS` throws. */
  function StorageFailureMessage(mediaId: string): string {
    "Failed to remove media file " + mediaId + " from OPFS"
  }

  /** `removeFromOPFS`: a missing file is not a failure; any other error becomes a
      `FileSystemError` carrying the media id. */
  function RemoveFromStorage(mediaId: string, outcome: StorageOutcome, now: int): (thrown: Option<Thrown>)
    ensures thrown.None? <==> !outcome.StorageFailed?
    ensures thrown.Some? ==>
      && thrown.value.ThrownApp?
      && thrown.value.app.code == Some("FILESYSTEM_ERROR")
      && thrown.value.app.message == StorageFailureMessage(mediaId)
  {
    match outcome
    case StorageFailed(_) =>
      var context := map["mediaId" := Text(mediaId), "originalError" := Opaque(0)];
      Some(ThrownApp(NewSubclassError(FileSystem, StorageFailureMessage(mediaId), Some(context), now)))
    case _ => None
  }

  /** The result `cleanupMedia` returns for one media id. */
  function CleanupOutcome(mediaId: string, oracle: CleanupOracle): (r: CleanupResult)
    ensures r.mediaId == mediaId
    ensures r.success <==> r.removedFromDatabase && r.removedFromStorage
    ensures r.success <==> r.error.None?
    ensures r.removedFromStorage ==> r.removedFromDatabase
    ensures oracle.lookup == Done(None) ==>
      r == CleanupResult(false, mediaId, false, false, Some(NotInDatabase))
    ensures oracle.lookup.Done? && oracle.lookup.value.Some? && oracle.usedElsewhere == Done(true) ==>
      r == CleanupResult(false, mediaId, false, false, Some(StillUsed))
    ensures r.removedFromDatabase <==>
      oracle.lookup.Done? && oracle.lookup.value.Some? && oracle.usedElsewhere == Done(false) && oracle.dbRemove.None?
    ensures r.removedFromDatabase && oracle.storage.StorageFailed? ==>
      !r.success && r.error == Some(StorageFailureMessage(mediaId))
    ensures r.removedFromDatabase && !oracle.storage.StorageFailed? ==> r.success
  {
    var initial := CleanupResult(false, mediaId, false, false, None);
    match oracle.lookup
    case Threw(t) => initial.(error := Some(ErrorMessageOr(t, UnknownCleanupError)))
    case Done(None) => initial.(error := Some(NotInDatabase))
    case Done(Some(_)) =>
      match oracle.usedElsewhere
      case Threw(t) => initial.(error := Some(ErrorMessageOr(t, UnknownCleanupError)))
      case Done(true) => initial.(error := Some(StillUsed))
      case Done(false) =>
        if oracle.dbRemove.Some? then
          initial.(error := Some(ErrorMessageOr(oracle.dbRemove.value, UnknownCleanupError)))
        else if oracle.storage.StorageFailed? then
          initial.(removedFromDatabase := true, error := Some(StorageFailureMessage(mediaId)))
        else
          initial.(removedFromDatabase := true, removedFromStorage := true, success := true)
  }

  /** `cleanupMedia`, updating the result record step by step as the source does.
      `projectId` and `excludeBlockId` only reach the usage query, whose answer is in
      `oracle`; `now` stamps the `FileSystemError`. */
  method CleanupMedia(mediaId: string, projectId: string, excludeBlockId: Option<string>, oracle: CleanupOracle, now: int)
    returns (result: CleanupResult)
    ensures result == CleanupOutcome(mediaId, oracle)
  {
    result := CleanupResult(false, mediaId, false, false, None);
    var caught: Option<Thrown> := None;
    match oracle.lookup {
      case Threw(t) => caught := Some(t);
      case Done(None) =>
        result := result.(error := Some(NotInDatabase));
        return;
      case Done(Some(_)) =>
        match oracle.usedElsewhere {
          case Threw(t) => caught := Some(t);
          case Done(true) =>
            result := result.(error := Some(StillUsed));
            return;
          case Done(false) =>
            if oracle.dbRemove.Some? {
              caught := oracle.dbRemove;
            } else {
              result := result.(removedFromDatabase := true);
              caught := RemoveFromStorage(mediaId, oracle.storage, now);
              if caught.None? {
                result := result.(removedFromStorage := true);
                result := result.(success := true);
              }
            }
        }
    }
    if caught.Some? {
      result := result.(error := Some(ErrorMessageOr(caught.value, UnknownCleanupError)));
    }
  }

  datatype CleanupSummary = CleanupSummary(
    totalAttempted: nat,
    totalSuccessful: nat,
    totalFailed: nat,
    results: seq<CleanupResult>)

  /** `results.filter((r) => r.success).length` */
  function CountSuccessful(results: seq<CleanupResult>): (n: nat)
    ensures n <= |results|
    ensures n == 0 <==> forall i | 0 <= i < |results| :: !results[i].success
    ensures n == |results| <==> forall i | 0 <= i < |results| :: results[i].success
  {
    if |results| == 0 then 0
    else CountSuccessful(results[..|results| - 1]) + (if results[|results| - 1].success then 1 else 0)
  }

  /** `results.filter((r) => !r.success).length` */
  function CountFailed(results: seq<CleanupResult>): (n: nat)
    ensures n <= |results|
    ensures n == 0 <==> forall i | 0 <= i < |results| :: results[i].success
    ensures n == |results| <==> forall i | 0 <= i < |results| :: !results[i].success
  {
    if |results| == 0 then 0
    else CountFailed(results[..|results| - 1]) + (if results[|results| - 1].success then 0 else 1)
  }

  /** Every result is counted exactly once, as a success or as a failure. */
  lemma {:induction false} CountsPartition(results: seq<CleanupResult>)
    ensures CountSuccessful(results) + CountFailed(results) == |results|
  {
    if |results| > 0 {
      CountsPartition(results[..|results| - 1]);
    }
  }

  /** The outcome oracle of the i-th `cleanupMedia` call of a batch. */
  type CleanupOracles = nat -> CleanupOracle

  /** `cleanupMultipleMedia`: one result per id, in input order, and the counts. */
  method CleanupMultipleMedia(mediaIds: seq<string>, projectId: string, excludeBlockId: Option<string>,
                              oracles: CleanupOracles, now: int)
    returns (summary: CleanupSummary)
    ensures |summary.results| == |mediaIds|
    ensures forall i | 0 <= i < |mediaIds| :: summary.results[i] == CleanupOutcome(mediaIds[i], oracles(i))
    ensures summary.totalAttempted == |mediaIds|
    ensures summary.totalSuccessful == CountSuccessful(summary.results)
    ensures summary.totalFailed == CountFailed(summary.results)
    ensures summary.totalSuccessful + summary.totalFailed == summary.totalAttempted
  {
    var results: seq<CleanupResult> := [];
    var i := 0;
    while i < |mediaIds|
      invariant 0 <= i <= |mediaIds|
      invariant |results| == i
      invariant forall k | 0 <= k < i :: results[k] == CleanupOutcome(mediaIds[k], oracles(k))
    {
      var result := CleanupMedia(mediaIds[i], projectId, excludeBlockId, oracles(i), now);
      results := results + [result];
      i := i + 1;
    }
    CountsPartition(results);
    summary := CleanupSummary(|mediaIds|, CountSuccessful(results), CountFailed(results), results);
  }

  /** `cleanupBlockMedia`: the batch cleanup with the block excluded from the usage query. */
  method CleanupBlockMedia(mediaIds: seq<string>, projectId: string, blockId: string, oracles: CleanupOracles, now: int)
    returns (summary: CleanupSummary)
    ensures |summary.results| == |mediaIds| == summary.totalAttempted
    ensures forall i | 0 <= i < |mediaIds| :: summary.results[i] == CleanupOutcome(mediaIds[i], oracles(i))
    ensures summary.totalSuccessful + summary.totalFailed == summary.totalAttempted
  {
    summary := CleanupMultipleMedia(mediaIds, projectId, Some(blockId), oracles, now);
  }

  /** One entry of the recorder-cache directory. */
  datatype Entry = Entry(name: string, isFile: bool)

  /** The names of the file entries, in listing order. */
  function FileNames(entries: seq<Entry>): (names: seq<string>)
    ensures |names| <= |entries|
    ensures forall n :: n in names <==> exists e :: e in entries && e.isFile && e.name == n
  {
    if |entries| == 0 then []
    else
      var last := entries[|entries| - 1];
      var front := entries[..|entries| - 1];
      assert forall e :: e in entries <==> e in front || e == last;
      FileNames(front) + (if last.isFile then [last.name] else [])
  }

  /** The orphan test: no record, a record of another project, or not used in any block. */
  predicate IsOrphan(projectId: string, record: Option<MediaRecord>, used: bool) {
    record.None? || record.value.projectId != projectId || !used
  }

  /** The second loop of `findOrphanedMedia` over `files`: the orphans in order, or None
      when a lookup throws.  `used` is only asked for files recorded for this project. */
  function OrphanScan(projectId: string, files: seq<string>,
                      lookup: string -> Step<Option<MediaRecord>>, used: string -> Step<bool>)
    : Option<seq<string>>
  {
    if |files| == 0 then Some([])
    else
      var name := files[|files| - 1];
      match OrphanScan(projectId, files[..|files| - 1], lookup, used)
      case None => None
      case Some(orphans) =>
        match lookup(name)
        case Threw(_) => None
        case Done(record) =>
          if record.None? || record.value.projectId != projectId then Some(orphans + [name])
          else
            match used(name)
            case Threw(_) => None
            case Done(isUsed) => if isUsed then Some(orphans) else Some(orphans + [name])
  }

  /** When the scan completes, it flags a file exactly when the orphan test holds for it. */
  lemma {:induction false} OrphanScanFlagsExactly(projectId: string, files: seq<string>,
                                                  lookup: string -> Step<Option<MediaRecord>>, used: string -> Step<bool>)
    requires OrphanScan(projectId, files, lookup, used).Some?
    ensures forall name :: name in OrphanScan(projectId, files, lookup, used).value <==>
      && name in files
      && lookup(name).Done?
      && (lookup(name).value.None? || lookup(name).value.value.projectId != projectId || used(name) == Done(false))
    ensures forall name | name in files && lookup(name).Done? ::
      name in OrphanScan(projectId, files, lookup, used).value <==>
      IsOrphan(projectId, lookup(name).value, used(name) == Done(true))
  {
    if |files| > 0 {
      var front := files[..|files| - 1];
      var name := files[|files| - 1];
      OrphanScanFlagsExactly(projectId, front, lookup, used);
      assert forall n :: n in files <==> n in front || n == name;
    }
  }

  /** `findOrphanedMedia`: list the files, then test each; any thrown value gives []. */
  method FindOrphanedMedia(projectId: string, listing: Step<seq<Entry>>,
                           lookup: string -> Step<Option<MediaRecord>>, used: string -> Step<bool>)
    returns (orphaned: seq<string>)
    ensures listing.Threw? ==> orphaned == []
    ensures listing.Done? ==>
      orphaned == OrphanScan(projectId, FileNames(listing.value), lookup, used).GetOr([])
  {
    if listing.Threw? {
      return [];
    }
    var entries := listing.value;
    var opfsFiles: seq<string> := [];
    var i := 0;
    while i < |entries|
      invariant 0 <= i <= |entries|
      invariant opfsFiles == FileNames(entries[..i])
    {
      assert entries[..i + 1][..i] == entries[..i];
      if entries[i].isFile {
        opfsFiles := opfsFiles + [entries[i].name];
      }
      i := i + 1;
    }
    assert entries[..i] == entries;
    orphaned := [];
    var j := 0;
    while j < |opfsFiles|
      invariant 0 <= j <= |opfsFiles|
      invariant OrphanScan(projectId, opfsFiles[..j], lookup, used) == Some(orphaned)
    {
      var filename := opfsFiles[j];
      assert opfsFiles[..j + 1][..j] == opfsFiles[..j];
      match lookup(filename) {
        case Threw(_) =>
          OrphanScanFailureSticks(projectId, opfsFiles, j + 1, lookup, used);
          return [];
        case Done(record) =>
          if record.None? || record.value.projectId != projectId {
            orphaned := orphaned + [filename];
          } else {
            match used(filename) {
              case Threw(_) =>
                OrphanScanFailureSticks(projectId, opfsFiles, j + 1, lookup, used);
                return [];
              case Done(isUsed) =>
                if !isUsed {
                  orphaned := orphaned + [filename];
                }
            }
          }
      }
      j := j + 1;
    }
    assert opfsFiles[..j] == opfsFiles;
  }

  /** A scan that failed on a prefix of the files fails on the whole list. */
  lemma {:induction false} OrphanScanFailureSticks(projectId: string, files: seq<string>, k: nat,
                                                   lookup: string -> Step<Option<MediaRecord>>, used: string -> Step<bool>)
    requires k <= |files|
    requires OrphanScan(projectId, files[..k], lookup, used).None?
    ensures OrphanScan(projectId, files, lookup, used).None?
    decreases |files| - k
  {
    if k < |files| {
      assert files[..k + 1][..k] == files[..k];
      OrphanScanFailureSticks(projectId, files, k + 1, lookup, used);
    } else {
      assert files[..k] == files;
    }
  }

  /** `cleanupOrphanedMedia`: the batch cleanup of whatever `findOrphanedMedia` flags. */
  method CleanupOrphanedMedia(projectId: string, listing: Step<seq<Entry>>,
                              lookup: string -> Step<Option<MediaRecord>>, used: string -> Step<bool>,
                              oracles: CleanupOracles, now: int)
    returns (summary: CleanupSummary)
    ensures var orphaned := if listing.Threw? then []
                            else OrphanScan(projectId, FileNames(listing.value), lookup, used).GetOr([]);
            && |summary.results| == |orphaned| == summary.totalAttempted
            && (forall i | 0 <= i < |orphaned| :: summary.results[i] == CleanupOutcome(orphaned[i], oracles(i)))
            && summary.totalSuccessful + summary.totalFailed == summary.totalAttempted
  {
    var orphaned := FindOrphanedMedia(projectId, listing, lookup, used);
    summary := CleanupMultipleMedia(orphaned, projectId, None, oracles, now);
  }

  datatype FileStat = FileStat(name: string, size: nat)

  datatype StorageStats = StorageStats(totalFiles: nat, totalSizeBytes: nat, files: seq<FileStat>)

  /** The sum of the sizes. */
  function TotalSize(files: seq<FileStat>): nat {
    if |files| == 0 then 0 else TotalSize(files[..|files| - 1]) + files[|files| - 1].size
  }

  /** The name and size of every file entry, in listing order, or None when reading a file
      throws. */
  function StatFiles(entries: seq<Entry>, size: string -> Step<nat>): (r: Option<seq<FileStat>>)
    ensures r.Some? ==>
      && |r.value| == |FileNames(entries)|
      && forall i | 0 <= i < |r.value| :: r.value[i].name == FileNames(entries)[i]
    ensures r.Some? ==> forall i | 0 <= i < |r.value| :: size(r.value[i].name) == Done(r.value[i].size)
    ensures r.None? <==> exists i | 0 <= i < |entries| :: entries[i].isFile && size(entries[i].name).Threw?
  {
    if |entries| == 0 then Some([])
    else
      var last := entries[|entries| - 1];
      assert forall i | 0 <= i < |entries| - 1 :: entries[..|entries| - 1][i] == entries[i];
      match StatFiles(entries[..|entries| - 1], size)
      case None => None
      case Some(front) =>
        if !last.isFile then Some(front)
        else
          match size(last.name)
          case Threw(_) => None
          case Done(n) => Some(front + [FileStat(last.name, n)])
  }

  /** `getStorageStats`: the files with their sizes and the total; zeros on any error. */
  method GetStorageStats(listing: Step<seq<Entry>>, size: string -> Step<nat>) returns (stats: StorageStats)
    ensures stats.totalFiles == |stats.files|
    ensures stats.totalSizeBytes == TotalSize(stats.files)
    ensures listing.Done? && StatFiles(listing.value, size).Some? ==> stats.files == StatFiles(listing.value, size).value
    ensures listing.Threw? || StatFiles(listing.value, size).None? ==> stats == StorageStats(0, 0, [])
  {
    if listing.Threw? {
      return StorageStats(0, 0, []);
    }
    var entries := listing.value;
    var files: seq<FileStat> := [];
    var totalSizeBytes := 0;
    var i := 0;
    while i < |entries|
      invariant 0 <= i <= |entries|
      invariant StatFiles(entries[..i], size) == Some(files)
      invariant totalSizeBytes == TotalSize(files)
    {
      assert entries[..i + 1][..i] == entries[..i];
      if entries[i].isFile {
        match size(entries[i].name) {
          case Threw(_) =>
            StatFilesFailureSticks(entries, i + 1, size);
            return StorageStats(0, 0, []);
          case Done(n) =>
            files := files + [FileStat(entries[i].name, n)];
            totalSizeBytes := totalSizeBytes + n;
        }
      }
      i := i + 1;
    }
    assert entries[..i] == entries;
    stats := StorageStats(|files|, totalSizeBytes, files);
  }

  /** Once reading a file has thrown, the whole listing fails. */
  lemma {:induction false} StatFilesFailureSticks(entries: seq<Entry>, k: nat, size: string -> Step<nat>)
    requires k <= |entries|
    requires StatFiles(entries[..k], size).None?
    ensures StatFiles(entries, size).None?
    decreases |entries| - k
  {
    if k < |entries| {
      assert entries[..k + 1][..k] == entries[..k];
      StatFilesFailureSticks(entries, k + 1, size);
    } else {
      assert entries[..k] == entries;
    }
  }
}
