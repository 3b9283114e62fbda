# blocky-sv core, modelled in Dafny

This project models the core logic of blocky-sv, a SvelteKit application for recording audio or video "blocks" of a project and playing them back in order. One Dafny module corresponds to one source file:

| module | source file | flavour |
|---|---|---|
| `Wrappers` | — | `Option` |
| `ErrorHandler` | `src/lib/utils/error-handler.ts` | pure: the `AppError` family, `handleError`, `formatErrorMessage`; also `Thrown` (what a `catch` receives) and `Step<T>` (the outcome of an awaited call) |
| `Blocks` | `src/lib/services/block-manager.ts` | pure block algebra; the `validateBlocks` loop as a method; the manager's config as a class |
| `ProjectRepo` | `src/lib/server/repo/project.ts` | pure reads of the version-1 snapshot document (`src/lib/types/project-snapshot-v1.ts`) |
| `ProjectStore` | `src/lib/services/project-store.ts` | a class whose `state` field is the Svelte writable, plus a registry for `getInstance` |
| `SelectedBlock` | `src/lib/stores/selectedBlock.ts` | a class holding the selected id |
| `Toast` | `src/lib/utils/toast.ts` | a class holding the toast list |
| `Forms` | `src/lib/schemas/forms.ts` | the zod schemas as issue lists |
| `MediaCleanup` | `src/lib/services/media-cleanup.ts` | methods with loops, each proved equal to a specification function |
| `MediaRecording` | `src/lib/services/media-recording.ts` | a class holding the recording session |
| `MediaPlayback` | `src/lib/services/media-playback.ts` | a class holding the playlist state; browser events are methods |
| `MediaPlayer` | `src/lib/client/media-player.remove.ts` | a class holding the chunk queue, with a pure pipeline model beside it |
| `Opfs` | `src/lib/client/opfs.ts` | a class holding the root and the two handle caches |

Everything outside the process is an oracle given as a parameter. This covers IndexedDB, the Origin Private File System (OPFS), the SQL database, `MediaSource`/`SourceBuffer`, `MediaRecorder`, `getUserMedia`, `crypto.randomUUID()` and `new Date()`. For each call the oracle holds what it yields or what it throws. A thrown value is a `Thrown` (an `AppError`, another `Error`, a string, or anything else). Browser events (`timeupdate`, `updateend`, the recorder's `error`, …) are methods the environment calls. Svelte stores become class fields. A derived store becomes a function of the state. The `state` getter of the playback service hands out a datatype value, so it cannot alias the service's record.

## Model

| member | source | states |
|---|---|---|
| ErrorHandler.NewSubclassError | src/lib/utils/error-handler.ts:31-71 | each subclass fixes its code (MEDIA_ERROR … FILESYSTEM_ERROR) and its name, and keeps the message, context and timestamp |
| ErrorHandler.SubclassCodesIdentifyKind | src/lib/utils/error-handler.ts:31-71 | two subclass errors share a code iff they are the same subclass; no subclass uses UNKNOWN_ERROR |
| ErrorHandler.ToJson | src/lib/utils/error-handler.ts:21-28 | toJSON keeps message, code, timestamp and context: with the class name, the error is rebuilt exactly from the JSON |
| ErrorHandler.ToJsonInjectivePerClass | src/lib/utils/error-handler.ts:21-28 | two errors of the same class have equal JSON iff they are equal |
| ErrorHandler.IsAppError | src/lib/utils/error-handler.ts:110-112 | true exactly for a thrown AppError, of whichever subclass (the `instanceof` test) |
| ErrorHandler.FormatErrorMessage | src/lib/utils/error-handler.ts:114-124 | the AppError's or Error's message, the string itself, else 'An unknown error occurred' |
| ErrorHandler.ErrorMessageOr | src/lib/services/project-store.ts:81 | `error instanceof Error ? error.message : fallback`: an Error's message agrees with formatErrorMessage; any other thrown value gives the fallback |
| ErrorHandler.HandlerContext | src/lib/utils/error-handler.ts:76-79 | the context holds handlerContext under its key, overriding a same-named key; every other key comes from the additional context, with its value |
| ErrorHandler.HandleError | src/lib/utils/error-handler.ts:75-94 | an AppError is returned unchanged; otherwise a new AppError with code UNKNOWN_ERROR, the built context, the time, and the Error's message / the string / the default text |
| ErrorHandler.HandleErrorAgreesWithFormat | src/lib/utils/error-handler.ts:81-93 | handleError's message is formatErrorMessage's for every thrown value |
| ErrorHandler.HandleErrorIdempotent | src/lib/utils/error-handler.ts:81-83 | handling handleError's own result again returns that result |
| Blocks.FindBlockIndex | src/lib/services/block-manager.ts:61-63 | the index of the first block with the id, and -1 iff no block has it |
| Blocks.FindBlockByMediaId | src/lib/services/block-manager.ts:65-67 | the first block whose current media is the id; null iff none is |
| Blocks.CreateBlock | src/lib/services/block-manager.ts:69-75 | the new block carries the generated id and holds exactly the given media, which is current |
| Blocks.CreateBlockValid | src/lib/services/block-manager.ts:69-75 | a created block passes validation iff both ids are non-empty |
| Blocks.UpdateBlockMedia | src/lib/services/block-manager.ts:77-85 | the id becomes current; the media are unchanged if it was present, else it is appended once at the end |
| Blocks.UpdateBlockMediaKeepsInvariants | src/lib/services/block-manager.ts:77-85 | no duplicate is introduced; the result is valid iff the block id and media id are non-empty |
| Blocks.UpdateBlockMediaIdempotent | src/lib/services/block-manager.ts:77-85 | selecting the same media twice equals selecting it once |
| Blocks.WithoutMedia | src/lib/services/block-manager.ts:88 | the filter keeps exactly the entries with another id |
| Blocks.WithoutAbsentMedia | src/lib/services/block-manager.ts:88 | filtering an absent id returns the list itself |
| Blocks.WithoutMediaCommutes | src/lib/services/block-manager.ts:88 | removing two ids in either order gives the same list |
| Blocks.WithoutMediaAppend | src/lib/services/block-manager.ts:88 | the filter distributes over concatenation, so survivors keep their order |
| Blocks.RemoveMediaFromBlock | src/lib/services/block-manager.ts:87-96 | every entry with the id is dropped; a removed current id is replaced by the first survivor or ''; another current id stays |
| Blocks.RemoveMediaIsComplete | src/lib/services/block-manager.ts:87-96 | after removal the (non-empty) id is neither among the media nor current |
| Blocks.RemoveOtherMediaKeepsValid | src/lib/services/block-manager.ts:87-96 | removing non-current media keeps a valid block valid |
| Blocks.RemoveCurrentMediaReselects | src/lib/services/block-manager.ts:93-94 | removing the current media of a valid block leaves it valid when a survivor with a non-empty id exists |
| Blocks.RemoveOnlyMediaInvalidates | src/lib/services/block-manager.ts:87-112 | removing the only media gives media [] and current '', which validation reports |
| Blocks.UpdateThenRemoveRestoresMedia | src/lib/services/block-manager.ts:77-96 | adding absent media and removing it again restores the media list |
| Blocks.BlockIssuesEmptyIffValid | src/lib/services/block-manager.ts:101-116 | a block draws no error entry iff it has an id, media, a current id, and that id is among its media |
| Blocks.AllIssuesEmptyIffValid | src/lib/services/block-manager.ts:98-123 | the list draws no error entry iff every block is valid |
| Blocks.ValidateBlocks | src/lib/services/block-manager.ts:98-123 | the errors are the per-block entries in list order, and valid iff every block is valid |
| Blocks.GetBlocksPlaylist | src/lib/services/block-manager.ts:125-137 | the whole list without a start id or for an unknown id; otherwise the suffix beginning at the first block with that id |
| Blocks.PlaylistDurationBounded | src/lib/services/block-manager.ts:139-143 | a playlist's estimate never exceeds the full list's, and equals it iff the playlist is the full list |
| Blocks.GetPlaylistDuration | src/lib/services/block-manager.ts:139-143 | three seconds per block: zero iff the list is empty, and each block adds 3 |
| Blocks.ApplyPatchLaws | src/lib/services/block-manager.ts:145-147 | the empty patch changes nothing, a patch is idempotent, and two updates equal one with the later fields winning |
| Blocks.BlockManager.constructor | src/lib/services/block-manager.ts:17-25 | the defaults (200, 'dragged-item', true, 200) overridden by the given fields |
| Blocks.BlockManager.UpdateConfig | src/lib/services/block-manager.ts:145-147 | the config becomes the old one overridden by the given fields |
| ProjectRepo.FindProjectRow | src/lib/server/repo/project.ts:15-19 | a row with both the id and the user id, and none iff no row has both |
| ProjectRepo.FindSnapshotRow | src/lib/server/repo/project.ts:81-85 | a snapshot row of the project, and none iff there is none |
| ProjectRepo.GetProjectDetails | src/lib/server/repo/project.ts:10-26 | 404 'Invalid project ID' for a non-UUID id; otherwise the owned row, or 404 'Project not found' iff no row matches |
| ProjectRepo.GetProjectSnapshot | src/lib/server/repo/project.ts:76-92 | 404 'Ivalid project ID' for a non-UUID id; the body of a snapshot row of the project; 404 iff none exists |
| ProjectRepo.FindAlternative | src/lib/server/repo/project.ts:31 | the first alternative with the id; none iff no alternative has it |
| ProjectRepo.BlockItems | src/lib/server/repo/project.ts:30-43 | fails with 500 iff some block's current alternative is missing; otherwise one item per block, in order, with the block's id and name and its current alternative's id and name |
| ProjectRepo.GetBlockList | src/lib/server/repo/project.ts:28-46 | the snapshot's error, or the projection of its blocks |
| ProjectRepo.GetBlockListOnConsistentDocument | src/lib/server/repo/project.ts:28-46 | on a document whose blocks all resolve their current alternative, the list succeeds with one matching item per block |
| ProjectRepo.AlternativeItems | src/lib/server/repo/project.ts:60-64 | one {id, name} item per alternative, in order |
| ProjectRepo.FindBlockV1 | src/lib/server/repo/project.ts:58 | the first block with the id; none iff no block has it |
| ProjectRepo.GetAlternativeList | src/lib/server/repo/project.ts:48-67 | the snapshot's 404 first, then 422 for a non-UUID block id, else the block's alternatives as items, or [] for an unknown block |
| ProjectRepo.AlternativeListChecksProjectFirst | src/lib/server/repo/project.ts:52-56 | a malformed project id gives 404 whatever the block id |
| ProjectStore.WithoutBlock | src/lib/services/project-store.ts:161-163 | keeps exactly the blocks with another id |
| ProjectStore.WithoutBlockOrder | src/lib/services/project-store.ts:161-163 | the filter distributes over concatenation, and leaves a list without the id unchanged |
| ProjectStore.BlocksOf | src/lib/services/project-store.ts:27-30 | the derived blocks: the snapshot's blocks, or [] without a snapshot |
| ProjectStore.IsLoaded | src/lib/services/project-store.ts:31-34 | loaded iff not loading and a snapshot is present |
| ProjectStore.BlockById | src/lib/services/project-store.ts:185-188 | the first block with the id; null iff none has it |
| ProjectStore.ToPlainObject | src/lib/services/project-store.ts:217-230 | each array element becomes its copy; an object's properties become exactly its own ones, in order, each with its key and a copy of its value; other values are returned as they are |
| ProjectStore.OwnOnly | src/lib/services/project-store.ts:222-223 | exactly the own properties of the list, no longer than it |
| ProjectStore.PlainItems | src/lib/services/project-store.ts:218-219 | one copy per element, at the same position |
| ProjectStore.PlainProps | src/lib/services/project-store.ts:220-227 | one entry per own property, in order, with its key and a copy of its value |
| ProjectStore.ToPlainObjectCopies | src/lib/services/project-store.ts:217-230 | the copy has no inherited property anywhere, and a value without one is copied unchanged |
| ProjectStore.PlainItemsCopies | src/lib/services/project-store.ts:218-219 | the same for the elements of an array |
| ProjectStore.PlainPropsCopies | src/lib/services/project-store.ts:220-227 | the copied properties are plain and an all-own plain list is copied unchanged; every own property reappears with its key and a copy of its value |
| ProjectStore.PlainPropsDropsInherited | src/lib/services/project-store.ts:220-227 | copying a property list is copying its own properties alone: inherited entries are dropped |
| ProjectStore.PlainPropsKeepsOwn | src/lib/services/project-store.ts:220-227 | every own property survives the copy with its key and a copy of its value |
| ProjectStore.AddedBlockIsFound | src/lib/services/project-store.ts:93-116 | after appending a new block, looking it up finds it, it is valid, and the earlier blocks are unchanged |
| ProjectStore.RemovedBlockIsGone | src/lib/services/project-store.ts:154-188 | after removeBlock no lookup of the id succeeds, and lookups of other ids are unchanged |
| ProjectStore.ProjectStore.constructor | src/lib/services/project-store.ts:36-41 | the state is {projectId, null, not loading, no error} |
| ProjectStore.ProjectStore.SaveSnapshot | src/lib/services/project-store.ts:197-207 | the current snapshot is written iff the write completes; its failure is passed on |
| ProjectStore.ProjectStore.LoadProject | src/lib/services/project-store.ts:50-85 | ends not loading; installs the stored snapshot, or the default {'current', projectId, 1, []} and saves it; on a failure keeps the message or 'Failed to load project'; a load that finds or creates a snapshot leaves the project loaded, and a failed fetch leaves it loaded iff it was |
| ProjectStore.ProjectStore.AddMediaToProject | src/lib/services/project-store.ts:87-125 | records the media, then appends exactly one block [{mediaId}]/mediaId and saves; without a snapshot the error is 'No current snapshot' and the snapshot stays null |
| ProjectStore.ProjectStore.ReorderBlocks | src/lib/services/project-store.ts:127-152 | the block list becomes exactly the given list; without a snapshot, error 'No current snapshot' |
| ProjectStore.ProjectStore.RemoveBlock | src/lib/services/project-store.ts:154-183 | the block list loses every block with the id, others keep their order; without a snapshot, error 'No current snapshot' |
| ProjectStore.ProjectStore.GetBlockById | src/lib/services/project-store.ts:185-188 | the first block of the current snapshot with that id; null iff none has it |
| ProjectStore.ProjectStore.ClearError | src/lib/services/project-store.ts:190-195 | only the error is cleared |
| ProjectStore.ProjectStoreRegistry.constructor | src/lib/services/project-store.ts:18 | no instances |
| ProjectStore.ProjectStoreRegistry.GetInstance | src/lib/services/project-store.ts:43-48 | the existing store for the id, or a fresh one that is registered |
| ProjectStore.GetInstanceTwice | src/lib/services/project-store.ts:43-48 | two requests for the same id return the same store |
| SelectedBlock.Fallback | src/lib/stores/selectedBlock.ts:21-32 | an available id: the stored one when it is set, non-empty and available, else the first |
| SelectedBlock.FallbackIsStable | src/lib/stores/selectedBlock.ts:21-32 | with non-empty ids, the settled selection is usable and asking again keeps it |
| SelectedBlock.EmptyFirstIdIsRewritten | src/lib/stores/selectedBlock.ts:25 | an empty first id is never accepted as stored, so it is rewritten on every call |
| SelectedBlock.SelectedBlockStore.constructor | src/lib/stores/selectedBlock.ts:5 | the store starts null |
| SelectedBlock.SelectedBlockStore.Set | src/lib/stores/selectedBlock.ts:9 | the store holds the given value |
| SelectedBlock.SelectedBlockStore.Reset | src/lib/stores/selectedBlock.ts:11 | the store becomes null |
| SelectedBlock.SelectedBlockStore.GetSelectedBlockId | src/lib/stores/selectedBlock.ts:18-33 | null on an empty list with the store unchanged; the usable stored id with the store unchanged; else the first id, also written to the store; the result is always an available id |
| Toast.NewToast | src/lib/utils/toast.ts:21-27 | the request's id if it carries one, else the generated id; duration 5000 and dismissible true unless the request supplies them; message and type from the request |
| Toast.VariantRequest | src/lib/utils/toast.ts:50-61 | each variant sets its type and message; error adds duration 8000; an option that is present overrides message, type, duration, id and dismissible |
| Toast.VariantDefaults | src/lib/utils/toast.ts:50-61 | without options, an error toast lasts 8000, the others 5000, all dismissible, all auto-dismissed |
| Toast.WithoutToast | src/lib/utils/toast.ts:44 | keeps exactly the toasts with another id |
| Toast.WithoutAbsentToast | src/lib/utils/toast.ts:42-46 | removing an unknown id leaves the list unchanged |
| Toast.WithoutToastAppend | src/lib/utils/toast.ts:44 | the filter distributes over concatenation, so the others keep their order |
| Toast.RemoveUndoesAdd | src/lib/utils/toast.ts:20-46 | removing the id add returned undoes the add, when the id is fresh and the request has none |
| Toast.RemoveMissesOverriddenId | src/lib/utils/toast.ts:21-37 | when the request carries its own id, removing the returned id (the auto-dismiss timer) leaves the toast in place |
| Toast.ToastStore.constructor | src/lib/utils/toast.ts:16 | the list starts empty |
| Toast.ToastStore.Add | src/lib/utils/toast.ts:20-41 | one toast appended at the end, the generated id returned, auto-dismiss scheduled iff duration > 0 |
| Toast.ToastStore.Remove | src/lib/utils/toast.ts:42-46 | the list loses every toast with the id |
| Toast.ToastStore.Clear | src/lib/utils/toast.ts:47-49 | the list becomes empty |
| Toast.ToastStore.Notify | src/lib/utils/toast.ts:50-61 | success/error/warning/info append the variant's toast |
| Forms.LengthIssues | src/lib/schemas/forms.ts:5-8 | no issue iff lo ≤ length ≤ hi (inclusive), with the min or max message as applicable |
| Forms.DescriptionIssues | src/lib/schemas/forms.ts:17 | an absent description or one of at most 1000 characters is accepted |
| Forms.CreateProjectIssues | src/lib/schemas/forms.ts:4-10 | accepted iff the name has 1 to 32 characters and mediaType is 'audio' or 'video' |
| Forms.AlternativeMetaIssues | src/lib/schemas/forms.ts:30-36 | accepted iff the name has 1 to 100 characters and the description is absent or at most 1000 |
| Forms.BlockMetaIssues | src/lib/schemas/forms.ts:12-19 | accepted iff the name has 1 to 100 characters, the description is absent or at most 1000, and alternativeId is a UUID |
| Forms.BlockMetaExtendsAlternativeMeta | src/lib/schemas/forms.ts:12-36 | the block update reports the alternative update's issues first, plus only an alternativeId issue, present iff the id is not a UUID |
| Forms.BlockAddIssues | src/lib/schemas/forms.ts:21-23 | accepted iff the location is a member of the enum |
| Forms.BlockMoveIssues | src/lib/schemas/forms.ts:25-28 | accepted iff newIndex ≥ 0, with no upper bound and no integrality check |
| MediaCleanup.RemoveFromStorage | src/lib/services/media-cleanup.ts:84-99 | a NotFoundError or a completed removal is success; any other failure becomes a FILESYSTEM_ERROR naming the media id |
| MediaCleanup.CleanupOutcome | src/lib/services/media-cleanup.ts:36-79 | no record: 'Media not found in database'; used elsewhere: 'Media is still used in other blocks'; success iff removed from both iff no error; removal from storage only after removal from the database |
| MediaCleanup.CleanupMedia | src/lib/services/media-cleanup.ts:36-79 | the step-by-step result equals CleanupOutcome |
| MediaCleanup.CountSuccessful | src/lib/services/media-cleanup.ts:118 | at most the number of results; zero iff no result succeeded, all of them iff every result did |
| MediaCleanup.CountFailed | src/lib/services/media-cleanup.ts:119 | at most the number of results; zero iff every result succeeded, all of them iff none did |
| MediaCleanup.CountsPartition | src/lib/services/media-cleanup.ts:116-121 | successes plus failures equal the number of results |
| MediaCleanup.CleanupMultipleMedia | src/lib/services/media-cleanup.ts:104-125 | one result per id, in input order; totalAttempted is the input length and equals successes plus failures |
| MediaCleanup.CleanupBlockMedia | src/lib/services/media-cleanup.ts:130-136 | the batch cleanup with the block excluded, with the same counts |
| MediaCleanup.FileNames | src/lib/services/media-cleanup.ts:147-152 | exactly the names of the file entries |
| MediaCleanup.OrphanScanFlagsExactly | src/lib/services/media-cleanup.ts:155-167 | a file is flagged iff it has no record, a record of another project, or is unused |
| MediaCleanup.OrphanScanFailureSticks | src/lib/services/media-cleanup.ts:155-173 | a lookup that throws on any file makes the whole scan fail |
| MediaCleanup.FindOrphanedMedia | src/lib/services/media-cleanup.ts:141-174 | the scan's orphans in listing order, or [] on any error |
| MediaCleanup.CleanupOrphanedMedia | src/lib/services/media-cleanup.ts:179-182 | the batch cleanup of exactly the orphans found |
| MediaCleanup.StatFiles | src/lib/services/media-cleanup.ts:197-205 | one stat per file entry, in order, with its name and the size its read gave; no listing iff some file's size read throws |
| MediaCleanup.StatFilesFailureSticks | src/lib/services/media-cleanup.ts:197-219 | a size read that throws on any file makes the whole listing fail |
| MediaCleanup.GetStorageStats | src/lib/services/media-cleanup.ts:187-220 | totalFiles is the number of files, totalSizeBytes the sum of the sizes their reads gave; all zero and empty on any error |
| MediaRecording.GetSupportedMimeType | src/lib/services/media-recording.ts:80-95 | the first supported type in preference order, or '' iff none is supported |
| MediaRecording.MediaRecordingService.constructor | src/lib/services/media-recording.ts:6 | no session |
| MediaRecording.MediaRecordingService.IsRecording | src/lib/services/media-recording.ts:17-19 | true iff a session exists |
| MediaRecording.MediaRecordingService.CurrentSessionId | src/lib/services/media-recording.ts:21-23 | the session's file name, or null without a session or with an empty name |
| MediaRecording.MediaRecordingService.StartRecording | src/lib/services/media-recording.ts:25-63 | fails with 'Recording already in progress' during a session; a failed getUserMedia leaves none; otherwise the session records the generated name, which is returned unless the setup throws |
| MediaRecording.MediaRecordingService.StopRecording | src/lib/services/media-recording.ts:65-78 | fails with 'No recording in progress' without a session; otherwise returns its file name and ends it |
| MediaRecording.MediaRecordingService.OnRecorderError | src/lib/services/media-recording.ts:114-117 | the session is cleared |
| MediaRecording.RecordOnce | src/lib/services/media-recording.ts:45-77 | a clean start then a stop return the same file name and leave the service idle |
| MediaPlayback.GetSupportedMimeType | src/lib/services/media-playback.ts:191-201 | the first supported type in preference order; throws 'No supported WebM MIME types found' iff none is |
| MediaPlayback.BlockIndexAt | src/lib/services/media-playback.ts:310-316 | the largest index whose start time the position has reached, else 0 |
| MediaPlayback.BlockIndexAtInterval | src/lib/services/media-playback.ts:302-316 | with ordered start times from 0, the position lies in the found block's interval |
| MediaPlayback.SearchBlockIndex | src/lib/services/media-playback.ts:308-316 | the backward loop computes BlockIndexAt |
| MediaPlayback.BlockIndexInPlaylist | src/lib/services/media-playback.ts:240-246 | with no more start times than blocks, the found index names a playlist block |
| MediaPlayback.MediaPlaybackService.constructor | src/lib/services/media-playback.ts:15-29 | nothing set, an empty playlist, the initial state |
| MediaPlayback.MediaPlaybackService.State | src/lib/services/media-playback.ts:40-42 | a copy of the playback state with every field as stored |
| MediaPlayback.MediaPlaybackService.SetVideoElement | src/lib/services/media-playback.ts:44-47 | the element is set, nothing else changes |
| MediaPlayback.MediaPlaybackService.SetBlockChangeCallback | src/lib/services/media-playback.ts:90-92 | the callback is set, nothing else changes |
| MediaPlayback.MediaPlaybackService.CleanupMediaSource | src/lib/services/media-playback.ts:282-294 | the source and buffer are dropped |
| MediaPlayback.MediaPlaybackService.HandlePlaybackError | src/lib/services/media-playback.ts:296-300 | playing stops and the source and buffer are dropped |
| MediaPlayback.MediaPlaybackService.AppendNextMedia | src/lib/services/media-playback.ts:212-256 | no-op without a buffer or past the playlist end; otherwise an append is pending, or on a load failure playback stops |
| MediaPlayback.MediaPlaybackService.PlayFromBlock | src/lib/services/media-playback.ts:49-68 | fails without an element or an unknown start block; otherwise the playlist is the suffix from the start block (getBlocksPlaylist), index 0, start times [0], totalBlocks its length, isPlaying kept unless the first load fails; fails iff no MIME type is supported, and then the source stays open without a buffer; otherwise the first block's append is pending, or a failed load stops playback and drops the source. The two early failures change nothing |
| MediaPlayback.MediaPlaybackService.OnAppendDone | src/lib/services/media-playback.ts:231-248 | moves to the next block, recording its start time only when another block follows; then, as appendNextMedia, the next append is pending, or a failed load stops playback and drops the source, or past the end nothing else changes; without a pending append nothing changes |
| MediaPlayback.MediaPlaybackService.Stop | src/lib/services/media-playback.ts:78-88 | not playing, no current block, index 0, 0 blocks; source dropped |
| MediaPlayback.MediaPlaybackService.OnPlayingChanged | src/lib/services/media-playback.ts:97-117 | play sets isPlaying, pause and ended clear it |
| MediaPlayback.MediaPlaybackService.OnTimeUpdate | src/lib/services/media-playback.ts:107-112 | records the position; the index becomes BlockIndexAt when it differs; the id changes only inside the playlist; the callback fires iff the id actually changed |
| MediaPlayback.MediaPlaybackService.OnLoadedMetadata | src/lib/services/media-playback.ts:128-133 | the total duration is recorded |
| MediaPlayback.MediaPlaybackService.OnVideoError | src/lib/services/media-playback.ts:119-122 | playing stops and the source is dropped |
| MediaPlayer.ChunksTile | src/lib/client/media-player.remove.ts:115-126 | the chunks tile [0, size) in order with no gap or overlap, each min(2 MiB, rest) |
| MediaPlayer.LongFileHasTwoChunks | src/lib/client/media-player.remove.ts:119-125 | a file over 2 MiB gives at least two chunks |
| MediaPlayer.Process | src/lib/client/media-player.remove.ts:144-168 | no-op when appending, on an empty queue, without a buffer or while updating; else the head is dequeued (FIFO) and appended, or dropped if the append throws |
| MediaPlayer.StreamStep | src/lib/client/media-player.remove.ts:124-130 | one loop iteration: while an append is under way it only queues the chunk; the buffer only grows; with no append failing the chunk joins the end of what is delivered |
| MediaPlayer.Stream | src/lib/client/media-player.remove.ts:119-131 | the whole loop keeps the source buffer and only ever adds to what the buffer holds |
| MediaPlayer.FirstReadFailure | src/lib/client/media-player.remove.ts:119-122 | the first chunk whose read rejects: every earlier read completes |
| MediaPlayer.StreamReadingOutcome | src/lib/client/media-player.remove.ts:119-131 | a rejected `arrayBuffer()` read ends the loop with the chunks before it streamed and that rejection passed on; with every read completing it is the plain stream and nothing is thrown |
| MediaPlayer.StreamKeepsFileOrder | src/lib/client/media-player.remove.ts:124-153 | what the buffer holds followed by what is queued is the earlier contents followed by the file's chunks |
| MediaPlayer.StreamWhileAppending | src/lib/client/media-player.remove.ts:127-130 | while an append is under way, streaming only queues |
| MediaPlayer.StreamFromIdle | src/lib/client/media-player.remove.ts:115-131 | from idle, the first chunk goes to the buffer and the rest are queued in file order |
| MediaPlayer.AfterUpdateEndAsWritten | src/lib/client/media-player.remove.ts:92-94 | the listener as written: while isAppending is set only `updating` clears; otherwise it behaves like the corrected listener |
| MediaPlayer.AsWrittenNeverResumes | src/lib/client/media-player.remove.ts:92-94 | with the listener as written, no updateend moves another chunk once an append is under way |
| MediaPlayer.AsWrittenDeliversOnlyFirstChunk | src/lib/client/media-player.remove.ts:144-168 | as written, a file over 2 MiB ends with only its first chunk buffered |
| MediaPlayer.CorrectedDeliversEveryChunk | src/lib/client/media-player.remove.ts:92-94 | with the corrected listener, the updateend events move every queued chunk, in order, and leave the pipeline idle |
| MediaPlayer.CorrectedPlaysWholeFile | src/lib/client/media-player.remove.ts:101-139 | with the corrected listener, the whole file reaches the buffer in file order |
| MediaPlayer.MediaPlayer.constructor | src/lib/client/media-player.remove.ts:5-9 | no element, source or buffer; empty queue |
| MediaPlayer.MediaPlayer.ProcessNextChunk | src/lib/client/media-player.remove.ts:144-168 | the new pipeline is Process of the old |
| MediaPlayer.MediaPlayer.OnUpdateEndAsWritten | src/lib/client/media-player.remove.ts:92-94 | the listener as written moves the pipeline exactly as AfterUpdateEndAsWritten does |
| MediaPlayer.MediaPlayer.OnUpdateEnd | src/lib/client/media-player.remove.ts:92-94 | the corrected listener: mark the append done, then process the next chunk |
| MediaPlayer.MediaPlayer.StreamFileInChunks | src/lib/client/media-player.remove.ts:115-139 | the loop equals StreamReading over the file's chunks: the chunks before the first rejected read are streamed, and that rejection is returned |
| MediaPlayer.MediaPlayer.Cleanup | src/lib/client/media-player.remove.ts:241-271 | the queue is emptied, isAppending cleared, buffer, source and element dropped |
| MediaPlayer.MediaPlayer.Stop | src/lib/client/media-player.remove.ts:189-195 | as cleanup |
| MediaPlayer.MediaPlayer.GetCurrentTime | src/lib/client/media-player.remove.ts:218-220 | 0 without an element, else its time |
| MediaPlayer.MediaPlayer.GetDuration | src/lib/client/media-player.remove.ts:225-227 | 0 without an element or while the duration is NaN, else the element's duration |
| MediaPlayer.MediaPlayer.PlayMedia2 | src/lib/client/media-player.remove.ts:27-110 | no MediaSource, a failed lookup, an empty file ('Video file is empty'), a source error or a buffer error each clean up and rethrow; otherwise the file is streamed, and a rejected chunk read also cleans up and is rethrown |
| Opfs.SerializeOptions | src/lib/client/opfs.ts:27 | absent options or an absent create serialise as {} |
| Opfs.KeyOptionsOfCacheKey | src/lib/client/opfs.ts:27 | the serialised options can be read back from the end of the key |
| Opfs.CacheKeyInjective | src/lib/client/opfs.ts:27 | two keys are equal iff the paths and serialised options are, even for paths containing ':' |
| Opfs.OpfsManager.constructor | src/lib/client/opfs.ts:3-5 | no root, empty caches |
| Opfs.OpfsManager.GetRootDirectory | src/lib/client/opfs.ts:16-21 | the root is fetched only while none is memoised, then reused |
| Opfs.OpfsManager.GetFileHandle | src/lib/client/opfs.ts:23-38 | a hit returns the cached handle without a root lookup; a miss resolves the root, looks the handle up and caches it under the key |
| Opfs.OpfsManager.GetDirectoryHandle | src/lib/client/opfs.ts:40-55 | the same over the directory cache |
| Opfs.OpfsManager.ClearCache | src/lib/client/opfs.ts:57-60 | both caches emptied, root kept |
| Opfs.OpfsManager.RemoveCachedFileHandle | src/lib/client/opfs.ts:62-65 | only that key leaves the file cache |
| Opfs.OpfsManager.RemoveCachedDirectoryHandle | src/lib/client/opfs.ts:67-70 | only that key leaves the directory cache |
| Opfs.RemoveKeepsOtherEntries | src/lib/client/opfs.ts:62-65 | removing one request's entry keeps every entry of another path or other options |

## Left out

- `BlockManager.getInstance`, `getSortableConfig`, `setReorderCallback` and the reorder handler: they wrap the SortableJS library and `reorder` from `src/lib/client/use-sortable.svelte.ts`, which is not part of this model.
- `createBlock`'s `crypto.randomUUID()`: the block id is a parameter.
- `validateBlocks` error strings: each entry is an `Issue` constructor carrying the interpolated index or id, not the formatted text. `!block.media` on a missing media array is not modelled, because the type has an array.
- The server-side snapshot mutations (add, move or remove blocks and alternatives): `createNewSnapshot` is not part of this model, and `src/lib/types/project-snapshot-v1.ts` holds only the types used here.
- `uuidValid` (`src/lib/utils/uuid-checker.ts`) and `z.string().uuid()`: both are the parameter `isUuid`. `AddBlockLocationDto` is not part of this model; its values are the parameter `locations`. Non-string inputs and zod's default messages are not modelled (`None` stands for a built-in message).
- String lengths are counted in characters, not UTF-16 code units.
- Forms.DescriptionIssues: the message says "500 characters" while the enforced limit is 1000. The model follows the code's limit and keeps its message.
- ProjectRepo.GetProjectSnapshot: the 404 message keeps the source's spelling 'Ivalid project ID'.
- The block list items carry only id, name and the current alternative's id and name, as the code builds them; the code is followed where a description or count might be expected.
- `formatBytes`: floating-point rounding and formatting.
- `wrapAsync`, `logError` and the logger: they only rethrow through `handleError` or write to the console.
- Singletons (`getInstance`) of the media, OPFS and cleanup services: each is one object of its class. `ProjectStore.getInstance` is modelled by `ProjectStoreRegistry`.
- Timers: the toast auto-dismiss `setTimeout` is the returned `scheduled` flag. The 100 ms polling of `waitForAllChunksProcessed` is not modelled.
- MediaPlayer.StreamFileInChunks: `updateend` events are modelled as arriving after the loop. The browser may interleave them with the loop's `await`s; the as-written finding does not depend on this order, because no event resumes the queue.
- `endOfStream`, `finalizePlayback`, `video.play()`/`pause()`/`seek` and `URL.createObjectURL`: they change no state of the model. Readiness of the `MediaSource` is the `sourceOpens` flag or assumed.
- MediaPlayback.MediaPlaybackService.PlayFromBlock: `addSourceBuffer` throwing after a supported MIME type is found is not modelled.
- MediaPlayback.MediaPlaybackService.OnTimeUpdate: a NaN current time is not modelled; positions are reals.
- MediaPlayer.MediaPlayer.GetCurrentTime: `|| 0` turning NaN into 0 is not modelled.
- MediaRecording.MediaRecordingService.StartRecording: `userMedia` covers everything that can throw before the session is recorded, including the `MediaRecorder` constructor. The recorder's constraints, `start(5000)`, its data and stop listeners and the stream's tracks are not modelled.
- MediaCleanup.CleanupMultipleMedia: the oracle of each `cleanupMedia` call is indexed by position, so a repeated id may see different storage answers.
- MediaCleanup.FindOrphanedMedia: a directory listing that throws part way is modelled as a listing that throws; either way the result is [].
- Blocks.BlockManager.UpdateConfig and Blocks.BlockManager.constructor: a field passed explicitly as `undefined` would, through the spread, set that option to `undefined`; here an absent field is `None` and keeps the previous value.
- Toast.NewToast: a request that sets `duration` or `dismissible` explicitly to `undefined` would, through the spread, override the default with `undefined`; here an absent field is `None` and always takes the default.
- Svelte's subscription and notification mechanics: each store is a field read directly.

## Findings

| source | as written | input that shows it | evidently intended | confidence | as-written member | corrected member |
|---|---|---|---|---|---|---|
| src/lib/client/media-player.remove.ts:92-94 | `appendBuffer` sets `updating` at once, so line 165 never clears `isAppending` after an append. The `updateend` listener calls `processNextChunk`, which returns at the first guard because `isAppending` is still set. | any file larger than 2 MiB (2097152 bytes), with no append throwing | each `updateend` marks the append finished and appends the next queued chunk, until the whole file is buffered | high; not executed | MediaPlayer.AsWrittenDeliversOnlyFirstChunk | MediaPlayer.CorrectedPlaysWholeFile |
