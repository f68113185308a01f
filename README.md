# Video editor core, modelled in Dafny

This project models the logic of a browser video editor: projects made of clips on numbered
tracks, a canvas preview, a timeline with a playhead, uploads and a media library, and AI video
generation jobs that the editor watches and turns into media assets. The modelled parts are the
following.

- **Compositor.** The preview's render effect: which clips are active at the playhead, the order
  they are drawn in, the seek position and opacity of each, and the "No clips" placeholder. It
  also covers the map of video elements kept per clip (`compositor.dfy`).
- **Timeline.** The 33 ms playback tick, play/pause, skip and click-seek, zoom in quarter steps,
  the time↔pixel mapping, clip dragging, the `mm:ss.cc` clock and the track rows
  (`timeline.dfy`).
- **Editor session.** The project, its clips and the watched AI jobs, and the handlers that
  change them (`editor.dfy`). This includes one AI-job reconciliation cycle: each pending job is
  polled, and a job reported completed with a result URL gets one AI-generated asset and leaves
  the list. The cycle is specified by functions in `job_cycle.dfy`, and the editor's loop is
  proved against them.
- **Upload dialog.** MIME classification and the state sequence of one upload (`upload.dfy`).
- **Media library.** The type filter, icons, the duration label and the click
  (`media_library.dfy`).
- **Services.** The AI generation, processing, project and media services. Their records are
  built exactly, while auth, database and object storage are replies passed in as parameters
  (`ai_generation.dfy`, `processing.dfy`, `projects.dfy`, `media.dfy`). Each service function
  returns the storage requests it issued, in order, beside its result, so "refused before any
  storage access" reads as an empty request list.
- **Project card.** The "last edited" text and the card menu (`project_card.dfy`).

Shared pieces:

- `records.dfy` holds the row types and the JavaScript number and truthiness rules.
- `decimal.dfy` holds decimal text of integers.
- `seqs.dfy` holds order-preserving filtering.
- `wrappers.dfy` holds `Option`, `Result` and the storage outcome.

The system's written description and its code differ in places. The model follows the code:

- Source time is `t - start + trim_start`. Playback speed plays no part, although the
  description scales by speed.
- A job polled as `failed` stays in the watched list and is polled again, although the
  description removes it.
- Deleting or updating an absent clip id is not reported as "not found": the storage reply is
  passed through, and the editor filters or maps its list.
- The shallow property merge happens in the editor, which sends a complete copy of the property
  bag. `updateClip` itself forwards the caller's fields unchanged.
- A drag update names the clip under the cursor, not the clip whose drag started.

Time values are milliseconds held as `real`, as JavaScript numbers are. Zoom is held as integer
quarters 1..16, standing for the factors 0.25..4. A JSON property bag is a
`map<string, Value>`; an absent key stands for `undefined`.

## Model

| member | source | states |
|---|---|---|
| Compositor.ActiveClips | src/components/VideoPlayer/VideoPlayer.tsx:44-46 | a clip is active at `t` iff `start ≤ t < start + duration` (the end instant is excluded), and the active clips keep their stored order |
| Compositor.InsertByTrack | src/components/VideoPlayer/VideoPlayer.tsx:51 | one insertion step of the stable sort adds exactly that clip to the multiset |
| Compositor.SortByTrack | src/components/VideoPlayer/VideoPlayer.tsx:51 | the track sort is a permutation of the active clips |
| Compositor.InsertByTrackSorted | src/components/VideoPlayer/VideoPlayer.tsx:51 | inserting into a track-sorted list keeps it sorted |
| Compositor.InsertByTrackOnTrack | src/components/VideoPlayer/VideoPlayer.tsx:51 | an insertion puts the new clip ahead of every clip already on its track, which is what makes the sort stable |
| Compositor.SortByTrackSorted | src/components/VideoPlayer/VideoPlayer.tsx:51 | the sorted clips are in ascending track order |
| Compositor.SortByTrackCorrect | src/components/VideoPlayer/VideoPlayer.tsx:51 | the sort is ascending by track, is a permutation, and is stable: on every track the clips keep their relative order |
| Compositor.SortByTrackOfSorted | src/components/VideoPlayer/VideoPlayer.tsx:51 | a list already in track order is left as it is |
| Compositor.ActiveClipsOfSorted | src/components/VideoPlayer/VideoPlayer.tsx:44-51 | filtering a track-ordered list keeps it in track order |
| Compositor.SortedListDrawsInListOrder | src/components/VideoPlayer/VideoPlayer.tsx:44-51 | when the clips are already in track order, the active clips are drawn in list order |
| Compositor.HigherTrackDrawnLater | src/components/VideoPlayer/VideoPlayer.tsx:51-53 | of two drawn clips, the one on the higher track is drawn later, whatever their list order |
| Compositor.DrawOpacity | src/components/VideoPlayer/VideoPlayer.tsx:62-75 | for videos (line 62) and images (line 75) alike, a present non-null opacity is used as it is, an explicit 0 included; only null or absent gives 1 |
| Compositor.LocalTime | src/components/VideoPlayer/VideoPlayer.tsx:54 | while a clip is active, the source position it shows lies in its trimmed window `[trim_start, trim_start + duration)` |
| Compositor.ClipOps | src/components/VideoPlayer/VideoPlayer.tsx:53-80 | one clip issues at most four operations, never the background fill or the placeholder; audio, and a video without an element, issue none |
| Compositor.Frame | src/components/VideoPlayer/VideoPlayer.tsx:44-88 | a frame starts with the background fill and contains the placeholder iff no clip is active |
| Compositor.DrawInOrder | src/components/VideoPlayer/VideoPlayer.tsx:53-81 | the draw loop emits the clips' operations in the given order, one clip after the other |
| Compositor.RenderFrame | src/components/VideoPlayer/VideoPlayer.tsx:44-88 | the render effect emits exactly the frame: background, the active clips' operations in track order, then the placeholder if nothing is active |
| Compositor.BackgroundFirstPlaceholderIffIdle | src/components/VideoPlayer/VideoPlayer.tsx:48-88 | the background fill is the first operation and appears once; the placeholder is drawn iff no clip is active, and then it is the last operation |
| Compositor.AudioOnlyFrame | src/components/VideoPlayer/VideoPlayer.tsx:53-88 | an active audio clip draws nothing but still suppresses the placeholder |
| Compositor.FrameRestoresAlpha | src/components/VideoPlayer/VideoPlayer.tsx:63-65 | every video draw is followed at once by resetting the alpha to 1 |
| Compositor.VideoClipIsDrawn | src/components/VideoPlayer/VideoPlayer.tsx:54-65 | an active video clip with an element is seeked to `(t - start + trim_start) / 1000` and drawn with its opacity |
| Compositor.ActiveClipIsDrawn | src/components/VideoPlayer/VideoPlayer.tsx:53-80 | every active video clip with an element, and every active image clip, contributes its draw to the frame |
| Compositor.SpeedNotApplied | src/components/VideoPlayer/VideoPlayer.tsx:54 | the `speed` property changes no drawing operation: local time has no speed factor |
| Compositor.NewElementsKeys | src/components/VideoPlayer/VideoPlayer.tsx:18-26 | one run creates elements for exactly the video clip ids not yet in the map |
| Compositor.SyncKeepsAndCovers | src/components/VideoPlayer/VideoPlayer.tsx:18-28 | merging keeps every existing entry unchanged, covers every video clip id, and changes nothing once all ids are known |
| Compositor.VideoElementCache.constructor | src/components/VideoPlayer/VideoPlayer.tsx:13 | the element map starts empty |
| Compositor.VideoElementCache.Sync | src/components/VideoPlayer/VideoPlayer.tsx:15-28 | the map only grows: old entries are never replaced or removed, and every video clip id gets an element |
| Timeline.TimeToPixel | src/components/Timeline/Timeline.tsx:56 | at zoom 1 one second spans 100 px; non-negative times map to non-negative offsets |
| Timeline.TimeToPixelScalesWithZoom | src/components/Timeline/Timeline.tsx:56 | at zoom q one second spans 25·q px, `q/4` times its width at zoom 1, so zooming in widens every positive duration |
| Timeline.PixelToTime | src/components/Timeline/Timeline.tsx:57 | the time read at a pixel offset maps back to that offset |
| Timeline.PixelTimeRoundTrip | src/components/Timeline/Timeline.tsx:56-57 | `pixelToTime` and `timeToPixel` are inverse to each other at every zoom, in exact arithmetic |
| Timeline.TimeToPixelIncreasing | src/components/Timeline/Timeline.tsx:56 | later instants map further right |
| Timeline.ZoomPercent | src/components/Timeline/Timeline.tsx:164 | the zoom label is 25 % per quarter step |
| Timeline.TickFrom | src/components/Timeline/Timeline.tsx:63-70 | a tick advances the playhead by 33 ms, or, once that reaches the duration, stops playback and rewinds to 0; the playhead stays within `[0, duration)` |
| Timeline.PausedTicksStill | src/components/Timeline/Timeline.tsx:60 | while paused, ticks have no effect |
| Timeline.TicksAdvance | src/components/Timeline/Timeline.tsx:62-70 | before the end, `n` ticks move the playhead by `33·n` |
| Timeline.TicksStopAtEnd | src/components/Timeline/Timeline.tsx:64-68 | the tick that reaches the end stops at 0, and no later tick moves anything |
| Timeline.TicksAsWritten | src/components/Timeline/Timeline.tsx:36-74 | as written, every firing computes from the playhead captured when the interval started, so after any number of firings the state is that of a single firing from it: the playhead stays 33 ms past the start |
| Timeline.StuckPlayheadExample | src/components/Timeline/Timeline.tsx:36-74 | two firings from 0 on a 30 s timeline show 33 ms as written, and 66 ms under the intended rule |
| Timeline.SkipBackTime | src/components/Timeline/Timeline.tsx:80-82 | skip back gives `max(0, t - 1000)` |
| Timeline.SkipForwardTime | src/components/Timeline/Timeline.tsx:84-86 | skip forward gives `min(duration, t + 1000)` |
| Timeline.ClampSeek | src/components/Timeline/Timeline.tsx:92 | a seek target is clamped into `[0, duration]` and kept when already inside |
| Timeline.ClickSeekHitsCursor | src/components/Timeline/Timeline.tsx:88-93 | a click seeks to the time under the cursor, clamped into `[0, duration]` |
| Timeline.DragUpdate | src/components/Timeline/Timeline.tsx:99-109 | an update is sent iff a drag is active and the element is mounted; it targets the hovered clip and carries only a start time: the time at `clientX - rect.left` pixels from the container's left edge (label column included), floored at 0 and rounded to a whole ms |
| Timeline.DragUpdateOnTrack | src/components/Timeline/Timeline.tsx:99-109 | the same update measured from the track area's left edge, 80 px further right: its start is the time under the cursor on the track, floored at 0 and rounded to a whole ms |
| Timeline.DragLandsUnderCursor | src/components/Timeline/Timeline.tsx:194-217 | measured from the track area, the dragged clip's left edge, drawn at its start's pixel after the 80 px label column, lies within half a millisecond's width of the cursor |
| Timeline.DragLagExample | src/components/Timeline/Timeline.tsx:102-108 | at zoom 1 with the cursor over the 2 s mark of a track, the component sends 2800 ms; measured from the track area it is 2000 ms |
| Timeline.RemThousand | src/components/Timeline/Timeline.tsx:119 | JavaScript `%` by 1000: the remainder takes the dividend's sign |
| Timeline.RemSixty | src/components/Timeline/Timeline.tsx:118 | JavaScript `%` by 60 on an integer: the remainder takes the dividend's sign |
| Timeline.FormatTime | src/components/Timeline/Timeline.tsx:115-121 | the clock text is at least `mm:ss.cc` long |
| Timeline.ClockOf | src/components/Timeline/Timeline.tsx:116-119 | for `ms ≥ 0` the minutes are non-negative, the seconds in [0,59] and the centiseconds in [0,99] |
| Timeline.ClockBounds | src/components/Timeline/Timeline.tsx:116-119 | for `ms ≥ 0`: seconds in [0,59], centiseconds in [0,99], and `minutes·60000 + seconds·1000 + centis·10 ≤ ms <` that `+ 10` |
| Timeline.FormatTimeReadsBack | src/components/Timeline/Timeline.tsx:115-121 | for `ms ≥ 0` the text is `mm:ss.cc` with each field at least two digits, and the fields read back as the clock's minutes, seconds and centiseconds |
| Timeline.InsertRow | src/components/Timeline/Timeline.tsx:123 | adding a track to descending, duplicate-free rows keeps them so and adds exactly that track |
| Timeline.DistinctTracks | src/components/Timeline/Timeline.tsx:123 | the distinct tracks are strictly descending and are exactly the clips' tracks |
| Timeline.TrackRows | src/components/Timeline/Timeline.tsx:123-124 | the rows are strictly descending; they are `[0]` without clips, and otherwise exactly the tracks used |
| Timeline.DescendingUnique | src/components/Timeline/Timeline.tsx:123 | two strictly descending lists with the same members are equal, so the rows are determined by the tracks used |
| Timeline.RowsIgnoreClipOrder | src/components/Timeline/Timeline.tsx:123-124 | the rows do not depend on the order of the clips |
| Timeline.TimelineState.constructor | src/components/Timeline/Timeline.tsx:30-53 | the playhead starts at 0, paused, at zoom 1, with no drag |
| Timeline.TimelineState.Tick | src/components/Timeline/Timeline.tsx:59-71 | a tick while playing applies the tick rule; while paused nothing changes; zoom and drag are untouched |
| Timeline.TimelineState.PlayPause | src/components/Timeline/Timeline.tsx:76-78 | play/pause flips the play flag and nothing else |
| Timeline.TimelineState.SkipBack | src/components/Timeline/Timeline.tsx:80-82 | the playhead moves back a second, not below 0; nothing else changes |
| Timeline.TimelineState.SkipForward | src/components/Timeline/Timeline.tsx:84-86 | the playhead moves forward a second, not past the end; nothing else changes |
| Timeline.TimelineState.ClickSeek | src/components/Timeline/Timeline.tsx:88-93 | the playhead is set to the clamped time under the cursor; nothing else changes |
| Timeline.TimelineState.ZoomIn | src/components/Timeline/Timeline.tsx:165-166 | zoom grows by one quarter up to 4 and stays within [0.25, 4] |
| Timeline.TimelineState.ZoomOut | src/components/Timeline/Timeline.tsx:158-159 | zoom shrinks by one quarter down to 0.25 and stays within [0.25, 4] |
| Timeline.TimelineState.DragStart | src/components/Timeline/Timeline.tsx:95-97 | mouse-down records the dragged clip and changes nothing else |
| Timeline.TimelineState.Drag | src/components/Timeline/Timeline.tsx:99-109 | a mouse move returns the drag update for the current drag state and zoom, measured from the track area |
| Timeline.TimelineState.DragEnd | src/components/Timeline/Timeline.tsx:111-113 | mouse-up clears the drag and changes nothing else |
| Editor.ReplaceById | src/components/Editor/VideoEditor.tsx:116 | the clip list keeps its length and order; exactly the clips with that id are replaced by the stored row |
| Editor.ReplaceKeepsIds | src/components/Editor/VideoEditor.tsx:116 | replacing by the stored row's own id keeps the list's ids in order |
| Editor.ReplaceIdempotent | src/components/Editor/VideoEditor.tsx:116 | applying the same update twice equals applying it once |
| Editor.WithoutClip | src/components/Editor/VideoEditor.tsx:126 | delete keeps exactly the clips with another id, in their order |
| Editor.DeleteCounts | src/components/Editor/VideoEditor.tsx:126 | delete removes every copy of the clip and keeps every other clip with its multiplicity |
| Editor.StartOf | src/components/Editor/VideoEditor.tsx:138 | a new clip starts at the project duration, or at 0 without a project |
| Editor.ClipLength | src/components/Editor/VideoEditor.tsx:139 | a new clip's length is the asset's duration, or 5000 ms when it is absent or 0 |
| Editor.AssetClipFields | src/components/Editor/VideoEditor.tsx:136-145 | an asset becomes a clip on track 0 at the project's end, of its type and URL, untrimmed (`trim_start` 0, `trim_end` null) and with empty properties |
| Editor.GrownDuration | src/components/Editor/VideoEditor.tsx:148-151 | the new duration is the larger of the old duration and the clip's end |
| Editor.AppendGrowsByClip | src/components/Editor/VideoEditor.tsx:136-151 | when the stored clip echoes the inserted fields, the project grows by exactly the clip's length |
| Editor.AppendExample | src/components/Editor/VideoEditor.tsx:136-151 | a 12 s project plus a 5 s asset gives a 17 s project |
| Editor.WithProperty | src/components/Editor/VideoEditor.tsx:284-303 | the shallow copy made by both sliders (lines 285 and 302) replaces one key and keeps every other key |
| Editor.OpacityEdit | src/components/Editor/VideoEditor.tsx:284-286 | the opacity slider sends only `properties`: a copy with `opacity` replaced |
| Editor.SpeedEdit | src/components/Editor/VideoEditor.tsx:301-303 | the speed slider sends only `properties`: a copy with `speed` replaced |
| Editor.TrackEdit | src/components/Editor/VideoEditor.tsx:269 | the track field sends only `track_index` |
| Editor.EditsKeepTheOtherKey | src/components/Editor/VideoEditor.tsx:284-303 | a speed edit keeps a set opacity and vice versa, and the two edits commute |
| Editor.SpeedEditExample | src/components/Editor/VideoEditor.tsx:301-303 | `{opacity: 0.5}` edited to speed 2 becomes `{opacity: 0.5, speed: 2}` |
| Editor.SliderValue | src/components/Editor/VideoEditor.tsx:283-300 | the opacity (line 283) and speed (line 300) slider shows the property when it is truthy, and 1 otherwise |
| Editor.OpacitySliderVersusDraw | src/components/Editor/VideoEditor.tsx:283-286 | an opacity edited to 0 is drawn as 0 while the slider shows 1; any other value is shown and drawn alike |
| Editor.TimelineLength | src/components/Editor/VideoEditor.tsx:329 | the timeline gets the project duration, or 30000 ms when it is 0, so it is positive |
| Editor.EditorSession.constructor | src/components/Editor/VideoEditor.tsx:23-30 | a session starts loading, with no project, no clips and no jobs |
| Editor.EditorSession.LoadProject | src/components/Editor/VideoEditor.tsx:46-57 | the project and clips are set only when both reads succeed; a missing project skips the clip read; loading ends either way |
| Editor.EditorSession.LoadAIJobs | src/components/Editor/VideoEditor.tsx:59-66 | asks for ten jobs and keeps only the pending or processing ones; on failure the list is unchanged |
| Editor.EditorSession.HandleAIGenerate | src/components/Editor/VideoEditor.tsx:97-111 | the job is created for this project and appended to the watched jobs; on failure the error is returned and the list is unchanged |
| Editor.EditorSession.HandleClipUpdate | src/components/Editor/VideoEditor.tsx:113-121 | the stored row replaces the clip with that id; on failure the clips are unchanged |
| Editor.EditorSession.HandleClipDelete | src/components/Editor/VideoEditor.tsx:123-132 | the clips with that id are removed; on failure the clips are unchanged |
| Editor.EditorSession.HandleAssetSelect | src/components/Editor/VideoEditor.tsx:134-159 | inserts the asset's clip and appends the stored row, then stores the grown duration and applies it to the project; the clip stays when that update fails; a failed insert changes nothing |
| Editor.EditorSession.CheckJob | src/components/Editor/VideoEditor.tsx:72-93 | one job is polled; if it is ready, one asset is created; the job leaves the list iff that creation succeeds |
| Editor.EditorSession.CheckPendingJobs | src/components/Editor/VideoEditor.tsx:68-95 | the loop makes exactly the cycle's calls and leaves exactly the cycle's job list; project, clips and loading are untouched |
| JobCycle.PendingJobs | src/components/Editor/VideoEditor.tsx:62-69 | both for loading (line 62) and for a cycle (line 69), keeps exactly the pending or processing jobs, in order |
| JobCycle.ReadyUrl | src/components/Editor/VideoEditor.tsx:75 | a poll is ready iff it succeeded with status `completed` and a non-empty result URL |
| JobCycle.GeneratedDuration | src/components/Editor/VideoEditor.tsx:81 | `(duration \|\| 5) * 1000`: a falsy duration gives 5000 ms and a non-zero number `n` gives `n·1000` |
| JobCycle.GeneratedAsset | src/components/Editor/VideoEditor.tsx:76-87 | the asset is a video with source `ai-generated`, the polled URL, the job's id, and a name and metadata taken from the listed job |
| JobCycle.WithoutIds | src/components/Editor/VideoEditor.tsx:89 | removal keeps exactly the jobs whose id was not claimed |
| JobCycle.CycleCalls | src/components/Editor/VideoEditor.tsx:71-87 | a cycle over `n` jobs makes between `n` and `2n` calls; which ones, per job, is stated by `PollsFollowJobs` and `OneAssetPerReadyJob` |
| JobCycle.AfterCycle | src/components/Editor/VideoEditor.tsx:89 | the job list after a cycle is a subsequence of the one before: jobs are only removed, and the rest keep their order |
| JobCycle.PollsFollowJobs | src/components/Editor/VideoEditor.tsx:71-73 | every job is polled exactly once, in list order, and nothing else is polled |
| JobCycle.CreationsAreReadyAssets | src/components/Editor/VideoEditor.tsx:75-87 | the assets a cycle creates are those of its ready jobs, in order |
| JobCycle.ReadyAssetsMatchReadyJobs | src/components/Editor/VideoEditor.tsx:75-87 | the i-th ready job gets the i-th asset, made from its own polled URL |
| JobCycle.OneAssetPerReadyJob | src/components/Editor/VideoEditor.tsx:75-87 | exactly one asset creation per ready job |
| JobCycle.PollIffListed | src/components/Editor/VideoEditor.tsx:71-73 | an id is polled iff a listed job has it |
| JobCycle.CreatedAssetShape | src/components/Editor/VideoEditor.tsx:75-87 | every created asset is an AI-generated video whose URL and job id come from a completed poll of a listed job |
| JobCycle.PollsOnlyPending | src/components/Editor/VideoEditor.tsx:69-73 | a cycle polls an id iff a pending or processing job has it |
| JobCycle.NotReadyJobStays | src/components/Editor/VideoEditor.tsx:75-93 | a job that is not ready (not completed, no URL, or a failed poll) stays in the list; there is no failed-status branch |
| JobCycle.FailedCreateStays | src/components/Editor/VideoEditor.tsx:76-93 | with distinct ids, a ready job whose asset creation fails stays |
| JobCycle.ClaimedJobGone | src/components/Editor/VideoEditor.tsx:89 | a claimed job leaves with every job sharing its id, and the next cycle does not poll it |
| JobCycle.StillPendingPolledAgain | src/components/Editor/VideoEditor.tsx:69-75 | a job that is still pending and not ready is polled again by the next cycle |
| JobCycle.DefaultGeneratedDuration | src/components/Editor/VideoEditor.tsx:81 | a missing, null, 0 or empty duration gives 5000 ms |
| Upload.AssetKindOfMime | src/components/Upload/FileUpload.tsx:37-42 | `video/`, `image/` and `audio/` prefixes map to their kinds, checked in that order; anything else is video |
| Upload.MimeRoundTrip | src/components/Upload/FileUpload.tsx:37-42 | a MIME type made from a kind's name classifies back to that kind |
| Upload.UnknownTypeIsDurationlessVideo | src/components/Upload/FileUpload.tsx:41-78 | an unknown type is stored as video and gets no duration |
| Upload.UploadedDuration | src/components/Upload/FileUpload.tsx:50-78 | only `video/` files get a duration: the probed seconds · 1000, or 5000 when the probe fails |
| Upload.UploadedAsset | src/components/Upload/FileUpload.tsx:80-91 | the asset has the classified type, source `upload`, the uploaded URL, the file name, and metadata of exactly size and format |
| Upload.FailureText | src/components/Upload/FileUpload.tsx:97 | the error shown is the message, or "Upload failed" when it is empty |
| Upload.Climb | src/components/Upload/FileUpload.tsx:66-68 | the timer sets one progress value per firing |
| Upload.ProgressTrace | src/components/Upload/FileUpload.tsx:63-100 | the progress trace holds one value per timer firing, the 95 and 100 that were reached, and starts and ends with the reset to 0 |
| Upload.ProgressTraceShape | src/components/Upload/FileUpload.tsx:63-100 | progress starts and ends at 0, rises in steps of 10 without passing 90 before the upload ends, never exceeds 100, shows 95 iff the upload succeeded and 100 iff the asset was also created |
| Upload.UploadDialog.constructor | src/components/Upload/FileUpload.tsx:14-16 | the dialog starts idle, at 0, without an error |
| Upload.UploadDialog.HandleFiles | src/components/Upload/FileUpload.tsx:57-102 | an empty selection does nothing; otherwise only the first file is used, the progress trace is as above, the asset row is sent iff the upload succeeded, completion happens iff both steps succeed, the error is set from the failing step, and at the end it is not uploading and progress is 0 |
| MediaLibrary.FilteredAssets | src/components/MediaLibrary/MediaLibrary.tsx:34-36 | 'all' returns the list unchanged; a type returns exactly the assets of that type, in original order |
| MediaLibrary.FilterByKindCounts | src/components/MediaLibrary/MediaLibrary.tsx:36 | a type filter keeps each asset of that type as often as it occurs and drops the rest |
| MediaLibrary.IconFor | src/components/MediaLibrary/MediaLibrary.tsx:38-45 | image and audio get their own icons; video and any unknown type get the video icon |
| MediaLibrary.IconsDistinguishKinds | src/components/MediaLibrary/MediaLibrary.tsx:38-45 | the three stored types get three different icons |
| MediaLibrary.DurationCellAsWritten | src/components/MediaLibrary/MediaLibrary.tsx:122-126 | as written: no duration shows nothing, a duration of 0 shows a stray "0", any other shows its rounded seconds |
| MediaLibrary.DurationLabel | src/components/MediaLibrary/MediaLibrary.tsx:122-126 | corrected: the label is shown iff the duration is non-zero, as `round(duration / 1000)` seconds |
| MediaLibrary.ZeroDurationShowsZero | src/components/MediaLibrary/MediaLibrary.tsx:122-126 | for a zero duration the page shows "0" where no label is intended |
| MediaLibrary.DurationLabelAgrees | src/components/MediaLibrary/MediaLibrary.tsx:122-126 | for every other duration, as written and corrected agree |
| MediaLibrary.ClickCalls | src/components/MediaLibrary/MediaLibrary.tsx:100-103 | a click selects the asset and then closes the library |
| JobStatus.StatusUpdate | src/services/aiGenerationService.ts:81-86 | the update always carries `status`; `result_url` and `error_message` appear iff given as non-empty text; `completed_at` appears iff the status is `completed` or `failed`; no other key |
| JobStatus.RunningStatusOnly | src/services/aiGenerationService.ts:81-86 | a status that is not terminal, with no URL and an empty message, gives a one-field update |
| AiGeneration.NewJob | src/services/aiGenerationService.ts:28-37 | a new job is the user's, `pending`, with parameters `{}` when omitted and the caller's other fields |
| AiGeneration.CreateGenerationJob | src/services/aiGenerationService.ts:19-43 | without a user it fails with "User not authenticated" and issues no request; otherwise one insert of the new job |
| AiGeneration.GetUserJobs | src/services/aiGenerationService.ts:45-61 | without a user it fails before any request; otherwise one newest-first query with the limit |
| AiGeneration.DefaultJobLimit | src/services/aiGenerationService.ts:45 | without a limit argument the query asks for at most 50 jobs |
| AiGeneration.GetJobById | src/services/aiGenerationService.ts:63-98 | `getJobById`, which `pollJobStatus` (lines 96-98) calls unchanged: a missing row gives "Job not found"; storage errors propagate; a found row is returned (also what a poll returns) |
| AiGeneration.UpdateJobStatus | src/services/aiGenerationService.ts:75-94 | one update of that job whose record is the status record: the status, `result_url` and `error_message` only when non-empty, and `completed_at` iff the status is terminal |
| AiGeneration.DeleteJob | src/services/aiGenerationService.ts:100-107 | one delete of that job; the reply is passed through |
| Processing.NewJobRow | src/services/processingService.ts:19-24 | the row is the user id, then the caller's fields, then `pending` and progress 0, which nothing the caller passes can override |
| Processing.CreateProcessingJob | src/services/processingService.ts:5-30 | without a user it fails before any request; otherwise one insert of that row |
| Processing.GetUserJobs | src/services/processingService.ts:32-48 | without a user it fails before any request; otherwise one newest-first query with the limit |
| Processing.DefaultJobLimit | src/services/processingService.ts:32 | without a limit argument the query asks for at most 50 jobs |
| Processing.GetJobById | src/services/processingService.ts:50-60 | a missing row gives "Job not found"; storage errors propagate |
| Processing.UpdateJobProgress | src/services/processingService.ts:62-69 | the update writes only `progress` |
| Processing.AsBag | src/services/processingService.ts:77-82 | the status record as JSON keeps its keys and text values |
| Processing.UpdateJobStatus | src/services/processingService.ts:71-90 | the update is the shared status record, carries the status and never `progress` |
| Processing.DeleteJob | src/services/processingService.ts:92-99 | one delete of that job; the reply is passed through |
| Projects.NewProjectRow | src/services/projectService.ts:14-20 | a new project has duration 0, resolution 1920x1080 and 30 fps |
| Projects.CreateProject | src/services/projectService.ts:5-26 | without a user it fails before any request; otherwise one insert of the new project |
| Projects.GetUserProjects | src/services/projectService.ts:28-43 | without a user it fails before any request; otherwise one query, most recently updated first |
| Projects.GetProjectById | src/services/projectService.ts:45-55 | a missing row gives "Project not found"; storage errors propagate |
| Projects.UpdateProject | src/services/projectService.ts:57-67 | one update with the caller's fields; the reply is passed through |
| Projects.DeleteProject | src/services/projectService.ts:69-76 | one delete of that project; the reply is passed through |
| Projects.GetProjectClips | src/services/projectService.ts:125-135 | one query ordered by track and then start time |
| Projects.ListingIsDrawOrder | src/services/projectService.ts:130-131 | a listing in that order is already in draw order, so the compositor draws its active clips in list order |
| Projects.StoredClip | src/services/projectService.ts:141-146 | a stored clip is the store's id beside the inserted project id and fields |
| Projects.ClipFieldsRoundTrip | src/services/projectService.ts:103-146 | both the duplication mapping (lines 103-113) and the insert (lines 141-146) rely on this: a clip is exactly its id, its project and its caller-visible fields |
| Projects.AddClipToProject | src/services/projectService.ts:137-152 | one insert of the project id beside the caller's fields, unchanged |
| Projects.UpdateClip | src/services/projectService.ts:154-164 | one update of that clip; the reply is passed through |
| Projects.DeleteClip | src/services/projectService.ts:166-173 | one delete of that clip; the reply is passed through |
| Projects.CopyRow | src/services/projectService.ts:90-96 | the copy is named the original name plus " (Copy)" and keeps its duration, resolution and fps |
| Projects.CopyClips | src/services/projectService.ts:103-113 | one row per original clip, each in the new project |
| Projects.CopyClipsKeepFields | src/services/projectService.ts:103-113 | each copied row keeps track, start, duration, type, source, trims and properties, with only the project id changed |
| Projects.DuplicateProject | src/services/projectService.ts:78-123 | auth first; then read the project (missing gives "Project not found"), read its clips, insert the copy, and insert the copied clips in one request only when there are any; it succeeds iff every step it makes succeeds, returning the copy |
| Projects.CopyOfCopyName | src/services/projectService.ts:92 | copying a copy appends the suffix twice |
| ProjectCard.DaysAgo | src/components/Dashboard/ProjectCard.tsx:19 | `days` is the floor of the difference over 86400000 ms |
| ProjectCard.DateText | src/components/Dashboard/ProjectCard.tsx:15-25 | 0 days gives "Today", 1 gives "Yesterday", any other count below 7 (negatives included) gives "<days> days ago", and 7 or more the locale date |
| ProjectCard.DayWindows | src/components/Dashboard/ProjectCard.tsx:18-24 | the same buckets as windows of the raw difference; a difference in the future gives a negative count |
| ProjectCard.DaysAgoReadsBack | src/components/Dashboard/ProjectCard.tsx:23 | the "days ago" text reads back as the day count |
| ProjectCard.FutureDateExample | src/components/Dashboard/ProjectCard.tsx:19-23 | an edit 1 ms in the future shows "-1 days ago" |
| ProjectCard.CardMenu.constructor | src/components/Dashboard/ProjectCard.tsx:13 | the menu starts closed |
| ProjectCard.CardMenu.Toggle | src/components/Dashboard/ProjectCard.tsx:45-48 | the menu button flips the menu |
| ProjectCard.CardMenu.ChooseDuplicate | src/components/Dashboard/ProjectCard.tsx:57-61 | Duplicate invokes the callback with the project and closes the menu |
| ProjectCard.CardMenu.ChooseDelete | src/components/Dashboard/ProjectCard.tsx:68-72 | Delete invokes the callback with the project and closes the menu |
| Media.FileExtension | src/services/mediaService.ts:79 | the extension has no dot and is a suffix of the name |
| Media.ExtensionFollowsDot | src/services/mediaService.ts:79 | when the extension is shorter than the name, a dot comes right before it, so it is the text after the last dot |
| Media.DotlessExtension | src/services/mediaService.ts:79 | a name without a dot is its own extension |
| Media.ObjectPath | src/services/mediaService.ts:79-80 | the stored object's path keeps the uploaded file's extension |
| Media.ObjectPathParts | src/services/mediaService.ts:79-80 | the path is `<userId>/<stamp>.<ext>`: it starts with the user's folder, its stamp reads back as the upload time, and its extension is the file's |
| Media.CreateMediaAsset | src/services/mediaService.ts:5-32 | without a user it fails before any request; otherwise one insert of the user id beside the caller's fields, unchanged |
| Media.GetUserAssets | src/services/mediaService.ts:34-49 | without a user it fails before any request; otherwise one newest-first query |
| Media.GetAssetById | src/services/mediaService.ts:51-61 | a missing row gives "Asset not found"; storage errors propagate |
| Media.DeleteAsset | src/services/mediaService.ts:63-70 | one delete of that asset; the reply is passed through |
| Media.UploadFile | src/services/mediaService.ts:72-93 | without a user it fails before any request; otherwise one upload under the object path, returning that path's public URL, or the storage error |
| Media.UploadDefaultBucket | src/services/mediaService.ts:72 | without a bucket argument the file goes to the `media` bucket |
| Storage.FoundOr | src/services/mediaService.ts:56-60 | a `maybeSingle` read: an error propagates, a missing row becomes the not-found error, a row is returned |
| Js.Round | src/components/Timeline/Timeline.tsx:108 | `Math.round` gives the integer within half of the value, halves going up |
| Js.OrElse | src/components/Editor/VideoEditor.tsx:283 | `x \|\| fallback` keeps a truthy value and otherwise gives the fallback |
| Js.OrIfNullish | src/components/VideoPlayer/VideoPlayer.tsx:62 | `x ?? fallback` keeps every value except null and undefined |
| Decimal.IntTextRoundTrip | src/components/Timeline/Timeline.tsx:120 | the decimal text of an integer reads back as that integer |
| Decimal.PadStart2 | src/components/Timeline/Timeline.tsx:120 | `padStart(2, '0')` puts zeros in front up to two characters and keeps the text as its suffix |

## Left out

- The canvas itself is not modelled (fill styles, fonts, pixel drawing, video decoding and
  seeking). A frame is the list of drawing operations the render effect issues.
- Compositor.FrameRestoresAlpha: drawing a video frame is taken never to throw. If
  `drawImage` threw inside the `try` (VideoPlayer.tsx:60-67), the reset of `globalAlpha` to 1
  would be skipped, and the rest of the frame would keep that clip's opacity.
- An image clip's draw is one deferred operation. The order in which `Image.onload` callbacks
  actually run (VideoPlayer.tsx:71-79) is asynchronous and is not modelled.
- The `src = ''` cleanup (VideoPlayer.tsx:30-34) is not modelled. When `clips` changes, it
  blanks the `src` of every element the previous run created, while the map keeps those
  entries. Since the next run creates elements only for ids not in the map, those clips keep a
  blanked element and are never given a working one again. The model's map keeps each element
  as created.
- Timeline.TimelineState.Tick: one call is one firing computed from the current playhead, the
  corrected rule of `Ticks`. The component's interval computes every firing from the playhead
  captured when it started (`TicksAsWritten`), so after the first firing, and after a seek
  while playing, the component's playhead differs from the model's.
- Timeline.TimelineState.Drag: measures the cursor from the track area's left edge, the
  corrected rule of `DragUpdateOnTrack`. The component measures from the container's left
  edge (`DragUpdate`), so its start times are 800 / zoom ms later.
- Timers are not modelled as timers. The playback interval and the 5 s reconciliation interval
  become one tick or one cycle per call. Two cycles that overlap, and a cycle racing
  `handleAIGenerate`, are not modelled.
- Stale closures other than the tick are not modelled. The reconciliation interval
  (VideoEditor.tsx:39-41) keeps calling the `checkPendingJobs` of the first render, whose job
  list is the initial empty one. `CheckPendingJobs` models a cycle over the current list.
- The upload progress timer is not cleared when `uploadFile` throws (FileUpload.tsx:66-72). Its
  later firings after the reset to 0 are not modelled. `HandleFiles` counts firings up to the
  moment the upload finishes.
- Video metadata probing and object URLs (FileUpload.tsx:44-55) are left to the browser. The
  probe's result is a parameter.
- Drag-and-drop highlighting, toasts, dialogs and navigation are UI only and are not modelled.
  This includes the toasts raised by the editor's handlers.
- `Date.now()`, `new Date().toISOString()` and the locale date string are inputs.
- Floating point is not modelled. Times are exact reals, so nothing is claimed about IEEE
  rounding, NaN or Infinity.
- `parseInt` of the track field and `parseFloat` of the sliders are not modelled. The edits take
  the value already read.
- Database, storage and auth are replies passed as parameters. Nothing is persisted, and a
  filter or order a query asks for is recorded in the request, not applied.
- JobCycle.GeneratedDuration: a numeric string duration (for example "10") is multiplied by
  JavaScript's coercion to 10000; the model gives no duration (`None`) for any non-empty
  string.
- Playback speed is never applied by the compositor, and there is no failed-job handling, so
  neither is modelled beyond proving their absence.
- `mockAIProvider.ts`, the dashboard, the AI generation dialog, routing and the type
  declarations are not part of this model.

## Findings

| source | as written | input that shows it | evidently intended | confidence | as-written member | corrected member |
|---|---|---|---|---|---|---|
| src/components/Timeline/Timeline.tsx:36-74 | the tick callback's `prev` is resolved by `setCurrentTime` against the `currentTime` captured when the interval started, so every firing computes from the same start | playing from 0 on a 30 s timeline: after two firings the playhead shows 33 ms | the playhead advances 33 ms per firing until the end, then stops at 0 | not executed | Timeline.StuckPlayheadExample | Timeline.TicksAdvance |
| src/components/MediaLibrary/MediaLibrary.tsx:122-126 | `{asset.duration && …}` renders the number 0 itself when the duration is 0 | an asset with duration 0 shows a stray "0" under its name | no label for a zero duration | not executed | MediaLibrary.ZeroDurationShowsZero | MediaLibrary.DurationLabel |
| src/components/Timeline/Timeline.tsx:102-106 | a drag measures the cursor from the left edge of the whole timeline container (`timelineRef`, line 175), which includes the 80 px track-label column (line 195) that the ruler, the clips and the playhead (line 242) are offset by | at zoom 1 with the cursor over the 2 s mark of a track, the clip's start is set to 2800 ms | the clip's start is the time under the cursor on the track: 2000 ms | not executed | Timeline.DragLagExample | Timeline.DragLandsUnderCursor |
