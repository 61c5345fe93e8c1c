# Jump analyzer front-end: upload, progress and results, in Dafny

This project models the core of a Next.js front-end for a rope-jump video analyzer.

The user picks video files in a form. The form encodes them as multipart form data and posts them to the server route `/api/process`. The route then does the following:

- decodes the request;
- chooses between one direct batch upload and a chunked upload of the first file;
- drives the backend through that upload and records each step in the server's instance of the processing-state store (lib/store.ts);
- polls the backend's job status until the job completes or fails.

A results panel runs in the browser and mirrors the browser's own instance of the same store module. It fetches results when its copy holds a job that is processing or completed, writes the fetched outcome back to that store, and chooses between an error, a progress, a welcome and a results view. A small player shows each detected jump with an `m:ss` clock and play, reset, seek, mute and volume controls.

Backend replies are parameters of the model:

- a `Backend` record of session, chunk and batch replies;
- a `PollReply` per job-status poll;
- a `ResultsReply` per results fetch.

Modules, one per source file plus two shared ones:

- `Text` (text.dfy): JavaScript truthiness, `Number.prototype.toString`, `Number.parseInt`, `split`, `includes` and the other string operations the code relies on.
- `Multipart` (multipart.dfy): `File` and `FormData`, where `get` returns the first entry under a key.
- `Config` (config.dfy): `lib/config.ts`.
- `Store` (store.dfy): `lib/store.ts`.
  - The class `ProcessingStore` holds the register, its listener list and a log of every listener call.
  - `StoreOp` sequences with `ApplyOps`/`Deliveries` give the meaning of a run of store calls.
- `ProcessRoute` (process_route.dfy): `app/api/process/route.ts`.
  - `PostSpec` and `RunChunks` are the specification; the methods `Post`, `ChunkedUpload`, `UploadChunks` and `DirectUpload` are proved against it.
  - `PollJobStatus` is one poll step, and `RunPolls` is a scripted run of polls.
- `AnalyzerForm` (analyzer_form.dfy): `components/jump-analyzer-form.tsx`, with the class `Form`.
- `ResultsPanel` (results_panel.dfy): `components/results-panel.tsx`, with the class `Panel`.
- `JumpVideoPlayer` (jump_video_player.dfy): `components/jump-video-player.tsx`, with the classes `VideoElement` and `Player`.

## Model

| member | source | states |
|---|---|---|
| Config.ConfigValues | lib/config.ts:7-13 | The direct-upload limit is 10485760 bytes, a chunk is 5242880 bytes (exactly half the limit), and the request timeout is 180000 ms, i.e. three minutes |
| Text.Decimal | components/jump-analyzer-form.tsx:168-172 | `toString` of a count is a non-empty string of decimal digits whose first digit is 0 only for 0 |
| Text.DecimalValue | components/jump-analyzer-form.tsx:168-172 | Reading the digits of a count's `toString` back in base 10 gives the count |
| Text.DecimalInjective | components/jump-analyzer-form.tsx:163-165 | Distinct counts have distinct decimal texts |
| Text.TrimStart | app/api/process/route.ts:22-24 | `parseInt` skips a suffix-preserving run of leading white space and stops at the first non-space character |
| Text.LeadingDigits | app/api/process/route.ts:22-24 | `parseInt` reads the longest prefix of digits: every character read is a digit and the next one is not |
| Text.ParseIntDecimal | app/api/process/route.ts:22-24 | `parseInt` reads back exactly the count `toString` wrote |
| Text.IndexOf | components/jump-analyzer-form.tsx:83 | The first occurrence of the separator: it sits at the returned index and not before it; None means it does not occur |
| Text.Split | components/jump-analyzer-form.tsx:83 | `split` gives at least one part, no part holds the separator, and there is one part exactly when the separator does not occur |
| Text.JoinSplit | components/jump-analyzer-form.tsx:83 | Joining the parts of a split gives the original string back |
| Text.SplitJoin | components/jump-analyzer-form.tsx:83 | Splitting a join of separator-free parts gives the parts back |
| Text.FirstSegment | components/jump-analyzer-form.tsx:83-85 | `split(sep)[0]` is a separator-free prefix that is followed by the separator whenever it is not the whole string |
| Text.LastSegment | components/results-panel.tsx:504 | `split(sep).pop()` is a separator-free suffix that is preceded by the separator whenever it is not the whole string |
| Text.IncludesOccurs | components/results-panel.tsx:735 | `includes` holds exactly when the text occurs at some position |
| Multipart.Get | app/api/process/route.ts:22-24 | `formData.get` returns the value of the first entry under the key, and null exactly when no entry has that key |
| Store.MergeNothing | lib/store.ts:55 | Merging an empty partial leaves the record equal |
| Store.MergeTwice | lib/store.ts:55 | Two shallow merges in a row equal one merge of the combined partial, with later keys winning |
| Store.MergeIdempotent | lib/store.ts:55 | Merging the same partial twice changes nothing more |
| Store.FailingKeepsOthers | lib/store.ts:55 | Merging `{status: "error", error}` changes exactly those two fields |
| Store.Broadcast | lib/store.ts:49 | `forEach` calls each registered listener once, in registration order, with the new state |
| Store.Without | lib/store.ts:66 | Unsubscribe removes every registration of the listener and keeps the count of every other listener |
| Store.WithoutAppend | lib/store.ts:66 | Removal distributes over concatenation, so the other listeners keep their order |
| Store.WithoutAbsent | lib/store.ts:66 | Removing a listener that is not registered leaves the list as it was |
| Store.BroadcastSnoc | lib/store.ts:49 | Notifying one more listener appends exactly one call for it |
| Store.ApplyOpsAppend | lib/store.ts:46-59 | Two runs of store calls in sequence have the same effect and the same listener calls as their concatenation |
| Store.ApplyOpsSnoc | lib/store.ts:46-59 | One more store call acts on the state left by the earlier ones |
| Store.UpdatesKeepPresence | lib/store.ts:54-58 | Updates alone never fill or empty the register, and before the first set they notify nobody |
| Store.ProcessingStore.constructor | lib/store.ts:35-36 | The register starts null with no listeners |
| Store.ProcessingStore.GetProcessingState | lib/store.ts:40 | Returns the current state |
| Store.ProcessingStore.GetState | lib/store.ts:43 | Returns the same value as `getProcessingState` |
| Store.ProcessingStore.Notify | lib/store.ts:49 | The loop appends exactly one call per registered listener, in order, with the current state |
| Store.ProcessingStore.SetProcessingState | lib/store.ts:46-50 | Replaces the whole state, null included, without merging; keeps the listeners; notifies each one once with the new state |
| Store.ProcessingStore.UpdateProcessingState | lib/store.ts:53-59 | A null state stays null and nobody is told; otherwise the state becomes the shallow merge and every listener is told, even for an empty partial |
| Store.ProcessingStore.Subscribe | lib/store.ts:62-63 | Appends the listener at the end |
| Store.ProcessingStore.Unsubscribe | lib/store.ts:65-67 | Drops every registration of the listener and keeps the rest in order |
| ProcessRoute.Collected | app/api/process/route.ts:43-52 | At most `fileCount` files are collected |
| ProcessRoute.CollectFiles | app/api/process/route.ts:43-52 | The collecting loop visits `video_0 … video_{n-1}` in order, skips absent entries, and yields the specified list |
| ProcessRoute.CollectedPrefix | app/api/process/route.ts:43-52 | When the first n `video_i` entries hold given values, collecting n entries yields exactly those values in index order |
| ProcessRoute.CollectedAll | app/api/process/route.ts:43-52 | When every `video_i` below the count holds a file, all of them are collected, in index order |
| ProcessRoute.MissingCountIsZero | app/api/process/route.ts:22-44 | A missing `fileCount` reads as 0; a NaN or negative count collects no file |
| ProcessRoute.ParamDefaults | app/api/process/route.ts:35-38 | Missing or empty parameters default to "0.8", "4.0", "10" and "6" |
| ProcessRoute.EmptyRequestsRejected | app/api/process/route.ts:26-60 | A zero count is answered 400 "No video files provided", and no collected file is answered 400 "No valid video files found"; neither touches the store, polls or sends a chunk |
| ProcessRoute.StrategyChoice | app/api/process/route.ts:63-79 | POST first records "preparing"; it sends chunks only when some file exceeds the limit, and then only the chunks of the first file, even when the large file is another one |
| ProcessRoute.TotalChunksBounds | app/api/process/route.ts:118 | `ceil(size / CHUNK_SIZE)`: enough chunks to hold the file, and not one more |
| ProcessRoute.ChunkRange | app/api/process/route.ts:121-124 | Chunk i is a non-empty range inside the file; every chunk but the last is CHUNK_SIZE long and ends where the next begins; the last ends at the file's end |
| ProcessRoute.AssembledPrefix | app/api/process/route.ts:121-124 | The first k chunks, concatenated, are the file's prefix up to the end of chunk k-1 |
| ProcessRoute.ChunksReassemble | app/api/process/route.ts:118-124 | Concatenating all chunks gives the file back |
| ProcessRoute.LargeFileChunkCount | lib/config.ts:7-10 | A file large enough for chunked upload splits into at least 3 chunks |
| ProcessRoute.RoundDivNearest | app/api/process/route.ts:127 | `Math.round(num/den)` for non-negative values: the nearest integer, with halves rounded up |
| ProcessRoute.RoundDivMonotone | app/api/process/route.ts:127 | Rounding keeps the order of its numerators |
| ProcessRoute.UploadProgressShape | app/api/process/route.ts:127-132 | The chunk progress starts at 0, never decreases, and stays within 0..100 |
| ProcessRoute.LastChunkProgress | app/api/process/route.ts:127 | The progress written before the last chunk is 100 exactly when there are at least 200 chunks |
| ProcessRoute.RunChunks | app/api/process/route.ts:121-172 | The chunk loop from chunk i sends at most the remaining chunks, one progress update per request |
| ProcessRoute.RunChunksHead | app/api/process/route.ts:121-172 | Each turn first writes the chunk's progress and sends that chunk, and goes on with the next chunk exactly when the reply decides nothing |
| ProcessRoute.RunChunksSent | app/api/process/route.ts:121-172 | Request k-i of the loop from chunk i carries chunk k with its index and the total, preceded by that chunk's progress update |
| ProcessRoute.RunChunksSkip | app/api/process/route.ts:153-171 | Chunks whose replies neither fail nor carry a job id just pass control to the next chunk |
| ProcessRoute.FirstJobIdStops | app/api/process/route.ts:167-171 | The loop stops at the first reply carrying a job id, after sending exactly the chunks up to it, and takes that id and message |
| ProcessRoute.RejectedChunkAborts | app/api/process/route.ts:153-155 | A rejected chunk k ends the loop with "Failed to upload chunk k+1", and no later chunk is sent |
| ProcessRoute.SentBytesAssembled | app/api/process/route.ts:124-142 | The bytes of the chunks sent so far are the concatenated chunks |
| ProcessRoute.NoJobIdSendsWholeFile | app/api/process/route.ts:121-176 | Without a job id, the loop sends the whole file and then fails with "Failed to complete upload process - no job ID returned" |
| ProcessRoute.RejectionMessage | app/api/process/route.ts:249-260 | A rejected batch's message is never empty. A body that parses gives its truthy JSON `error` field, else "Failed to process videos", whatever the body text. A body that does not parse gives its non-empty text, else "Failed to process videos" |
| ProcessRoute.DirectFailureClasses | app/api/process/route.ts:289-320 | The failure message is never empty. An `AbortError` gives the timeout message. Any other error with an "ENOBUFS" cause gives the buffer-overflow message. Every other error keeps its own message, or "Failed to process videos" when that is empty. A rejection's message passes through unchanged |
| ProcessRoute.RunSendsChunks | app/api/process/route.ts:121-172 | The loop sends the file's chunks in index order, and every store call it makes is an update |
| ProcessRoute.NonFileChunkedFails | app/api/process/route.ts:88-212 | When the first collected entry is a string, `file.size.toString()` throws inside the `try`: the upload answers 500 with that TypeError's message, sends nothing, starts no poll, and no backend reply matters |
| ProcessRoute.ChunkedShape | app/api/process/route.ts:77-212 | A chunked upload ends either failed or started, and everything it sends is the file's chunks in order |
| ProcessRoute.DirectShape | app/api/process/route.ts:213-321 | A direct upload ends either failed or started and sends no chunk |
| ProcessRoute.PostDispatches | app/api/process/route.ts:62-79 | With files, POST is the preparing record followed by the chosen upload, whose answer and poll it returns |
| ProcessRoute.FailingOpsRecorded | app/api/process/route.ts:293-320 | After a failed upload, the store holds an error state with the answered message (the chunked path's failure is at lines 201-212) |
| ProcessRoute.FailureRecorded | app/api/process/route.ts:293-320 | A 500 answer leaves the store in an error state holding the answered message, and no poll starts (the chunked path's failure is at lines 201-212) |
| ProcessRoute.StartedOpsRecorded | app/api/process/route.ts:267-279 | After a started upload, the store holds a processing record for the job, with no progress (the chunked path's record is at lines 179-191) |
| ProcessRoute.SuccessRecorded | app/api/process/route.ts:267-288 | A 200 answer leaves the store processing the answered job with no progress, and polling starts for that same job (the chunked path's answer is at lines 179-200) |
| ProcessRoute.PerformedThen | lib/store.ts:46-59 | The recorded effect of two consecutive runs of store calls composes |
| ProcessRoute.PerformedStep | lib/store.ts:46-59 | One more store call extends the recorded run by that call |
| ProcessRoute.Perform | lib/store.ts:46-59 | Each store call the route makes extends the recorded run by exactly that call and keeps the listeners |
| ProcessRoute.RunChunksStep | app/api/process/route.ts:121-172 | One turn of the loop: announce, send, then stop on a verdict or continue with the next chunk |
| ProcessRoute.UploadChunks | app/api/process/route.ts:121-176 | The imperative chunk loop returns the specified result, sends the specified requests and makes the specified store calls |
| ProcessRoute.ChunkedUpload | app/api/process/route.ts:77-212 | The chunked branch answers, polls, sends and records exactly as `ChunkedSpec` specifies, including the failure for a first entry that is not a file |
| ProcessRoute.DirectUpload | app/api/process/route.ts:213-321 | The direct branch answers, polls and records exactly as specified |
| ProcessRoute.Post | app/api/process/route.ts:17-336 | POST answers, polls, sends chunks and calls the store exactly as its specification says |
| ProcessRoute.PollJobStatus | app/api/process/route.ts:339-390 | One poll: "completed" and "error" are recorded and stop; counters set rounded progress and continue; anything else continues quietly; a failed request records "Failed to get processing status" and stops |
| ProcessRoute.RunPolls | app/api/process/route.ts:339-390 | Polling never takes more replies than it is given, and takes all of them unless it stopped |
| ProcessRoute.PollingStopsAtTerminal | app/api/process/route.ts:351-382 | Polling stops right after the first terminal reply, having made exactly that many polls |
| ProcessRoute.ProcessingPoll | app/api/process/route.ts:370-382 | A "processing" reply with both counters non-zero records "Processing video p of t..." at the rounded percentage and keeps polling |
| ProcessRoute.CompletedPoll | app/api/process/route.ts:351-358 | A "completed" reply hands its results to the store and ends polling after that one poll |
| ProcessRoute.HalfwayPolls | app/api/process/route.ts:370-378 | Counters 1 of 2 and 2 of 2 give progress 50 and 100 and their messages |
| ProcessRoute.ScriptedPolling | app/api/process/route.ts:351-379 | Replies 1 of 2, 2 of 2, then completed give progress 50, then 100, then the results, and three polls |
| ProcessRoute.TerminalPollOutcome | app/api/process/route.ts:351-388 | A terminal reply leaves a present state completed with the reported results, or failed with the reported error ("Unknown error occurred" when none is given, "Failed to get processing status" when the poll failed) |
| AnalyzerForm.VideoFiles | components/jump-analyzer-form.tsx:67-73 | A file is kept exactly when it is a video file (MIME type "video/…" or a .mp4/.mov/.avi name, case-insensitively) |
| AnalyzerForm.VideoFilesAppend | components/jump-analyzer-form.tsx:67-73 | Filtering keeps the input order: it distributes over concatenation |
| AnalyzerForm.VideoFilesKeepsVideos | components/jump-analyzer-form.tsx:67-73 | A list of video files passes the filter unchanged |
| AnalyzerForm.FolderNameRule | components/jump-analyzer-form.tsx:78-89 | In folder mode with a "/" in the first file's path, the folder name becomes the path's first segment; with a one-segment path it is left alone; otherwise it is cleared |
| AnalyzerForm.EncodeForm | components/jump-analyzer-form.tsx:160-172 | The encoding loop appends `video_i` for file i, then `fileCount` and the four parameters |
| AnalyzerForm.VideoKeyInjective | components/jump-analyzer-form.tsx:164 | Different indices give different `video_i` keys |
| AnalyzerForm.EncodedFirstAt | components/jump-analyzer-form.tsx:160-172 | Every key of the encoded form appears only once |
| AnalyzerForm.EncodingRoundTrip | components/jump-analyzer-form.tsx:160-172 | The route decodes the count of the encoded form, all its files in order, and its four parameters |
| AnalyzerForm.NoticeMatchesRoute | components/jump-analyzer-form.tsx:175-185 | The large-file notice appears exactly when the route will choose chunked upload for the same files |
| AnalyzerForm.Form.constructor | components/jump-analyzer-form.tsx:52-62 | The form starts empty, in single mode, with durations 0.8 and 4, CPU limit 10 and 6 workers |
| AnalyzerForm.Form.HandleFileChange | components/jump-analyzer-form.tsx:64-100 | An empty or absent list changes nothing; otherwise the selection is the kept video files and the folder name follows the folder rule |
| AnalyzerForm.Form.HandleDrag | components/jump-analyzer-form.tsx:102-110 | "dragenter" and "dragover" highlight, "dragleave" clears the highlight, and other events leave it alone |
| AnalyzerForm.Form.HandleDrop | components/jump-analyzer-form.tsx:112-139 | A drop always clears the highlight; a non-empty drop selects the kept files and clears the folder name |
| AnalyzerForm.Form.ClearSelection | components/jump-analyzer-form.tsx:225-228 | Empties the selection and the folder name |
| AnalyzerForm.Form.SetUploadMode | components/jump-analyzer-form.tsx:55 | Switches the upload mode |
| AnalyzerForm.Form.HandleSubmit | components/jump-analyzer-form.tsx:141-223 | With no files, nothing is sent; otherwise the encoded form is sent, the notice follows the size rule, and submitting is over afterwards |
| ResultsPanel.Initial | components/results-panel.tsx:76-78 | At mount the copy is never null: it is the store's record, or `{}` when the store is empty |
| ResultsPanel.Received | components/results-panel.tsx:81-83 | The listener's copy is null exactly when the store was set to null |
| ResultsPanel.StatusOf | components/results-panel.tsx:242-247 | A copy has a status exactly when it holds a record |
| ResultsPanel.ViewConditions | components/results-panel.tsx:196-379 | The error view shows exactly when there is an error; the results view shows exactly with no error, no loading, results, and a present copy that is not idle or in flight; loading without an error shows progress |
| ResultsPanel.ProgressTitles | components/results-panel.tsx:270-274 | Each in-flight status has its own title, and a copy without a status shows the processing title |
| ResultsPanel.ProgressDisplay | components/results-panel.tsx:249-321 | The bar shows exactly for a non-zero progress, and shows that value; the message is the state's when non-empty, and never empty |
| ResultsPanel.ErrorBadge | components/results-panel.tsx:444-449 | The badge appears exactly when the job reports errors |
| ResultsPanel.BadgeMatchesList | components/results-panel.tsx:699-701 | When the error list is shown, the badge counts its entries; otherwise a reported-errors badge shows 0 (the badge is at line 449) |
| ResultsPanel.DisplayedVideoName | components/results-panel.tsx:504 | There is a name exactly when videos are listed; it is the separator-free tail of the first path, preceded by "/" unless it is the whole path |
| ResultsPanel.MediaPipeHintOccurs | components/results-panel.tsx:735 | The MediaPipe hint appears exactly when "MediaPipe" occurs in the error text |
| ResultsPanel.AdoptionRules | components/results-panel.tsx:164-179 | Store results and a store error are copied only into empty local slots, never over local ones, and a second run changes nothing |
| ResultsPanel.FetchOutcomes | components/results-panel.tsx:103-149 | Every failing reply leaves a non-empty error and changes nothing else; a non-OK reply's own error is kept; a completed reply with results takes those results and keeps whatever error the panel held when the reply arrived; any other OK reply changes nothing and calls no store method |
| ResultsPanel.CompletedFetchShowsResults | components/results-panel.tsx:120-179 | A completed reply makes the store's record completed with the results and the panel holds them; the results view shows exactly when neither the panel nor the record holds an error, and otherwise the error view shows the panel's error, else the record's (the views are chosen at lines 196-379) |
| ResultsPanel.ErrorFetchShowsError | components/results-panel.tsx:134-196 | An error reply marks the store's record failed with the reported error, and the panel shows the error view with it, or "Processing failed" |
| ResultsPanel.StartedJobIsFetched | components/results-panel.tsx:93-99 | If the record the upload route leaves after a 200 answer with a job id reached the panel, the panel would ask for results and show progress meanwhile (the progress view is at lines 242-247; in the app the route's store and the panel's are separate instances, see Left out) |
| ResultsPanel.ProcessingRecordFetched | components/results-panel.tsx:93-99 | A processing record with an id triggers the fetch and the progress view (the progress view is at lines 242-247) |
| ResultsPanel.ReturnShowsWelcome | components/results-panel.tsx:227-230 | After "return" the store holds an idle record, no fetch is triggered, and the welcome view shows whatever results were kept (the welcome view is at line 343) |
| ResultsPanel.Panel.constructor | components/results-panel.tsx:67-88 | Mounting starts with empty local state and the `getState() \|\| {}` copy, and registers the panel's listener |
| ResultsPanel.Panel.OnStoreChange | components/results-panel.tsx:81-83 | The listener replaces the copy with what it is told |
| ResultsPanel.Panel.Unmount | components/results-panel.tsx:85-87 | Unmounting unregisters the panel's listener |
| ResultsPanel.Panel.RequestResults | components/results-panel.tsx:93-108 | A request goes out exactly when the copy has an id and is processing or completed; it sets loading and clears the error |
| ResultsPanel.Panel.ReceiveResults | components/results-panel.tsx:110-149 | Handling the reply leaves the local state `Fetched` specifies (the error is written only by a failing reply), ends loading, and makes exactly the specified store calls |
| ResultsPanel.Panel.AdoptStoreState | components/results-panel.tsx:164-179 | The effect leaves the local state the adoption rules give |
| ResultsPanel.Panel.ReturnFromError | components/results-panel.tsx:227-230 | Clears the error and replaces the store's state with `{status: "idle"}`, notifying every listener |
| JumpVideoPlayer.ClockParts | components/jump-video-player.tsx:92-95 | For a time that is not negative, seconds lie in 0..59 and minutes·60 + seconds is the whole number of seconds |
| JumpVideoPlayer.ReadClock | components/jump-video-player.tsx:95 | Not code of the source: a reference reader for the `m:ss` text built at this line, against which `ClockRoundTrip` checks `FormatTime`; it reads back only text with a colon |
| JumpVideoPlayer.LeadingZero | components/jump-video-player.tsx:95 | A padding zero does not change the seconds' value |
| JumpVideoPlayer.ClockRoundTrip | components/jump-video-player.tsx:92-96 | The `m:ss` text reads back as the minutes and seconds; the seconds always take exactly two digits and the minutes are unpadded |
| JumpVideoPlayer.VideoElement.constructor | components/jump-video-player.tsx:18 | A fresh element is at time 0, paused, unmuted and at full volume |
| JumpVideoPlayer.Player.constructor | components/jump-video-player.tsx:18-23 | The player starts paused at time 0, unmuted, at volume 1 |
| JumpVideoPlayer.Player.TogglePlay | components/jump-video-player.tsx:45-56 | Without an element nothing changes; otherwise `isPlaying` flips and the element plays or pauses accordingly, keeping the two in agreement |
| JumpVideoPlayer.Player.ResetVideo | components/jump-video-player.tsx:58-65 | Without an element nothing changes; otherwise the element is back at 0 and paused, and `isPlaying` is false |
| JumpVideoPlayer.Player.HandleTimeChange | components/jump-video-player.tsx:67-73 | Without an element nothing changes; otherwise the element and the display both move to the slider's time |
| JumpVideoPlayer.Player.ToggleMute | components/jump-video-player.tsx:75-81 | Without an element nothing changes; otherwise `isMuted` flips and the element's muted flag takes the same new value |
| JumpVideoPlayer.Player.HandleVolumeChange | components/jump-video-player.tsx:83-90 | Without an element nothing changes; otherwise both volumes take the value, `isMuted` is true exactly for 0, and the element's muted flag is untouched |
| JumpVideoPlayer.Player.HandleVolumeChangeSynced | components/jump-video-player.tsx:83-90 | The corrected handler: as above, and the element's muted flag follows `isMuted`, so the player stays in agreement with its element |
| JumpVideoPlayer.Player.OnTimeUpdate | components/jump-video-player.tsx:30 | The displayed time takes the element's time |
| JumpVideoPlayer.Player.OnLoadedMetadata | components/jump-video-player.tsx:31 | The displayed duration takes the element's duration |
| JumpVideoPlayer.Player.OnEnded | components/jump-video-player.tsx:32 | At the end the element is paused and `isPlaying` is false |
| JumpVideoPlayer.SyncedControlsTellTheTruth | components/jump-video-player.tsx:173-188 | While the player agrees with its element, the controls show sound exactly when the element is audible |
| JumpVideoPlayer.MuteThenRaiseVolume | components/jump-video-player.tsx:75-90 | Muting with the button and then raising the volume slider leaves the controls showing sound while the element stays muted |
| JumpVideoPlayer.MuteThenRaiseVolumeSynced | components/jump-video-player.tsx:75-90 | The same steps with the corrected handler leave the element audible and the controls truthful |

## Behaviour taken from the code

Where the repository's own description and its code differ, the model follows the code:

- A drop clears the folder name only when the dropped list is non-empty. An empty drop only clears the highlight (components/jump-analyzer-form.tsx:115-128).
- The progress written before the last chunk is below 100 only for fewer than 200 chunks. From 200 chunks on, `Math.round` takes it to 100 (app/api/process/route.ts:127).
- A `fileCount` that parses to NaN or to a negative number passes the zero test. Then no file is read, so the answer is "No valid video files found" (app/api/process/route.ts:22-60).
- A progress of 0 is falsy, so the panel shows no bar for it (components/results-panel.tsx:256-258,321).
- The chunked branch uploads `filesToProcess[0]` even when that entry is a string and a later entry is the large file. `file.size` is then undefined, and `file.size.toString()` throws a TypeError inside the `try`, so the catch records and answers its message (app/api/process/route.ts:94, 201-212). The model uses Node.js's wording of that message.
- The fetch handler clears the error only before its request. After the reply it writes the error only on failure, so an error the adoption effect copied from the store in between stays (components/results-panel.tsx:105-145, 176-178).

## Left out

- HTTP, Next.js and the browser APIs are not modelled. This covers `fetch`, `NextResponse`, `request.formData()`, `Blob` and the FormData wire format. Each backend reply is an input (`Backend`, `DirectReply`, `PollReply`, `ResultsReply`), and a body that cannot be parsed becomes the failure it causes.
- Timers are not modelled:
  - the 2-second rescheduling of `pollJobStatus`, which is modelled as one step plus a continue flag and as `RunPolls` over a script of replies;
  - the `AbortController` timer, of which only the resulting `AbortError` classification is kept;
  - the results panel's 5-second interval with its stale status check (components/results-panel.tsx:154-160).
- Concurrency and React scheduling are not modelled. Effects and handlers are methods called in some order, and a fetch is split into `RequestResults` and `ReceiveResults`. Listener closures are identities (`ListenerId`), and a call to one is logged as a `Delivery`.
- Floating point is not modelled:
  - `Math.round((i / n) * 100)` is exact round-half-up on rationals (`RoundDiv`, `RoundDivNearest`), so a quotient that doubles round just below a half is not captured (chunk 23 of 40: `(23 / 40) * 100` is 57.49999999999999 in doubles, so JavaScript shows 57 where the model gives 58; the poll progress at route.ts:371 has the same gap);
  - the `toFixed(2)` megabyte text is computed exactly;
  - player times are exact reals, and the duration before metadata loads (NaN) is 0.
- JumpVideoPlayer.FormatTime: there are no lemmas for negative times. They cannot occur for media times, though the definition follows JavaScript's truncating `%` for them.
- JumpVideoPlayer.Player.TogglePlay: a rejected `play()` promise (an autoplay block) is not modelled; the element is taken to start playing.
- JumpVideoPlayer.Player.HandleTimeChange: takes the slider's first value as its argument instead of the value array.
- JumpVideoPlayer.Player.HandleVolumeChange: takes the slider's first value as its argument instead of the value array (components/jump-video-player.tsx:83-88). The same holds for `HandleVolumeChangeSynced`.
- ResultsPanel.StartedJobIsFetched: the model treats the route's store and the panel's store as one register. In the app they are separate instances of lib/store.ts: the route runs on the server (app/api/process/route.ts:2), and the panel runs in the browser (`"use client"` at components/results-panel.tsx:1). Only the panel's own calls (components/results-panel.tsx:129, 137, 229) write the browser's store, and the form never does, so the panel never receives the route's job record. The lemma states what would follow if it did.
- The results API route and the image and video proxy routes are not part of this model. They only forward to the backend.
- The following side effects are left out:
  - toasts, `router.refresh()` and console logging;
  - the download anchor of `handleDownload`;
  - the selected jump, the volume pop-up, the advanced-settings switch and the parameter sliders' setters;
  - the form's handling of the `/api/process` answer, which only raises toasts before `isSubmitting` is cleared.
- Pure presentation is left out: charts (including the sine-based jump curve), animations, theme and layout components, the summed jump durations and their `toFixed` text.

## Findings

| source | as written | input that shows it | evidently intended | confidence | as-written member | corrected member |
|---|---|---|---|---|---|---|
| components/jump-video-player.tsx:83-90 | `handleVolumeChange` sets `isMuted` to whether the volume is 0 but never touches the element's `muted` flag, which only `toggleMute` sets | Press mute (the element is muted), then move the volume slider to 0.5: the icon and slider show sound while the element stays muted and silent | The element's `muted` flag follows `isMuted` in every handler, so the controls show sound exactly when the clip is audible | medium, not executed | JumpVideoPlayer.MuteThenRaiseVolume | JumpVideoPlayer.Player.HandleVolumeChangeSynced |
