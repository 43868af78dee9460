# aiVisionDrone — a verified model of the vision pipeline

aiVisionDrone relays a camera stream through a laptop to a browser, with a
pluggable computer-vision model on the way. This project models its core in
Dafny and proves properties of that model:

- **Relay server** (`Server`). It pulls the camera's multipart stream and
  keeps a growing byte buffer. Per received chunk it makes one search for the
  JPEG start-of-image (`FF D8`) and end-of-image (`FF D9`) markers, cuts out
  at most one slice and hands it to the decoder. The decoder gives an image,
  nothing, or an exception; an exception ends the receiver for good. Each
  browser tick serves the last image, or a placeholder, as one multipart body
  part.
- **Multipart framing** (`Framing`). This is the body part both stream
  generators emit: `--frame`, the `Content-Type: image/jpeg` header, a blank
  line, the JPEG and a closing CRLF.
- **Vision app** (`App`).
  - Its producer loop keeps a capture handle open, with exponential backoff
    (2, 4, 8, 16, 30, 30, … seconds).
  - It passes each frame through the active plugin and falls back to the raw
    frame when there is no plugin or the plugin raises.
  - It re-logs the plugin's lines under the plugin's name.
  - Also here: the tick that frames the latest processed frame,
    all-or-nothing plugin loading, and plugin discovery from `model.json`
    manifests.
- **Log sink** (`Logs`). It keeps a list capped at 1000 entries by evicting
  the oldest, and answers tail queries by Python slice rules (`logs[-limit:]`).
- **Browser dashboard** (`Dashboard`).
  - The log panel polls the server and de-duplicates entries by a
    `timestamp-source-message` signature. It forgets every signature once more
    than 2000 are held.
  - The status line; the model selector's options, labelled `name (id)`; the
    clear button; the selection handler.
- **Person plugin** (`PersonPlugin`). It draws a box around the pose
  landmarks, padded by 20 pixels and clamped to the frame, with a label, and
  logs one line.
- **Face plugin** (`FacePlugin`).
  - A gallery of known encodings, loaded from per-person folders.
  - Per frame, each detected face gets the name of its closest known face when
    that face is within tolerance 0.6, else "Unknown". The model also covers
    the log lines for identified faces and the drawing calls for every face.

State that the source mutates is modelled by classes whose methods change
their fields:
- the capture handle, retry delay, latest frame and active plugin of the app;
- the log list;
- the dashboard's panel, signature set and status;
- the face gallery.

Loops are `while` loops. Each is proved against a specification function:
- `Attempts` for the reconnect loop;
- `ScanBatch` for the poll;
- `Received` and `Listen` for the stream receiver;
- `Run` for the producer loop, with `Attempts` for its reconnect cycles;
- `GalleryEncodings`, `FaceNames` and `AllDrawings` for the face plugin;
- `FoldBox` for the person box.

The properties are then proved about those functions. Effects that cannot be
performed are recorded on the object in call order instead: log calls, sleeps
and handle releases. Capture, decoding, encoding, detection, the distance
measure and the clocks are parameters.

## Model

| member | source | states |
|---|---|---|
| Framing.Unframe | app.py:193-194 | a well-formed chunk is exactly as long as the prefix, the payload and the closing CRLF |
| Framing.Chunk | app.py:193-194 | the body part for one JPEG: the boundary prefix, the JPEG, CRLF; `ChunkShape`, `UnframeChunk` and `ChunkInjective` state its properties |
| Framing.ChunkShape | app.py:193-194 | a chunk is the boundary line, then the Content-Type header and blank line, then the untouched JPEG, then CRLF |
| Framing.UnframeChunk | server.py:79-80 | reading a chunk back yields the framed JPEG |
| Framing.ChunkUnframe | server.py:79-80 | every well-formed chunk is the framing of its own payload |
| Framing.ChunkInjective | app.py:193-194 | distinct JPEGs give distinct chunks, and equal chunks come from equal JPEGs |
| Logs.PySliceFrom | logs.py:22 | Python's `s[start:]` for any integer start: a negative start counts from the end and is clamped at 0, a start past the end gives the empty list |
| Logs.Appended | logs.py:15-19 | append, then drop index 0 when the list exceeds 1000 entries; `AppendedBounded` and `AppendedEvictsOldestOnly` state its properties |
| Logs.Tail | logs.py:21-22 | `logs[-limit:]`; `TailPositive`, `TailZero` and `TailNegative` state what it returns for each sign of the limit |
| Logs.AppendedBounded | logs.py:15-19 | appending within capacity keeps the newest min(n+1, 1000) entries of the list plus the new one, in order, with the new entry last |
| Logs.AppendedEvictsOldestOnly | logs.py:16-18 | at capacity, appending drops exactly the entry at index 0 |
| Logs.TailPositive | logs.py:21-22 | for limit >= 1, `logs[-limit:]` is the newest min(limit, n) entries |
| Logs.TailZero | logs.py:21-22 | a limit of 0 returns the whole list (`-0` is `0`) |
| Logs.TailNegative | logs.py:21-22 | a negative limit drops the first -limit entries instead |
| Logs.LogManager.constructor | logs.py:4-5 | a new manager holds no entries |
| Logs.LogManager.AddLog | logs.py:7-19 | returns the entry built from its arguments and the clock reading; the list becomes the capped append and ends with that entry; the cap of 1000 is kept |
| Logs.LogManager.GetLogs | logs.py:21-22 | returns `logs[-limit:]` by Python slice rules without changing the list; the newest min(limit, n) entries for a positive limit, all entries for 0 |
| Logs.LogManager.ClearLogs | logs.py:24-25 | the list is emptied |
| Logs.Log | logs.py:30-32 | adds exactly one entry, with the given source, level and message, to the shared manager |
| Logs.GetAllLogs | logs.py:34-35 | returns the newest min(100, n) entries |
| Server.FindFrom | server.py:42-43 | returns -1 exactly when no marker starts at or after `from`; otherwise the first index where it starts |
| Server.Find | server.py:42-43 | `bytes.find` of a two-byte marker: -1 if and only if it is absent, else its first occurrence |
| Server.Extract | server.py:45-47 | the kept buffer is the searched buffer minus its consumed prefix |
| Server.ExtractBothMarkers | server.py:45-47 | with both markers present, the buffer keeps what follows the first EOI; when the SOI comes first, the slice runs from the first SOI through the first EOI |
| Server.ExtractDelimited | server.py:42-47 | when the first SOI precedes the first EOI, the slice has at least 4 bytes, starts FF D8, ends FF D9 and holds no earlier EOI |
| Server.ExtractMissingMarker | server.py:45 | with either marker missing, nothing is cut and the buffer is kept whole |
| Server.ExtractEoiBeforeSoi | server.py:45-47 | when the first EOI precedes the first SOI, the decoder gets an empty slice and the bytes through that EOI are dropped, while an SOI is still in the kept buffer |
| Server.ExtractConserves | server.py:45-47 | the consumed prefix followed by the kept buffer is the searched buffer, and any slice is a suffix of the consumed prefix |
| Server.Feed | server.py:39-47 | one chunk: append it to the buffer, make one marker search, record the slice if one is cut and the consumed prefix |
| Server.Received | server.py:37-47 | the receiver's buffer, slices and consumed bytes after a run of chunks: `Feed` applied chunk by chunk from an empty buffer |
| Server.AtMostOneSlicePerChunk | server.py:38-47 | at most one slice is cut per received chunk |
| Server.ReceivedConserves | server.py:37-47 | over a whole stream, the bytes received are the bytes consumed followed by the bytes still buffered |
| Server.FeedConserves | server.py:39-47 | one chunk grows consumed plus buffered bytes by exactly that chunk |
| Server.OneCutLeavesSecondImage | server.py:38-47 | two complete images in one chunk: the first is cut and the second stays whole in the buffer |
| Server.LastDecodedSnoc | server.py:50-54 | a slice that decodes replaces the latest frame; one that does not leaves it in place |
| Server.Listen | server.py:37-58 | where the receiver stands after a run of chunks: chunks read, latest frame, and whether a decode raised; once one has, no further chunk is read |
| Server.ListenCompletes | server.py:37-54 | without a raise, every chunk is read and the latest frame is the last slice that decoded to an image |
| Server.ListenHalts | server.py:37-58 | with a raise, reading stopped on the chunk whose slice raised: that slice is the last one cut from the chunks read, and the latest frame is the last image before it |
| Server.ListenRaisedAt | server.py:45-58 | on the chunk where a decode first raises, that chunk is read and its slice is the one appended last |
| Server.ListenStops | server.py:56-58 | a raise ends the receiver for good: chunks that would follow change nothing |
| Server.ListenEnd | server.py:38-58 | where the loop leaves off, with every chunk read or a raise, the receiver over the whole stream stands too |
| Server.EoiFirstCutsEmpty | server.py:42-46 | with the EOI ahead of the SOI, the slice handed to the decoder is empty |
| Server.EoiFirstStopsReceiver | server.py:42-58 | a stream that starts with an EOI before an SOI hands the decoder an empty slice; when that raises, as OpenCV does on an empty buffer, the receiver stops after one chunk and no later image is decoded |
| Server.LaptopServer.constructor | server.py:21 | no frame has been received at start |
| Server.LaptopServer.ReceiveStream | server.py:24-58 | on a 200 response, the chunks read, the latest frame and the halt are those of `Listen`, and the buffer and slices are those of `Received` over the chunks read; a raise stops the loop; otherwise nothing changes |
| Server.LaptopServer.ReceiveChunk | server.py:39-54 | one pass of the receive loop advances the buffer and slices as `Received` does and the latest frame and halt as `Listen` does |
| Server.LaptopServer.NextChunk | server.py:60-80 | the chunk frames the JPEG of the latest frame, or of the placeholder when none has arrived, at quality 85, and reads back to it |
| App.ProducerSleepsAppend | app.py:134-158 | appending producer pauses to a record keeps its new part made of producer pauses only |
| App.RenderSources | app.py:113-153 | a log call is at level "AI" if and only if it forwards a plugin line, and then it carries the plugin's name as source; every other call has source "App" |
| App.DelayAfterInRange | app.py:108-135 | starting in [2, 30], the retry delay stays in [2, 30] however many opens fail |
| App.NextDelay | app.py:135 | `min(retry_delay * 2, 30)`; `DelayAfterInRange` and `DelayFromBase` state where the delay goes |
| App.DelayFromBase | app.py:125-135 | from the base delay, k failures give min(2^(k+1), 30) |
| App.BackoffSleepsAt | app.py:133-135 | the i-th backoff sleep of a run is the delay after i failures, and each lies in [2, 30] seconds |
| App.BackoffScheduleFromBase | app.py:108-135 | six failures in a row sleep 2, 4, 8, 16, 30 and 30 seconds |
| App.FailedReleasesAreNotOpened | app.py:128-132 | in a failed run begun with no handle, the handles released are exactly those of the opens that produced a handle that would not open |
| App.Attempt | app.py:112-135 | one pass of the reconnect loop: its log calls; on an open, the handle and delay 2; else the release, a backoff sleep of the current delay and the doubled delay; `AttemptConnects` and `AttemptsFail` state its properties |
| App.Attempts | app.py:111-135 | `Attempt` over a run of open outcomes, in order |
| App.AttemptConnects | app.py:123-126 | a successful pass holds the new handle, resets the delay to 2, ends its log calls with "Connected", and neither sleeps nor releases |
| App.NoneOpenedInit | app.py:111-135 | a prefix of a failed run is a failed run |
| App.AttemptsFail | app.py:127-135 | a failed run begun with no handle ends with none held; it advances the delay once per failure and sleeps the backoff schedule |
| App.AttemptsFailLogs | app.py:113-133 | a failed run makes, in order, each attempt's log calls, each with the delay then current |
| App.AttemptsFailReleases | app.py:129-132 | a failed run releases, in order, the handle of each open that would not open |
| App.AttemptsSnoc | app.py:111-135 | one more outcome is one more pass of the reconnect loop |
| App.Forward | app.py:150-151 | one forwarded call per plugin line, in order, each naming the plugin |
| App.ForwardRendered | app.py:150-151 | each forwarded line is logged as `log(model_name, line, "AI")` |
| App.Publish | app.py:146-156 | what one frame publishes, and the log calls that go with it; `PublishRule` states when it is the plugin output and when the raw frame |
| App.PublishRule | app.py:146-156 | the published frame is the plugin's output exactly when the plugin exists, has `process_frame` and returns; otherwise it is the raw frame, with at most one (error) log call |
| App.FailingPluginPassesThrough | app.py:146-156 | with a plugin that never returns (raising, absent or lacking `process_frame`), every successful read still publishes exactly its raw frame, in order |
| App.ReadPass | app.py:137-158 | one read on an open handle: a failure logs, releases the handle and pauses 0.5 s; a frame is published per `Publish` and followed by a 0.01 s pause |
| App.Run | app.py:105-158 | the producer loop over the supplied outcomes: without a handle the next open outcome is one reconnect pass, with one the next read outcome is one read; it ends when the outcome it needs runs out |
| App.RunSteady | app.py:108-135 | the whole loop keeps the delay in [2, 30], and at 2 whenever a handle is held |
| App.RunSleeps | app.py:134-158 | the whole loop only appends sleeps, and each is 0.5 s, 0.01 s or a backoff in [2, 30] |
| App.RunLatest | app.py:137-156 | the whole loop only appends to the published frames; the latest processed frame is the last one published, or the old one when none was |
| App.RunAttempts | app.py:111-135 | a run of failed reconnect passes is the reconnect cycle as the whole loop sees it |
| App.RunRead | app.py:137-158 | one read is one step of the whole loop |
| App.DiscoveredPrefixNone | app.py:73-81 | once a manifest fails to parse, discovery has failed whatever follows |
| App.Discovered | app.py:69-82 | `get_models` over a listing: each subdirectory with a model.json adds its manifest with "id" set to the directory name; an unparsable manifest fails the whole scan; `DiscoveredTagsIds` states the rule |
| App.DiscoveredTagsIds | app.py:69-82 | discovery fails if and only if some subdirectory's manifest cannot be parsed; otherwise it yields one entry per subdirectory with a manifest, in order, being that manifest with "id" set to the directory name |
| App.App.constructor | app.py:60-66 | no handle, no frame and no plugin; the model name is "opencv"; the mode is as given |
| App.App.ConnectAttempt | app.py:112-135 | it connects if and only if the handle opened; the new connection state is one pass of the specification |
| App.App.ConnectCycle | app.py:111-135 | it stops at the first outcome that opens, or when the outcomes run out; the new connection state is the failed passes followed, if it connected, by the successful one |
| App.App.Reconnect | app.py:110-135 | after a reconnect cycle, every open before the last one failed; it holds a handle exactly when connected, with delay 2; else the delay has doubled once per failure, up to 30; the log calls, sleeps and releases are those of the failed passes followed by the successful one; the new connection state is `Attempts` followed, if it connected, by one `Attempt` |
| App.App.ForwardLines | app.py:150-151 | the plugin's lines are logged under the model name, in order |
| App.App.PublishFrame | app.py:146-156 | the latest processed frame and the log calls are those of the publication rule, and the frame is recorded as published |
| App.App.ReadStep | app.py:137-158 | a failed read logs, releases the handle and pauses 0.5 s without touching the delay; a successful read publishes per the rule and pauses 0.01 s; the new producer state is `ReadPass` of the old one |
| App.App.ProcessingLoop | app.py:105-158 | the final handle, delay, latest frame, log calls, sleeps, releases and published frames are exactly those of `Run` from the initial state with delay 2; so, by the Run lemmas, the delay stays in [2, 30] and is 2 while a handle is held; one frame is published per successful read, as the rule says; the latest frame is the last published; each sleep added is 0.5 s, 0.01 s or a backoff in [2, 30] |
| App.App.Produce | app.py:109-158 | the producer's new state is `Run` of the old one over the supplied outcomes, and the published frames are those of the reads used |
| App.App.Pass | app.py:109-158 | one turn of the outer loop keeps what is left of `Run` unchanged, and either moves on by one read or by a reconnect, or ends the loop in `Run`'s final state |
| App.App.ReconnectPass | app.py:110-135 | a reconnect cycle as the whole loop sees it: if every open failed, the state is `Run`'s final one; else the run goes on from the open after the one that succeeded |
| App.App.ReadPassStep | app.py:137-158 | one read as the whole loop sees it: the run goes on over the remaining reads, and at most one frame is published |
| App.App.LoadModel | app.py:85-102 | all or nothing: it succeeds if and only if main.py exists and executes; only then do the plugin and name change; exactly one log call, matching the outcome |
| App.App.NextProcessedChunk | app.py:187-203 | it yields a chunk if and only if encoding succeeds, and the chunk reads back to the JPEG of the latest processed frame at quality 80, or of the placeholder |
| App.GetModels | app.py:69-82 | an absent models directory gives an empty list; otherwise the result is discovery over the listing |
| Common.LowerIdempotent | static/js/script.js:89 | lower-casing twice is lower-casing once |
| Dashboard.Signature | static/js/script.js:121 | the de-duplication key `timestamp-source-message`; the level is not part of it (`SignatureIgnoresLevel`, `SameSignature`) |
| Dashboard.SignatureIgnoresLevel | static/js/script.js:121 | entries differing only in level have the same signature |
| Dashboard.SameSignature | static/js/script.js:121 | entries agreeing on timestamp, source and message share one signature |
| Dashboard.ScanBatch | static/js/script.js:119-127 | the `forEach` over a batch: an entry is shown and its signature recorded exactly when the signature is not yet known; the lemmas below state what it shows |
| Dashboard.ScanKnown | static/js/script.js:119-127 | after a poll, the known signatures are the old ones plus the batch's |
| Dashboard.ScanShowsFirstNew | static/js/script.js:119-127 | a poll shows exactly the first entry of each signature not known before, in batch order (checked against an independent definition) |
| Dashboard.ScanShownFresh | static/js/script.js:119-127 | every shown entry comes from the batch and had an unknown signature; no two share one; all are known afterwards; no signature is forgotten |
| Dashboard.ScanAgainShowsNothing | static/js/script.js:119-127 | re-polling the same batch, without a prune in between, shows nothing |
| Dashboard.NoneFirstNew | static/js/script.js:119-127 | a batch whose signatures are all known has no new entry |
| Dashboard.ScanAfterPruneShowsAll | static/js/script.js:129-136 | after the signature set is emptied, a batch with distinct signatures is shown again in full |
| Dashboard.DistinctAllFirstNew | static/js/script.js:119-127 | with nothing known and distinct signatures, every entry is new |
| Dashboard.ScanStep | static/js/script.js:119-127 | one more entry is shown and recorded when its signature is new, else skipped |
| Dashboard.Display | static/js/script.js:82-95 | an entry as shown: its timestamp, or the local time when it has none; its source and message; the class `log-entry <level in lower case>` (`DisplayRule`) |
| Dashboard.DisplayRule | static/js/script.js:82-95 | the server's timestamp is shown when present, and the local time when not; the level's case does not matter; the class starts with "log-entry " |
| Dashboard.DisplayAll | static/js/script.js:119-127 | one shown entry per entry; `DisplayAllAt` states each one |
| Dashboard.DisplayAllAt | static/js/script.js:119-127 | the i-th entry shown is the i-th entry displayed by `addLogEntry` |
| Dashboard.OptionLabel | static/js/script.js:42 | the label is the display name, then " (", the id and ")"; the name is used unless it is missing or empty |
| Dashboard.ModelOption | static/js/script.js:38-46 | the option's value is the id and its text is the label; it has a title exactly when the description is non-empty, and the title is that description; it is neither selected nor disabled |
| Dashboard.ModelOptions | static/js/script.js:38-47 | one option per model |
| Dashboard.ModelOptionsAt | static/js/script.js:38-47 | the i-th option is built from the i-th model |
| Dashboard.Panel.constructor | static/js/script.js:8-9 | nothing shown, no signature known, not connected |
| Dashboard.Panel.SetStatus | static/js/script.js:11-20 | "System Active" in the success colour when connected, else "Disconnected" in the danger colour |
| Dashboard.Panel.ClearLogs | static/js/script.js:76-79 | the container and the signature set are emptied |
| Dashboard.Panel.AddLogEntry | static/js/script.js:82-99 | appends exactly one displayed entry |
| Dashboard.Panel.ShowNew | static/js/script.js:119-127 | shows and records the entries the scan specification selects; the count is how many were shown |
| Dashboard.Panel.PollLogs | static/js/script.js:102-145 | an ok reply marks the panel connected: the status becomes "System Active" in the success colour if it was disconnected, and is left alone if not; it shows the new entries and empties the set past 2000 signatures; a non-ok reply or a throw marks it disconnected with "Disconnected" in the danger colour and changes nothing else |
| Dashboard.Panel.FetchModels | static/js/script.js:23-54 | on success: the placeholder, then one option per model in order, and connected, "System Active" in the success colour; on a throw: the single failure option, and disconnected, "Disconnected" in the danger colour |
| Dashboard.Panel.SelectModel | static/js/script.js:57-73 | appends the reply's message as a System success entry, or "Failed to change model" as a System error entry |
| PersonPlugin.FoldBox | models/opencv-person/main.py:27-37 | the min/max fold over the landmarks from `x_min, x_max = w, 0` and `y_min, y_max = h, 0`; `FoldBoxExtremes`, `ExtremesBound` and `FoldBoxOrdered` state what it computes |
| PersonPlugin.ExtremesSnoc | models/opencv-person/main.py:31-36 | the extremes of a run are those of its prefix combined with its last landmark |
| PersonPlugin.FoldBoxExtremes | models/opencv-person/main.py:27-37 | the fold computes x_min = min(w, min x), x_max = max(0, max x), and likewise for y with h |
| PersonPlugin.ExtremesBound | models/opencv-person/main.py:31-36 | every landmark lies between the extremes |
| PersonPlugin.FoldBoxOrdered | models/opencv-person/main.py:27-39 | with a landmark, x_min <= x_max and y_min <= y_max before padding |
| PersonPlugin.Padded | models/opencv-person/main.py:41-45 | the padded box lies within the frame; each of the four sides moves out by exactly 20 where the frame edge allows, and otherwise stops at that edge (0, w or h) |
| PersonPlugin.PersonBox | models/opencv-person/main.py:39-45 | the box drawn: the fold, padded and clamped; `PersonBoxInFrame` and `PersonBoxCovers` state its properties |
| PersonPlugin.PersonBoxInFrame | models/opencv-person/main.py:39-45 | the drawn box satisfies 0 <= x_min <= x_max <= w and 0 <= y_min <= y_max <= h |
| PersonPlugin.PersonBoxCovers | models/opencv-person/main.py:31-45 | the drawn box contains every landmark that lies inside the frame |
| PersonPlugin.ProcessFrame | models/opencv-person/main.py:13-53 | no frame gives (None, []); no pose leaves the frame unchanged and logs nothing; otherwise the fold's box is drawn with its label and "Person Detected" is logged exactly when there was a landmark |
| FacePlugin.IsImageFile | models/opencv-face/main.py:31 | `name.lower().endswith(('.jpg', '.jpeg', '.png'))` |
| FacePlugin.IsImageFileExamples | models/opencv-face/main.py:31 | the extension test ignores case and needs a real suffix |
| FacePlugin.IsImageFileBySuffix | models/opencv-face/main.py:31 | for every name: it is an image file exactly when its last four characters, lower-cased, are ".jpg" or ".png", or its last five are ".jpeg" |
| FacePlugin.IsImageFileAnyCase | models/opencv-face/main.py:31 | any name ending in one of the three extensions, in any letter case, is an image file |
| FacePlugin.FolderEncodingsFromImages | models/opencv-face/main.py:30-43 | each encoding a folder contributes is the first face of a distinct image file that has a face, in listing order |
| FacePlugin.GalleryInStep | models/opencv-face/main.py:21-43 | the encodings and the names are equally long, and the i-th name is the folder the i-th encoding came from |
| FacePlugin.FolderWithoutImages | models/opencv-face/main.py:30-43 | a folder with no image holding a face contributes nothing |
| FacePlugin.FirstClosestUnique | models/opencv-face/main.py:72-74 | at most one index is the first at the smallest distance |
| FacePlugin.ArgMin | models/opencv-face/main.py:74 | the index of a smallest distance, and the first such index |
| FacePlugin.ClosestIndex | models/opencv-face/main.py:72-74 | `np.argmin` of the distances: an index of a known encoding at the smallest distance from the face, and before it only strictly farther ones |
| FacePlugin.NameFor | models/opencv-face/main.py:66-78 | the name given to one face; `NameRule` states the rule |
| FacePlugin.NameRule | models/opencv-face/main.py:66-78 | a face gets a known name exactly when some known face is within 0.6, and then it is the name at the first closest index, as defined independently of `np.argmin`; with no known faces, every name is "Unknown" |
| FacePlugin.FaceNames | models/opencv-face/main.py:66-78 | one name per face |
| FacePlugin.FaceNamesAt | models/opencv-face/main.py:66-78 | the i-th name is the one the naming rule gives the i-th face |
| FacePlugin.IdentifiedLogs | models/opencv-face/main.py:79-83 | the log lines for a run of names: "Identified: <name>" for each name that is not "Unknown"; `IdentifiedLogsCount` and `IdentifiedLogsNames` state its properties |
| FacePlugin.IdentifiedLogsCount | models/opencv-face/main.py:79-83 | one log line per face not named "Unknown" |
| FacePlugin.IdentifiedLogsNames | models/opencv-face/main.py:79-80 | each log line is "Identified: " followed by the name of an identified face |
| FacePlugin.FaceDrawings | models/opencv-face/main.py:95-98 | three drawing calls per face |
| FacePlugin.FaceDrawingsShape | models/opencv-face/main.py:86-98 | the outline is the box scaled by 4, and green exactly for identified faces (else red); the filled strip is the bottom 35 pixels in the same colour; the name sits at (left+6, bottom-6) in white |
| FacePlugin.AllDrawings | models/opencv-face/main.py:86-98 | every face's drawing calls, in detection order; `AllDrawingsAt` states where each face's calls sit |
| FacePlugin.AllDrawingsAt | models/opencv-face/main.py:86-98 | three calls per face, in detection order, the i-th face's being at positions 3i to 3i+2 |
| FacePlugin.NamesStep | models/opencv-face/main.py:67-83 | one more face appends its name, and its log line when identified |
| FacePlugin.DrawingsStep | models/opencv-face/main.py:86-98 | one more face appends its three drawing calls |
| FacePlugin.GalleryStep | models/opencv-face/main.py:21-25 | a folder appends its encodings and as many copies of its name; a plain file appends nothing |
| FacePlugin.Recognizer.constructor | models/opencv-face/main.py:7-8 | the gallery starts empty |
| FacePlugin.Recognizer.LoadFaces | models/opencv-face/main.py:13-46 | a missing directory is created and nothing is loaded; otherwise the gallery grows by the specification's encodings and names, and the two stay equally long |
| FacePlugin.Recognizer.LoadGallery | models/opencv-face/main.py:21-46 | plain files are skipped; each folder's encodings and names are appended in listing order |
| FacePlugin.Recognizer.LoadFolder | models/opencv-face/main.py:30-46 | the first face of each image with a face is appended, with the person's name beside it |
| FacePlugin.Recognizer.NameFaces | models/opencv-face/main.py:66-83 | the names are the naming rule applied face by face, and the logs are the identified lines |
| FacePlugin.Recognizer.ProcessFrame | models/opencv-face/main.py:52-100 | no frame gives (None, []); otherwise the logs are the identified lines and the frame gains every face's drawing calls, in order |
| FacePlugin.DrawFaces | models/opencv-face/main.py:86-98 | the frame gains exactly the drawing calls of every face, in order |

## Left out

- I/O and the network:
  - HTTP serving, `requests.get`, sockets;
  - the filesystem: existence tests and listings are inputs, and directory creation is a flag;
  - `print` to stdout: the `[level] source: message` echo of `logs.log`, and the plugins' load messages;
  - the DOM and `fetch`: elements are fields, and replies are datatypes.
- Concurrency. Threads, `frame_lock` and the interleaving of the producer with viewers are not modelled; each operation is atomic here.
- Clocks and sleeping. Timestamps and the browser's `now` are parameters, and sleeps are recorded, not performed.
- Timers. `setInterval` and the 33 ms viewer tick are not modelled.
- Libraries:
  - OpenCV capture, decoding and encoding;
  - MediaPipe pose detection;
  - `face_recognition`: its detection, its encodings and the distance measure itself.

  Their results are inputs. Image content is abstract, and drawing calls are recorded on the frame.
- Python module loading. `importlib` execution of a plugin's main.py is an input, its `LoadResult`.
- App.App.ProcessingLoop: `running` is not a variable. Shutdown is modelled as the supplied open or read outcomes running out. Handles that stop being open between reads are not modelled: a read failure stands for them.
- App.App.ProcessingLoop: the plugin's frame is published by value. A plugin that draws on the frame in place and then raises would, in the source, publish the drawn-on frame; that aliasing is not modelled.
- PersonPlugin.ProcessFrame: the landmarks arrive as integer pixels. The float product and truncation `int(lm.x * w)` is left out because it is floating point.
- FacePlugin.NameFor: `compare_faces` is taken as `distance <= 0.6`, its default tolerance. The distances are abstract reals.
- FacePlugin.IsImageFile: lower-cases ASCII letters only. Python's `str.lower` also folds non-ASCII letters.
- Dashboard.Display: `level.toLowerCase()` is modelled as ASCII lower-casing. A missing timestamp (`null`) is modelled as the empty string. The HTML built from the fields is not modelled.
- App.Discovered: manifest values are abstracted to strings. A manifest that parses to a non-object is modelled as unparsable.
- Server.LaptopServer.ReceiveStream: the chunks arrive as a sequence, so an exception raised while iterating the stream itself is not modelled. An exception at connection time is modelled, and so is one from the decoder: it ends the loop, as the handler at the end of the function does.
- Startup and shutdown are not part of this model:
  - the FastAPI lifespan hook writing `static/models.json`;
  - the command-line parsing in app.py;
  - the `__main__` blocks.

  server.py refers to `_name_` at lines 13 and 106, which is not a defined name in Python (`'_main_'` at line 106 is only a string literal). As written, the module would raise a `NameError` at import; the model starts from the functions.
- The other plugins (`opencv`, `opencv-handtrack`, `opencv-personskeleton`, `yolov8`) and both plugins' `run_standalone` are not part of this model.
