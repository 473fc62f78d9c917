# Dream Theater: a verified model of its decision logic

Dream Theater is a personal media browser. A FastAPI/SQLite backend scans a
folder (the "DreamBox"), embeds the images with CLIP and answers searches. A
React/Three.js client shows the results as a 3D "memory galaxy" and as a grid.
Its ML layer, database and rendering sit on top of small sequential pieces.
This project models those pieces in Dafny and proves what they promise:

- **The galaxy** (`GalaxyView`):
  - which items become stars, and where a star without coordinates lands;
  - the one-shot camera framing on the stars' centroid;
  - each star's `hovered`/`dreaming` flags, driven by pointer events and a six-second attention trial;
  - the popup, ring, colour and tag label that derive from those flags.
- **The backend bookkeeping**:
  - `Scanner`, `Routes` and `Server` cover the thumbnail and web-path sanitisers;
  - the scan pipeline: discovery, "new files only", images first, batches of 32, and the `scan_status` counters;
  - the time-source decision;
  - the shaping of search and weave results.
- **The language-model client** (`Ollama`): the first-match model choice, `set_model`, and the `chat`/`describe` guards.
- **The client handlers**:
  - both application shells (`RootApp`, `Shell`) and the search hook (`SearchEngine`);
  - the rules the two shells share (`ClientState`);
  - the light box (`LightBox`), the side panel's colour swatches and mini player (`RightPanel`);
  - the result grid (`Grid`) and the preview overlay (`Inspector`).
- **The face detector's box loop** (`Face`).

Some entities keep state that handlers update in place. Those are classes
whose methods `modify` their fields:
- the scan status;
- the language-model client;
- the camera controller and each star;
- the shells and the search session;
- the tag list of the light box;
- the mini player;
- the face engine.

Pure derivations are functions, and loops in the source are methods with loop
invariants. Each method is proved against a specification function.

Inputs the model does not compute are parameters:
- HTTP answers, with `None` when a request throws;
- `Math.random()` draws;
- the file system, through the `Disk` oracle;
- encoder rankings and similarity scores;
- the detector's boxes.

Shared helpers live in `Common` (options, string operations, filtering, a
stable insertion sort), `FileTree` (walked files and path pieces), `Media`
(the item record) and `WebUrl` (`split`/`join`, `encodeURIComponent`, the
`/raw/` URL).

Where the written code and its description differ, the model follows the code:
- The camera guard is never reset, so framing happens at most once per mounted controller. It does not happen again after the stars empty and refill.
- A coordinate of exactly 0 counts as missing and is replaced by a draw.
- Coordinates are used as they come, with no client-side scaling.
- Fallback coordinates are drawn again whenever a new `items` array arrives. There is no per-id memo.
- The sphere colour does not tell hover apart from dreaming. Hover has no precedence.
- The scanner's walk does not prune the thumbnail directory inside the DreamBox. Thumbnails of absolute paths are therefore rediscovered as images (`Scanner.ThumbnailRediscovered`).

## Model

| member | source | states |
|---|---|---|
| GalaxyView.SelectStarsShape | system/frontend-app/src/components/GalaxyView.jsx:96-98 | stars are the first ≤600 eligible images in input order then the first ≤200 eligible audio items (≤800), images before audio, nothing of another kind or with a null `x` |
| GalaxyView.CandidatesConcat | system/frontend-app/src/components/GalaxyView.jsx:96-97 | the kind filter keeps input order (distributes over concatenation) |
| GalaxyView.PlaceAll | system/frontend-app/src/components/GalaxyView.jsx:98-102 | one star per selected item in order; a truthy coordinate is kept exactly, a falsy one (undefined, null, 0) is a draw mapped into [-5, 5) |
| GalaxyView.ZeroCoordinateIsResampled | system/frontend-app/src/components/GalaxyView.jsx:99 | for every item whose `x` is exactly 0, the star's `x` is the draw mapped to [-5, 5), so it sits at 0 only for the middle draw |
| GalaxyView.GalaxyScene.constructor | system/frontend-app/src/components/GalaxyView.jsx:94-104 | the first render computes the stars from the items and the draws |
| GalaxyView.GalaxyScene.Render | system/frontend-app/src/components/GalaxyView.jsx:94-104 | the memo: the same `items` array keeps the stars; a new array recomputes them with fresh draws |
| GalaxyView.GalaxyScene.Click | system/frontend-app/src/components/GalaxyView.jsx:113 | clicking star i forwards exactly that star's item, once, and changes no star |
| GalaxyView.AxisSumBounds | system/frontend-app/src/components/GalaxyView.jsx:14-16 | per-axis sums of positions are bounded by n times the per-star bounds |
| GalaxyView.AxisMeanBounds | system/frontend-app/src/components/GalaxyView.jsx:14-16 | the per-axis mean lies within the per-star bounds |
| GalaxyView.CentroidInBox | system/frontend-app/src/components/GalaxyView.jsx:14-16 | the framing centroid lies in every box holding all stars |
| GalaxyView.CameraController.constructor | system/frontend-app/src/components/GalaxyView.jsx:8-10 | a controller starts with the guard unset and the camera as given |
| GalaxyView.CameraController.OnStars | system/frontend-app/src/components/GalaxyView.jsx:12-21 | framing runs only when the guard is unset and stars exist; it places the camera at centroid + (0,0,18), aims it and (with controls) the orbit target at the centroid, sets the guard for good; framings ≤ 1 |
| GalaxyView.CameraController.UserMove | system/frontend-app/src/components/GalaxyView.jsx:124 | a manual move changes only the camera position; later renders never overwrite it |
| GalaxyView.AccentSameForHoverAndDream | system/frontend-app/src/components/GalaxyView.jsx:56 | a star shows the accent colour exactly when it is hovered or dreamed of, and the idle colour exactly when neither |
| GalaxyView.StarNode.constructor | system/frontend-app/src/components/GalaxyView.jsx:26-37 | a star mounts idle with its 6 s interval running |
| GalaxyView.StarNode.PointerOver | system/frontend-app/src/components/GalaxyView.jsx:51 | pointer over sets `hovered` and nothing else |
| GalaxyView.StarNode.PointerOut | system/frontend-app/src/components/GalaxyView.jsx:51 | pointer out clears `hovered` and nothing else |
| GalaxyView.StarNode.NextTimer | system/frontend-app/src/components/GalaxyView.jsx:35-36 | a pending dwell ends 4 s after it started; otherwise the 6 s trial sets `dreaming` iff the draw exceeds 0.99; dreaming starts only on a trial tick |
| GalaxyView.StarNode.Unmount | system/frontend-app/src/components/GalaxyView.jsx:36 | unmount clears the interval; flags and a pending dwell stay |
| GalaxyView.StarNode.Appearance | system/frontend-app/src/components/GalaxyView.jsx:48-78 | ring and popup iff hovered or dreaming; colour depends only on (shown, isAudio); the tag label iff tags are non-empty and the popup is hidden, showing the first tag |
| Scanner.CleanName | system/backend/app/scanner.py:22 | no ':', '\\' or '/' survive cleaning |
| Scanner.ThumbName | system/backend/app/scanner.py:20-24 | no ':', '\\', '/'; ends in ".jpg" in some case; ".jpg" appended iff the cleaned name does not already end so |
| Scanner.ThumbNameIdempotent | system/backend/app/scanner.py:20-24 | a thumbnail name is its own thumbnail name |
| Scanner.GenThumb | system/backend/app/scanner.py:26-38 | audio suffixes give None; otherwise the name is returned iff the thumbnail exists or renders; an existing one is returned as is |
| Scanner.ReadExif | system/backend/app/scanner.py:50-54 | the EXIF map holds exactly the kept tags, each with the value of its last kept entry |
| Scanner.TimeSource | system/backend/app/scanner.py:42-61 | "exif" with confidence 1.0 iff an image's DateTimeOriginal is present and parses; otherwise ("os", 0.1, no ts_real) |
| Scanner.WorkListExact | system/backend/app/scanner.py:94-117 | a file is in the work list iff walked, discovered (no leading '.', configured extension) and not stored |
| Scanner.ImagesFirstShape | system/backend/app/scanner.py:127 | the reorder is a permutation with every image before every other file and each group in its original order |
| Scanner.SuffixMatchesEnding | system/backend/app/scanner.py:98 | for names not starting with '.', the suffix test and the name-ending test agree |
| Scanner.DiscoveredKinds | system/backend/app/scanner.py:136-141 | a discovered non-image always carries an audio extension |
| Scanner.ThumbnailRediscovered | system/backend/app/scanner.py:95-99 | the thumbnail of an absolute path is itself discovered as an image by the next walk |
| Scanner.RowsOfLength | system/backend/app/scanner.py:134-141 | at most one row per file |
| Scanner.AudioRowsAreOsTimed | system/backend/app/scanner.py:151-157 | every audio row is dated by the file system with confidence 0.1 |
| Scanner.ScanStatus.constructor | system/backend/app/scanner.py:17 | the shared status starts idle with zero counters |
| Scanner.DiscoverFiles | system/backend/app/scanner.py:94-99 | the walk loop keeps exactly the discovered files, in walk order |
| Scanner.SplitBatch | system/backend/app/scanner.py:132-141 | a batch splits into the rows of its images and of its other files, each in order |
| Scanner.InsertRows | system/backend/app/scanner.py:145-157 | each insert appends its row and adds one to `current` |
| Scanner.ProcessBatch | system/backend/app/scanner.py:131-159 | one batch extends the rows to those of the prefix up to i+32 and advances `current` by the rows added |
| Scanner.RunBatches | system/backend/app/scanner.py:128-160 | batches of 32 cover the sorted list exactly once in order; rows are those of the whole list; `current` grows by the number of rows |
| Scanner.ProcessScan | system/backend/app/scanner.py:87-164 | rows are those of the image-first work list; total = work-list length; current = rows ≤ total; status ends "idle"; ghosts are the stored paths gone from disk |
| Routes.WebPath | system/backend/app/routes.py:16 | every backslash becomes '/', every other character stays in place |
| Routes.WebPathIdempotent | system/backend/app/routes.py:16 | applying `web_path` twice equals applying it once |
| Routes.StartScan | system/backend/app/routes.py:30-32 | a scan is queued iff the status is "idle"; the reply is always "started" |
| Routes.MatchIdentity | system/backend/app/routes.py:77-81 | the match is the first identity in table order whose lower-cased name occurs in the lower-cased query, and none iff no name occurs |
| Routes.BuildTagMap | system/backend/app/routes.py:96-97 | each path maps to its linked names in link order; unlinked paths get [] and are not keys |
| Routes.OrInt | system/backend/app/routes.py:116 | Python `a or b` on timestamps: None and 0 fall through to b |
| Routes.DisplayPath | system/backend/app/routes.py:117 | relative to the DreamBox when below it, else the bare name, then `web_path`; fails exactly for prefix-sharing siblings |
| Routes.ImageResults | system/backend/app/routes.py:106-120 | each image result clears the threshold, exists on disk, has the `/thumbs/` name and its tags |
| Routes.AudioResults | system/backend/app/routes.py:123-136 | each audio result clears the threshold, has no thumbnail, and carries its tags; no existence check |
| Routes.RankShape | system/backend/app/routes.py:138-139 | the answer holds min(n, 500) results by non-increasing score, a sub-multiset of the merged list and a permutation of it when nothing is cut; a merged result left out means the list was cut at 500 and it scores no higher than the 500th |
| Routes.RankStable | system/backend/app/routes.py:138-139 | for every score, the kept results of that score are the first ones of that score in image-then-audio merge order, and all of them when nothing is cut |
| Routes.SearchSpecShape | system/backend/app/routes.py:103-139 | the search result is ≤ 500, sorted, every score ≥ threshold, every image on disk; when every kept hit has a display path, the result of each kept image and audio hit is in the answer unless the answer was cut at 500 above it; otherwise the answer is empty |
| Routes.SearchSpecKindCaps | system/backend/app/routes.py:109-139 | at most 500 images and 20 audio items reach the results |
| Routes.ImageResultsExact | system/backend/app/routes.py:106-120 | the image loop succeeds iff every kept hit (top 500, score ≥ threshold, on disk) has a display path, and then yields exactly one result per kept hit, in hit order |
| Routes.AudioResultsExact | system/backend/app/routes.py:123-136 | the audio loop succeeds iff every kept hit (top 20, score ≥ threshold) has a display path, and then yields exactly one result per kept hit, in hit order |
| Routes.CollectImages | system/backend/app/routes.py:110-120 | the image loop computes `ImageResults` |
| Routes.CollectAudio | system/backend/app/routes.py:127-136 | the audio loop computes `AudioResults` |
| Routes.Search | system/backend/app/routes.py:66-144 | an empty query or a raised error gives []; otherwise the results are the search specification under the built tag map |
| Routes.WovenAll | system/backend/app/routes.py:153 | one woven entry per pool row with its path, score 1.0 and `/thumbs/` name |
| Routes.Weave | system/backend/app/routes.py:147-153 | the reply lists the anchored rows in time order, each with score 1.0 |
| Routes.WeavePoolOrder | system/backend/app/routes.py:151-152 | the story is a stable ascending sort by ts_real, else ts_inferred, else 0 of exactly the anchored image rows |
| Routes.WovenAllDefined | system/backend/app/routes.py:153 | the story cannot fail when every path's display path is defined |
| Server.CleanPathForWeb | system/backend/server.py:38-39 | the same rewrite as the routes' `web_path` |
| Server.SafeThumbFilename | system/backend/server.py:41-43 | no ':', '\\', '/'; the cleaned name followed by ".jpg", always |
| Server.SafeThumbFilenameAppendsAgain | system/backend/server.py:41-43 | applying it twice adds a second ".jpg" (not idempotent) |
| Server.SafeThumbFilenameVersusThumbName | system/backend/server.py:41-43 | agrees with the scanner's `thumb_name` except on names already ending in ".jpg", where it adds one more |
| Server.GenerateThumbnail | system/backend/server.py:96-105 | the thumbnail path iff the file exists or the image renders |
| Server.DiscoverImages | system/backend/server.py:121-129 | the walk keeps exactly the discovered files in walk order |
| Server.DiscoveredShape | system/backend/server.py:124-129 | a file is kept iff no directory starts with '.' or is "system"/"node_modules", the name does not start with '.', and the extension is one of the five, in any case |
| Server.StoredRowsCount | system/backend/server.py:144-154 | exactly one row per file that opens |
| Server.StoredRowsFrom | system/backend/server.py:144-154 | every row is for a file of the list that opens |
| Server.OpenBatch | system/backend/server.py:144-154 | the open loop collects the rows of the batch and names its last file in `last_file` |
| Server.InsertBatch | system/backend/server.py:159-165 | each insert appends its row and adds one to `current` |
| Server.ScanBatch | system/backend/server.py:141-167 | one slice `to_process[i:end]` extends the rows to those of the prefix up to `end`, and `last_file` names the slice's last file; a batch with no openable file adds none |
| Server.ScanStep | system/backend/server.py:140-167 | one turn of the loop moves from i to min(i+32, len); the batches walked so far are full slices of 32 covering the prefix |
| Server.ScanBatches | system/backend/server.py:138-169 | slices of 32 cover `to_process` exactly once in order; `current` grows by the number of rows |
| Server.PendingFiles | system/backend/server.py:113-133 | the ghost clean-up deletes exactly the stored paths gone from disk; `to_process` is the discovered files not stored afterwards, in walk order |
| Server.IndexPending | system/backend/server.py:135-171 | total = number pending, current = rows ≤ total, status ends "idle", `last_file` is the last pending file's name (unchanged when none is pending) |
| Server.RunScan | system/backend/server.py:108-171 | ghosts deleted; rows are those of `to_process`; total = its length; current = rows ≤ total; status ends "idle" |
| Server.ToProcessExact | system/backend/server.py:131-133 | a file is processed iff discovered and not stored (or stored but gone from disk) |
| Server.StartScan | system/backend/server.py:199-203 | "already_running" while indexing, otherwise queued and "started" |
| Server.ServerDisplayPath | system/backend/server.py:232-235 | the path relative to the DreamBox, else the bare name, with backslashes turned to '/' |
| Server.SearchResults | system/backend/server.py:222-245 | at most one result per hit |
| Server.SearchResultsExact | system/backend/server.py:222-245 | the reply is the hits whose file exists, in hit order, each made into its entry |
| Server.SearchResultsOnDisk | system/backend/server.py:223-245 | every result's file exists; the thumbnail URL is set iff the thumbnail file exists, and is `/thumbs/<name>` |
| Server.ResultFor | system/backend/server.py:228-244 | a result keeps its hit's path and score; thumb set iff the thumbnail exists |
| Server.SearchResultsFromHits | system/backend/server.py:223-245 | every result comes from a hit with the same path and score |
| Server.SearchResultsRanked | system/backend/server.py:221-245 | ranked hits give ranked results |
| Server.Search | system/backend/server.py:206-245 | [] for an empty query; otherwise the results of the first min(500, rows) hits, ≤ 500 |
| Server.CollectResults | system/backend/server.py:222-245 | the loop builds exactly the result list of the hits |
| Server.BuildPool | system/backend/server.py:257-264 | the nested loop computes the story pool: the anchors plus every stored path some found anchor scores above 0.35 against |
| Server.WeaveResultOf | system/backend/server.py:269-280 | an entry keeps its path, score 1.0 and the `/thumbs/` name |
| Server.WeaveResults | system/backend/server.py:266-281 | one entry per stored path in the pool, in table order |
| Server.CollectWoven | system/backend/server.py:266-281 | the loop builds exactly the story entries of the stored paths in the pool, in table order |
| Server.Weave | system/backend/server.py:248-281 | [] when no anchor or no row is found, otherwise the story results |
| Server.AnchorInPool | system/backend/server.py:257 | every requested anchor is in the pool |
| Server.WeaveKeepsAnchors | system/backend/server.py:257-268 | every requested anchor present in the table is woven in |
| Server.WeaveResultsStored | system/backend/server.py:267-268 | every woven entry is a stored pool path with score 1.0 |
| Ollama.FirstMatching | system/backend/app/ollama_engine.py:23-26 | a found name is in the list and mentions a key |
| Ollama.FirstMatchingIsFirst | system/backend/app/ollama_engine.py:29-32 | none iff no name matches; otherwise the earliest matching name |
| Ollama.FirstScanChoices | system/backend/app/ollama_engine.py:35-36 | no vision match makes vision = chat; a non-empty list always yields a chat model, the first model when no chat key matches; an empty list leaves both unset |
| Ollama.OllamaEngine.constructor | system/backend/app/ollama_engine.py:6-12 | everything unset, then one scan; available only after a 200 answer |
| Ollama.OllamaEngine.FirstMatchLoop | system/backend/app/ollama_engine.py:23-26 | the `for`/`break` loop finds the first match |
| Ollama.OllamaEngine.ScanModels | system/backend/app/ollama_engine.py:14-43 | a 200 answer replaces the list, chooses both models and sets available; any other outcome changes nothing |
| Ollama.OllamaEngine.SetModel | system/backend/app/ollama_engine.py:48-52 | refused iff the name is unknown; "chat"/"vision" set only their own field; another type changes nothing |
| Ollama.OllamaEngine.Chat | system/backend/app/ollama_engine.py:58 | "Ollama not available." without availability or a chat model; otherwise the reply or "Brain Error: …" |
| Ollama.OllamaEngine.Describe | system/backend/app/ollama_engine.py:74 | "Vision model not found." without availability or a vision model; otherwise the reply or "Vision Error: …" |
| RightPanel.SamplesOffsets | system/frontend-app/src/components/RightPanel.jsx:45 | sample k is the key at byte offset 20k, up to the end of the array |
| RightPanel.Bump | system/frontend-app/src/components/RightPanel.jsx:47 | a bump adds at most one bin |
| RightPanel.BumpCount | system/frontend-app/src/components/RightPanel.jsx:46-47 | a bump adds one to its colour's count only |
| RightPanel.BumpTotal | system/frontend-app/src/components/RightPanel.jsx:46-47 | a bump adds one to the total |
| RightPanel.HistogramSpec | system/frontend-app/src/components/RightPanel.jsx:44-48 | each sampled colour once, with its number of samples; counts sum to the number of samples |
| RightPanel.ColoursOf | system/frontend-app/src/components/RightPanel.jsx:49 | the colours of the bins, in order |
| RightPanel.SwatchesOrdered | system/frontend-app/src/components/RightPanel.jsx:49 | at most five swatches by non-increasing count |
| RightPanel.SwatchesSampled | system/frontend-app/src/components/RightPanel.jsx:49 | every swatch was sampled, shows its true count, and none repeats |
| RightPanel.SwatchesAreTop | system/frontend-app/src/components/RightPanel.jsx:49 | no colour left out was sampled more often than the last swatch |
| RightPanel.Extract | system/frontend-app/src/components/RightPanel.jsx:38-50 | the sampling loop and the ranking compute the swatches |
| RightPanel.PaneFor | system/frontend-app/src/components/RightPanel.jsx:12-16 | the inspector iff a preview item is set, with that item |
| RightPanel.SwatchState.constructor | system/frontend-app/src/components/RightPanel.jsx:31 | no swatches at first |
| RightPanel.SwatchState.OnItemChange | system/frontend-app/src/components/RightPanel.jsx:36-52 | extraction only when the image exists and has loaded; otherwise the previous swatches stay |
| RightPanel.MiniPlayer.constructor | system/frontend-app/src/components/RightPanel.jsx:120-127 | a mounted player plays iff it has a track |
| RightPanel.MiniPlayer.NewTrack | system/frontend-app/src/components/RightPanel.jsx:122-127 | a new track plays; clearing the track keeps the flag |
| RightPanel.MiniPlayer.Toggle | system/frontend-app/src/components/RightPanel.jsx:143-146 | the button flips `isPlaying` |
| RightPanel.MiniPlayer.Ended | system/frontend-app/src/components/RightPanel.jsx:151 | the end of the track stops playing |
| LightBox.InitialTags | system/frontend-app/src/components/LightBox.jsx:8 | the item's identities, or [] |
| LightBox.UntagCounts | system/frontend-app/src/components/LightBox.jsx:45 | untag removes every copy of the name and keeps every other tag's copies |
| LightBox.RevertRestoresOnlySingle | system/frontend-app/src/components/LightBox.jsx:57 | the revert restores the old tag multiset iff the name was there exactly once |
| LightBox.TeachPanel | system/frontend-app/src/components/LightBox.jsx:197 | no teaching panel for audio; otherwise the chips are the local tags |
| LightBox.LightBoxState.constructor | system/frontend-app/src/components/LightBox.jsx:6-8 | the tags start as the initial tags, no input, no feedback |
| LightBox.LightBoxState.Untag | system/frontend-app/src/components/LightBox.jsx:42-59 | the name leaves the list; a failed request appends it at the end; the feedback reports the outcome |
| LightBox.LightBoxState.Teach | system/frontend-app/src/components/LightBox.jsx:61-69 | an empty name does nothing; success appends the name (duplicates allowed) and clears the input; failure keeps both |
| LightBox.InfoTile | system/frontend-app/src/components/LightBox.jsx:252-253 | a tile renders nothing iff its value is falsy |
| LightBox.TilesShape | system/frontend-app/src/components/LightBox.jsx:75-78 | parsed metadata shows a tile per truthy slot; falsy or unparsable metadata shows none |
| LightBox.SeedRemove | system/frontend-app/src/components/LightBox.jsx:81 | removing a character removes its code from the seed |
| LightBox.SeedPermutation | system/frontend-app/src/components/LightBox.jsx:81 | the seed does not depend on character order |
| LightBox.DnaPhases | system/frontend-app/src/components/LightBox.jsx:82 | exactly 24 bars |
| LightBox.DnaBarsPermutation | system/frontend-app/src/components/LightBox.jsx:81-82 | paths with the same characters draw the same bars |
| LightBox.JoinNamesHolds | system/frontend-app/src/components/LightBox.jsx:22 | every tag occurs in its join |
| LightBox.UserPrompt | system/frontend-app/src/components/LightBox.jsx:17 | the stored prompt or the default, never empty |
| LightBox.PromptPeopleFirst | system/frontend-app/src/components/LightBox.jsx:21-23 | the prompt opens with the people clause iff there are local tags |
| LightBox.PromptNamesTags | system/frontend-app/src/components/LightBox.jsx:22 | every local tag is named in the prompt |
| LightBox.PromptEndsWithUser | system/frontend-app/src/components/LightBox.jsx:29 | the prompt is the context, a blank line, then the user prompt |
| LightBox.AskState.constructor | system/frontend-app/src/components/LightBox.jsx:11-12 | no answer and not loading |
| LightBox.AskState.Ask | system/frontend-app/src/components/LightBox.jsx:14-40 | sends the final prompt; shows the reply or "AI Brain Offline."; loading ends |
| ClientState.Play | system/frontend-app/src/App.jsx:34-41 | the current track (by path) flips playing and stays; any other track becomes current and plays |
| ClientState.PlayTwice | system/frontend-app/src/components/App.jsx:53-56 | pressing the same track twice restores the current track, or leaves a new one paused |
| ClientState.Toggled | system/frontend-app/src/App.jsx:87-91 | the path is in the new set iff it was absent; other members are unchanged |
| ClientState.ToggledTwice | system/frontend-app/src/App.jsx:87-91 | toggling twice gives back the selection |
| ClientState.ToggledSize | system/frontend-app/src/App.jsx:87-91 | toggling changes the size by exactly one |
| RootApp.ProgressBounds | system/frontend-app/src/App.jsx:93 | the percentage is in [0, 100], reaches 100 only when done, 0 for an empty scan |
| RootApp.PickIndex | system/frontend-app/src/App.jsx:65 | the random index is among the first min(5, n) |
| RootApp.Soundtrack | system/frontend-app/src/App.jsx:62-67 | a pick exists iff the answer has audio, and is one of its first five audio items |
| RootApp.RootApp.constructor | system/frontend-app/src/App.jsx:17-31 | the initial state of the shell |
| RootApp.RootApp.PlayTrack | system/frontend-app/src/App.jsx:34-41 | `playTrack` follows `Play` and changes nothing else |
| RootApp.RootApp.ToggleSelect | system/frontend-app/src/App.jsx:87-91 | the selection becomes the toggled copy; nothing else changes |
| RootApp.RootApp.HandleSearch | system/frontend-app/src/App.jsx:52-71 | an empty value searches 'everything'; any other leaves the galaxy; an answer replaces items, ends story mode and picks a soundtrack only when no track is current |
| RootApp.RootApp.HandleTeach | system/frontend-app/src/App.jsx:73-81 | nothing without a name or a selection; success clears selection, name and modal and sets the query; failure only sets the status |
| RootApp.RootApp.Weave | system/frontend-app/src/App.jsx:126-129 | an answer replaces the items and turns story mode on |
| RootApp.RootApp.SelectNode | system/frontend-app/src/App.jsx:103 | a node click previews the item and leaves the galaxy |
| RootApp.RootApp.IdentityClick | system/frontend-app/src/App.jsx:114 | the query becomes the name, which is searched next |
| Shell.GalaxyItems | system/frontend-app/src/components/App.jsx:82 | the galaxy data when non-empty, else the search items |
| Shell.Shell.constructor | system/frontend-app/src/components/App.jsx:23-39 | the initial state of the shell and its search session |
| Shell.Shell.GalaxyProps | system/frontend-app/src/components/App.jsx:82-83 | the highlights are always the search items |
| Shell.Shell.PlayTrack | system/frontend-app/src/components/App.jsx:53-56 | `playTrack` follows `Play` |
| Shell.Shell.SelectNode | system/frontend-app/src/components/App.jsx:85-88 | audio plays and opens nothing; anything else is previewed and the galaxy is left |
| Shell.Shell.IdentityClick | system/frontend-app/src/components/App.jsx:58-60 | the query becomes the name, the galaxy is shown, and the search outcome for the name follows |
| Shell.Shell.HeaderSearch | system/frontend-app/src/components/App.jsx:105 | the galaxy is left, then the search outcome follows |
| Shell.Shell.GridSelect | system/frontend-app/src/components/App.jsx:107 | the selection becomes the toggled fresh set |
| Shell.Shell.Loom | system/frontend-app/src/components/App.jsx:120-124 | the preview closes and the status says weaving; an answer replaces the items and shows the galaxy |
| Shell.Shell.TeachConfirm | system/frontend-app/src/components/App.jsx:130-133 | once the request resolves, selection, name and modal are cleared |
| Shell.Shell.QuickTeach | system/frontend-app/src/components/App.jsx:62-68 | the status reports "AI Learned: name" or "Teach Failed" |
| Shell.Shell.Weave | system/frontend-app/src/components/App.jsx:105 | an answer replaces the items and turns story mode on |
| SearchEngine.CleanQuery | system/frontend-app/src/hooks/useSearchEngine.js:10-11 | `val` when it is a string, else the typed query, trimmed |
| SearchEngine.FirstAudioIsFirst | system/frontend-app/src/hooks/useSearchEngine.js:22-26 | the first audio item is the earliest audio item; none iff no audio |
| SearchEngine.SearchOutcomeShape | system/frontend-app/src/hooks/useSearchEngine.js:13-30 | an automatic call with a typed query changes nothing; an answer replaces items, ends story mode, and with audio plays an audio item of the answer, without audio keeps the track; a failure only sets "Recall Failed" |
| SearchEngine.StatusTexts | system/frontend-app/src/hooks/useSearchEngine.js:15-28 | "Syncing…"/"Restored N scenes" for an empty query, "🧠 Recalling: …"/"Found N matches" otherwise |
| SearchEngine.SearchSession.constructor | system/frontend-app/src/hooks/useSearchEngine.js:5-7 | empty items and query, threshold 0.15 |
| SearchEngine.SearchSession.HandleSearch | system/frontend-app/src/hooks/useSearchEngine.js:9-33 | the new state is the search outcome; nothing is sent iff the call is automatic with a typed query; otherwise the cleaned query is sent |
| Grid.Pills | system/frontend-app/src/components/GridView.jsx:18-25 | one pill per audio item, in order |
| Grid.Cards | system/frontend-app/src/components/GridView.jsx:32-42 | one card per image item, in order |
| Grid.LayoutRows | system/frontend-app/src/components/GridView.jsx:7-14 | the pill row exists iff some item is audio; pills are the audio items and cards the image items, in list order |
| Grid.KindCounts | system/frontend-app/src/components/GridView.jsx:7-8 | every copy of an audio item is a pill, every copy of an image a card, any other kind in neither |
| Grid.CardFlags | system/frontend-app/src/components/GridView.jsx:37-64 | a card is selected iff its path is selected; its image is the thumbnail, else the raw URL with each segment encoded |
| Grid.PillFlags | system/frontend-app/src/components/GridView.jsx:21-53 | a pill is active iff it is the current track by path, shows pause iff active and playing; at most one of two distinct paths is active |
| Grid.CardClick | system/frontend-app/src/components/GridView.jsx:78 | the dot toggles the selection without opening the preview; the body opens it |
| WebUrl.JoinSplit | system/frontend-app/src/components/GridView.jsx:64 | joining the pieces of a split gives the string back |
| WebUrl.SplitJoin | system/frontend-app/src/components/GridView.jsx:64 | splitting a join of separator-free pieces gives the pieces back |
| WebUrl.EncodeComponent | system/frontend-app/src/components/GridView.jsx:64 | `encodeURIComponent` emits only unreserved characters and `%XX` escapes, never '/' |
| WebUrl.EncodePathKeepsSegments | system/frontend-app/src/components/Inspector.jsx:13 | the encoded path splits into exactly the encoded segments of the original |
| WebUrl.ThumbOrRawUrl | system/frontend-app/src/components/GridView.jsx:64 | the thumbnail URL when there is a thumbnail, else the raw URL |
| Media.AudioOf | system/frontend-app/src/components/GridView.jsx:7 | exactly the audio items |
| Media.ImagesOf | system/frontend-app/src/components/GridView.jsx:8 | exactly the image items |
| Common.TrimShape | system/frontend-app/src/hooks/useSearchEngine.js:11 | the trimmed query is a middle part of the input with no white space at either end |
| Common.TrimIdempotent | system/frontend-app/src/hooks/useSearchEngine.js:11 | trimming twice equals trimming once |
| Inspector.Confidence | system/frontend-app/src/components/Inspector.jsx:19 | in [0, 100]; missing → 0; a score in [0, 1] scales by 100; below 0 → 0; above 1 → 100 |
| Inspector.ConfidenceMonotone | system/frontend-app/src/components/Inspector.jsx:19 | a higher score never shows a lower confidence |
| Inspector.Title | system/frontend-app/src/components/Inspector.jsx:86 | the title is the prefix of the last segment up to its first '.' (the whole segment when it has none), with no '.' and no '/' |
| Inspector.TitleOfFile | system/frontend-app/src/components/Inspector.jsx:86 | the title of `dir/stem.ext`, `dir/stem`, `stem.ext` and `stem` is `stem` |
| Inspector.Render | system/frontend-app/src/components/Inspector.jsx:9-22 | nothing without a preview item; no image URL iff audio; the image URL is the raw URL; "Unknown Timeline" iff ts is missing or 0; no identities → [] |
| Inspector.RawUrlSegments | system/frontend-app/src/components/Inspector.jsx:13 | the raw URL keeps the '/' separators and encodes each segment on its own |
| Inspector.TeachTarget | system/frontend-app/src/components/Inspector.jsx:25 | the explicit name wins unless empty; empty iff both are empty |
| Inspector.InspectorState.constructor | system/frontend-app/src/components/Inspector.jsx:8 | the typed name starts empty |
| Inspector.InspectorState.Type | system/frontend-app/src/components/Inspector.jsx:112 | typing sets the name |
| Inspector.InspectorState.QuickTeach | system/frontend-app/src/components/Inspector.jsx:24-30 | no request when both names are empty; otherwise a request with the item as sole anchor; success clears the input and refreshes when possible; failure changes nothing |
| Face.Pad | system/backend/app/face_engine.py:57-58 | the padding is a fifth of the size, truncated toward zero |
| Face.FaceBounds | system/backend/app/face_engine.py:57-67 | the padded box lies inside the image; it contains the detected box; with room it keeps its full padding; the score is the first category's, else 0.5 |
| Face.FaceEngine.constructor | system/backend/app/face_engine.py:13-18 | the singleton starts without a detector |
| Face.FaceEngine.Load | system/backend/app/face_engine.py:20-33 | a detector is created only when there is none |
| Face.FaceEngine.Detect | system/backend/app/face_engine.py:35-70 | the detector is loaded lazily; the faces are those of the detections |
| Face.Faces | system/backend/app/face_engine.py:48-68 | one face per detection |
| Face.BoxFaces | system/backend/app/face_engine.py:48-68 | the loop appends one padded, clamped face per detection, in order |
| Face.FacesInside | system/backend/app/face_engine.py:59-62 | every returned face lies inside the image |

## Left out

- Embedding and ML numerics are not modelled: CLIP encoding, `cos_sim`, `torch.topk`, the UMAP layout and its scaling, identity mean vectors and query blending are floating-point work in foreign libraries. Scores, rankings and coordinates are given reals.
- SQLite and the file system are inputs. The `Disk` oracle answers existence, opening, rendering and EXIF. Inserted rows are recorded values, not SQL.
- EXIF decoding and mutagen tags are inputs. `Scanner.ReadExif` receives the entries with their tags already named.
- HTTP calls are inputs: axios, fetch, requests, FastAPI routing and the Ollama request bodies. Each answer is a parameter.
- Follow-up requests made after a handler are returned instead of performed: `refresh()`, `fetchGalaxy`, and the search that follows `RootApp.RootApp.HandleTeach` and `RootApp.RootApp.IdentityClick`.
- Rendering and animation are not modelled: per-frame breathing, lerps, billboarding, framer-motion, the canvas, and the `<audio>` element.
- `LightBox.DnaPhases`: only the arguments of the 24 `sin` calls are modelled, because their sine values are decoration.
- Locale date formatting is not modelled. The Inspector keeps the date as milliseconds, and the light box takes the formatter as a parameter.
- Timers run on an explicit millisecond clock. `Math.random()` is an injected sequence of draws in [0, 1).
- The light box's transient "Removing…" feedback and the timeout that clears the feedback are not modelled. Only the final feedback after each handler is kept.
- React's batched and asynchronous `setState` and stale closures are modelled as updates applied in program order.
- In `Shell`, the status and playback state that the shell hands to the search hook live in the `SearchSession` object.
- `LightBox.ParseMetadata`: `JSON.parse` is a parameter that answers a metadata record or fails. A JSON value that is not an object is not modelled.
- `Common.Lower` is ASCII lower-casing only, because Python's full Unicode `lower()` is not modelled.
- `LightBox.Seed` sums Dafny characters (Unicode scalar values) where JavaScript sums UTF-16 code units. The two differ for characters outside the Basic Multilingual Plane.
- The in-place Python sorts (`to_process.sort`, `results.sort`, `pool.sort`) and JavaScript's `sort` are modelled as a stable insertion sort on sequences. They are not modelled as updates in place.
- `RightPanel.SwatchState.OnItemChange`: when the image is absent or not loaded, the previous item's swatches stay, as the code does.
- The Inspector's EXIF "Device"/"Settings" rows, the artist label and `meta.title` display are not modelled, because they are presentation.
- The Inspector's `handleUntag` is not modelled. It only posts a request and changes no inspector state.
- `Face.Pad` truncates an exact fifth. Python computes `int(n * 0.2)` in floating point. Because the binary 0.2 is slightly above 0.2, this agrees with the exact fifth for every box size a detector can report.
- The `FaceEngine` singleton lock is not modelled. The model download (`curl`) and MediaPipe detection are not modelled: the detections are an input and loading is a flag.
- Face embeddings are not carried, because the code always sets them to `None`.
- `Scanner.ProcessScan` assumes that `os.path.getsize` and `os.path.getmtime` succeed (system/backend/app/scanner.py:41 and :71, reached from :135). In the code, an error there escapes the loop and leaves the status "indexing" for good, so every later scan is refused. The model does not capture that.
- `Server.IndexPending` assumes that `model.encode` and `p.stat()` succeed (system/backend/server.py:157 and :164). In the code, an error there skips the reset at :171 and leaves the status "indexing" for good, so `start_scan` answers "already_running" from then on. The model does not capture that.
- `Server.RunScan` inherits that assumption from `Server.IndexPending`. A raised error leaves the status "indexing" for good, and the model does not capture that.
- `Scanner.ProcessScan`: `Disk.thumbOnDisk` is a fixed oracle for the whole scan. A thumbnail written earlier in the same scan is not seen by later existence checks. This differs from the code only when two files of one scan clean to the same thumbnail name (for example `a/b.png` and `a_b.png`): the code reuses the first thumbnail, while the model renders again.
- `Scanner.TimeOf` reads the EXIF table through `Disk.exifOf` and does not call `Scanner.ReadExif`. The two are separate: `ReadExif` models how the table is built from entries, and `exifOf` stands for its result on a file.
- Sidebar, Header, TeachModal, NeuralHalo, OmniscientDebug, DebugHUD, AudioPlayer, FacesView and the test scripts are not part of this model.
