# Topic-to-video production pipeline, modelled in Dafny

The application turns a topic into a narrated video. Its pipeline has six parts, and this project models each of them:

- **Script route.** `POST /api/generate` asks a chain of language-model providers for a script of scenes.
- **Stream ingest.** The client reads the route's answer as a stream, finds scene objects in it and starts one asset job per scene.
- **Asset job.** The job searches stock media (`GET /api/pexels`, with the server helper `getPexelsVideo`) and requests narration audio (`POST /api/tts`). Every result lands in the production as an index-scoped patch.
- **Preview player.** The player speaks the scenes one after another, ducks the background music and highlights the word being spoken.
- **Renderer.** `renderVideo` builds the input list and filter graph for an FFmpeg engine.
- **Lock screen.** The lock screen in front of the tool grants timed access and counts it down.

The modules follow that structure:

| module | models |
|---|---|
| `Common` | JavaScript white space, `trim` and decimal rendering |
| `Scenes` | the scene record and the object spread |
| `ProductionStore` | `updateScene` and the publication of the collected scenes |
| `ScriptIngest` | the stream read loop of `handleGenerate` (a class) |
| `AssetResolver` | `processScene` |
| `Captions` | the subtitle sort and the word-bucket lookup |
| `Playback` | `handleSpeak`, `playScene`, `startFullPlayback` and `stopPlayback` (a class) |
| `VideoRender` | `renderVideo` (with a class for the engine's working directory) |
| `TtsRoute`, `GenerateRoute`, `PexelsRoute` | the three routes |
| `StockMedia`, `PexelsLib` | the shared media-selection rules and `getPexelsVideo` |
| `Countdown` | the lock screen |

Network services, `JSON.parse`, the scene regular expression and the FFmpeg engine are parameters (oracle functions). A loop in the source is a method with a loop, proved against a function that specifies it. A component whose fields the source updates in place is a class. The class's methods state their new state through that function, and the lemmas prove what the source promises about the function.

## Model

| member | source | states |
|---|---|---|
| Common.TrimStripsSpace | src/components/GeneratorInterface.tsx:273 | `trim` gives a slice `s[a..b]` of its input with white space only before `a` and after `b`, and the slice neither starts nor ends with white space |
| Common.DecimalRoundTrip | src/app/page.tsx:109 | `n.toString()` reads back as `n` |
| Common.DecimalLength | src/app/page.tsx:109 | a number renders in one digit exactly below 10 and in two exactly from 10 to 99 |
| Countdown.Pad2 | src/app/page.tsx:109 | a padded field has at least two digits and reads back as the number; exactly two below 100, all digits from 100 on (never truncated) |
| Countdown.FieldsSplitSeconds | src/app/page.tsx:106-108 | `h·3600 + m·60 + s` is the input, with `m` and `s` below 60 |
| Countdown.FormatTimeRoundTrip | src/app/page.tsx:105-110 | reading the display back gives the seconds, so hours are never truncated |
| Countdown.FormatTimeShape | src/app/page.tsx:109 | the display is eight characters exactly below 360000 s, and then it is `DD:DD:DD` |
| Countdown.CountdownEndsOnTime | src/app/page.tsx:89-100 | from `n > 0` seconds the timer keeps running through `n-1 … 1` without expiring, and the `n`-th tick ends the session |
| Countdown.CheckCode | src/app/page.tsx:44-69 | a missing record is a wrong code, an inactive one is refused, and a timed code is expired exactly when fewer than 1000 ms remain; a granted code gives its type, and its countdown starts above zero |
| Countdown.ExpiredBelowOneSecond | src/app/page.tsx:59-61 | `floor((expires - now)/1000) <= 0` exactly when fewer than 1000 ms remain |
| Countdown.LockScreen.constructor | src/app/page.tsx:11-14 | the screen starts locked, with no countdown and an empty password |
| Countdown.LockScreen.Login | src/app/page.tsx:44-69 | a refusal keeps the access and the countdown and shows its reason; a grant sets the access type and, for a timed code, the seconds left |
| Countdown.LockScreen.TimerFires | src/app/page.tsx:89-99 | one tick applies `Tick`; on expiry access becomes `none` and the password is cleared; the timer keeps running exactly when more than one second was left |
| GenerateRoute.ChainInOrder | src/app/api/generate/route.ts:86-114 | models are asked as a prefix of the list, in order; every one before the last asked failed; a script comes back exactly when some model produces one, and it is the last asked model's; with no script every model was asked |
| GenerateRoute.ChainAfterFailures | src/app/api/generate/route.ts:86-114 | after failures at the first `i` models the chain's result is the rest of the chain's, behind those models |
| GenerateRoute.TryFallbackModels | src/app/api/generate/route.ts:80-114 | the loop asks the models and returns the script of the chain over the fixed model list |
| GenerateRoute.Post | src/app/api/generate/route.ts:4-121 | an unreadable body crashes and a missing title is a 400, both before any provider; Groq is asked only with its key; the first script wins; the Hugging Face chain runs only on a rate-limit error; every other failure is one 429 |
| PexelsRoute.SearchOf | src/app/api/pexels/route.ts:8-24 | photos are searched only for type `'photo'` and videos otherwise; the orientation defaults to `'landscape'`; the query is passed unchanged |
| PexelsRoute.Get | src/app/api/pexels/route.ts:5-59 | a missing query is a 400, checked before the key; a missing key is a 500; a non-ok or thrown search is a 500; `found` is true exactly when the URL is truthy |
| PexelsRoute.PhotoPrefersLarge2x | src/app/api/pexels/route.ts:38-41 | a photo answer is `large2x` if present, else `large` |
| PexelsRoute.VideoPrefersHd | src/app/api/pexels/route.ts:43-47 | a video answer is the link of the first HD file, else of the first file |
| PexelsRoute.NoResultNoUrl | src/app/api/pexels/route.ts:36-53 | no results give a null URL and `found` false |
| PexelsRoute.EmptyFileListFails | src/app/api/pexels/route.ts:43-58 | a first video with an empty file list is answered with a 500 |
| PexelsLib.GetPexelsVideo | src/lib/pexels.ts:3-34 | null without a key, on a non-ok answer, on an exception and for no videos; a first video without `video_files` gives null (the thrown `TypeError` is caught); otherwise the first HD file's link, else the first file's |
| StockMedia.FindHd | src/app/api/pexels/route.ts:45 | the index found is the first file of quality `'hd'`, and none is found only when no file is HD |
| StockMedia.BestFile | src/app/api/pexels/route.ts:45 | nothing only for an empty list; the first HD file when there is one; else the first file |
| Scenes.MergeIdentity | src/components/GeneratorInterface.tsx:185 | spreading into `{}` copies, and an empty patch changes nothing |
| Scenes.MergeAssociative | src/components/GeneratorInterface.tsx:185 | two spreads in a row are one spread of the merged patches |
| Scenes.MergeKeys | src/components/GeneratorInterface.tsx:185 | a spread has exactly the keys of its two sides |
| Scenes.DisjointPatchesCommute | src/components/GeneratorInterface.tsx:185 | patches with no key in common land in either order with the same result |
| Scenes.LaterPatchWins | src/components/GeneratorInterface.tsx:185 | a later patch overrides an earlier one whose keys it covers |
| ProductionStore.UpdateOnlyTouchesIndex | src/components/GeneratorInterface.tsx:181-188 | no production stays none; otherwise only slot `i` changes, merged with the patch; the title, the aspect ratio, the length and every other slot are kept inside the array, and holes fill the gap past its end |
| ProductionStore.PatchesToOneSceneCompose | src/components/GeneratorInterface.tsx:181-188 | two patches to one scene land as their merge |
| ProductionStore.PatchesToDistinctScenesCommute | src/components/GeneratorInterface.tsx:181-188 | patches to different scenes commute, inside the array, past its end and on a null production, so the order in which scene jobs finish does not matter |
| ProductionStore.Publish | src/components/GeneratorInterface.tsx:310 | the published array is exactly the collected scenes, in order; the spread keeps the production's title and aspect ratio, and with no production both are absent |
| ProductionStore.PublishDiscardsPatches | src/components/GeneratorInterface.tsx:310 | publishing after a patch gives what publishing without it gives: the patch is lost |
| AssetResolver.VisualPatchShape | src/components/GeneratorInterface.tsx:194-211 | `visualReady` is true on every path; at most one URL is written, and only visual keys; the order is video, then photo, then the image endpoint |
| AssetResolver.ProxyBeforeMetadata | src/components/GeneratorInterface.tsx:215-239 | the visual patch lands first and the proxy URL second, before the metadata request; the metadata patch, when there is one, lands last |
| AssetResolver.PatchesLandAsOneMerge | src/components/GeneratorInterface.tsx:181-188 | a job's patches land as one merge into slot `i` of whatever production is current |
| AssetResolver.SceneJobTouchesOnlyItsSlot | src/components/GeneratorInterface.tsx:178-241 | a scene job keeps a missing production missing and, inside the array, changes slot `i` only, keeping the length |
| AssetResolver.JobOutcome | src/components/GeneratorInterface.tsx:194-239 | after the job the visual is ready; the audio is ready except where the exception path throws again; the proxy URL stays unless the exception path writes the Google URL; captions come only from parsed JSON; the text is never written |
| AssetResolver.ResolvedSceneShowsOneVisual | src/components/GeneratorInterface.tsx:194-211 | a streamed scene ends with exactly one visual set unless the visual step threw, and its text is untouched |
| AssetResolver.JobSearchesReachRoute | src/components/GeneratorInterface.tsx:179-197 | the job's two searches reach the stock-media route as a video and a photo search for the scene's query, landscape exactly for `'16:9'` and otherwise portrait |
| AssetResolver.RouteAnswersPickVisual | src/components/GeneratorInterface.tsx:194-211 | with both searches answered, the scene shows the video URL when there is one, else the photo URL, else the image endpoint |
| AssetResolver.NoKeyFallsBackToEndpoint | src/components/GeneratorInterface.tsx:194-211 | without a Pexels key both searches are error bodies and the scene falls back to the image endpoint |
| AssetResolver.EmptyQueryFallsBackToEndpoint | src/components/GeneratorInterface.tsx:194-211 | a scene whose search query is empty (the `''` default) gets a 400 from both searches and falls back to the image endpoint |
| AssetResolver.RouteAnswerShapesAudio | src/components/GeneratorInterface.tsx:213-239 | the narration route never yields captions; an error body keeps the proxy URL, the audio answer with a script switches to the Google speech URL, and without a script keeps the proxy URL and leaves `audioReady` unset |
| Captions.SortByOffsetSorts | src/components/GeneratorInterface.tsx:372 | the sorted cues are in non-decreasing offset order and are a permutation of the input |
| Captions.FindFrom | src/components/GeneratorInterface.tsx:377-381 | `findIndex` gives the first cue whose bucket holds the time, or -1 exactly when no bucket does |
| Captions.FindWord | src/components/GeneratorInterface.tsx:377-381 | the lookup gives a cue whose bucket holds the time, or -1 exactly when no bucket does |
| Captions.BucketUnique | src/components/GeneratorInterface.tsx:377-381 | over sorted cues at most one bucket holds a given time |
| Captions.FoundOnceFirstOnsetPassed | src/components/GeneratorInterface.tsx:377-381 | over sorted cues a word is found exactly when the first onset has passed, and it is the unique cue whose bucket holds the time |
| Captions.FindWordMonotone | src/components/GeneratorInterface.tsx:377-381 | over sorted cues the highlighted word never moves back as time advances |
| Captions.WordIndexFollowsTime | src/components/GeneratorInterface.tsx:377-382 | before the first onset the word index is kept; after it, the index is the cue whose bucket holds the time |
| Captions.LastCueAfterLastOnset | src/components/GeneratorInterface.tsx:377-381 | over sorted cues, at or past the last onset the lookup gives the last cue, whose bucket runs to infinity |
| ScriptIngest.SplitLinesRoundTrip | src/components/GeneratorInterface.tsx:269 | `split('\n')` gives pieces without newlines that join back to the text |
| ScriptIngest.ConsumeOnlyCompleteLines | src/components/GeneratorInterface.tsx:268-285 | only complete lines are consumed, and the partial tail waits, so each chunk continues the line step of the text received before |
| ScriptIngest.ChunkingDoesNotMatter | src/components/GeneratorInterface.tsx:264-285 | for any chunking of a stream the buffer holds the stream's open line, and the accumulated text is the contribution of its closed lines |
| ScriptIngest.Clean | src/components/GeneratorInterface.tsx:296-297 | the cleaned match is the trimmed match when that ends with `}`, and otherwise the trimmed match followed by `}`; either way it is trimmed and ends with `}` |
| ScriptIngest.NewScene | src/components/GeneratorInterface.tsx:300-308 | a new scene keeps the parsed script, takes the image prompt, search query, camera angle and mood or `''` for each that is missing or empty, and starts with both visual URLs `null` and no audio or captions |
| ScriptIngest.EmitFromFacts | src/components/GeneratorInterface.tsx:292-318 | only matches at or past the cursor are examined; each emitted match parsed with a script; indexes strictly increase; when all are good, each is emitted once, in order, at its position |
| ScriptIngest.EmitLoop | src/components/GeneratorInterface.tsx:293-318 | the match loop pushes and dispatches exactly the scenes of the emission from the cursor |
| ScriptIngest.EmitStepCoherent | src/components/GeneratorInterface.tsx:292-318 | the match step keeps every pushed scene dispatched and counted, never lowers `sceneCount`, and only appends dispatches |
| ScriptIngest.FeedAllCoherent | src/components/GeneratorInterface.tsx:264-320 | every run of the read loop keeps the state coherent |
| ScriptIngest.AllGoodStaysAligned | src/components/GeneratorInterface.tsx:292-318 | when every examined match is good, dispatch indexes stay equal to scene positions and the count reaches the number of matches |
| ScriptIngest.EmitFromAllGood | src/components/GeneratorInterface.tsx:293-318 | when every match from the cursor on is good, each is emitted once, in order, at its own position |
| ScriptIngest.SkippedMatchIsReemitted | src/components/GeneratorInterface.tsx:292-318 | after a skipped match, the next match is dispatched one past its scene position and is emitted again by the next pass |
| ScriptIngest.EmitFixed | src/components/GeneratorInterface.tsx:292-318 | with the examined-match cursor kept apart from the count, every dispatch index equals the scene's position |
| ScriptIngest.EmitFixedResumes | src/components/GeneratorInterface.tsx:292-318 | with that cursor, a pass resuming where the last stopped emits what one pass over all matches emits, so no match is emitted twice |
| ScriptIngest.Recover | src/components/GeneratorInterface.tsx:329 | a recovered scene has both visual URLs `null` and every other field (script, prompts, camera, mood, audio, subtitles, readiness flags) as the document gave it |
| ScriptIngest.Recovered | src/components/GeneratorInterface.tsx:326-335 | the document's scenes are dispatched in order, each at its own position |
| ScriptIngest.FallbackRecovers | src/components/GeneratorInterface.tsx:323-337 | when the whole-document parse runs and answers, it dispatches the document's scenes (`scenes \|\| []`) aligned with their positions |
| ScriptIngest.FallbackRunsOnlyWhenEmpty | src/components/GeneratorInterface.tsx:323-336 | the whole-document parse changes nothing once a scene was emitted, with at most ten characters, or when the text does not parse |
| ScriptIngest.RunFallback | src/components/GeneratorInterface.tsx:323-337 | the end-of-stream step computes the whole-document fallback and keeps the state coherent |
| ScriptIngest.RecoverScenes | src/components/GeneratorInterface.tsx:327-335 | the recovery loop pushes and dispatches exactly the recovered scenes |
| ScriptIngest.NewlineFreeStreamYieldsNoScenes | src/components/GeneratorInterface.tsx:264-341 | a stream without a newline accumulates nothing, leaves all of itself in the line buffer and ends without scenes |
| ScriptIngest.FinishFlushed | src/components/GeneratorInterface.tsx:264-341 | the end of the stream with the open line flushed leaves no open line, keeps the state coherent and never lowers the count |
| ScriptIngest.FlushConsumesEveryLine | src/components/GeneratorInterface.tsx:268-285 | with the flush every line of the stream contributes, whatever the chunking; a newline-free document contributes its trimmed text |
| ScriptIngest.FlushedCompactDocumentProduces | src/components/GeneratorInterface.tsx:264-341 | with the flush, a compact document whose scenes all match and parse produces all of them |
| ScriptIngest.ScriptStream.constructor | src/components/GeneratorInterface.tsx:258-262 | the stream starts empty, with no scenes |
| ScriptIngest.ScriptStream.ConsumeLines | src/components/GeneratorInterface.tsx:268-285 | the line loop of one chunk gives the line step's state and keeps the buffer and the accumulated text tied to the text received |
| ScriptIngest.ScriptStream.EmitMatches | src/components/GeneratorInterface.tsx:290-319 | the match loop gives the match step's state |
| ScriptIngest.ScriptStream.Feed | src/components/GeneratorInterface.tsx:265-319 | one chunk is the line step followed by the match step |
| ScriptIngest.ScriptStream.Finish | src/components/GeneratorInterface.tsx:322-341 | the end of the stream applies the whole-document fallback, then the count check |
| ScriptIngest.Run | src/components/GeneratorInterface.tsx:256-341 | the read loop over the chunks ends in the state and the outcome of the whole run |
| TtsRoute.WordsSplitAtRuns | src/app/api/tts/route.ts:61 | `split(/\s+/)` gives fields with no white space, only the first or the last of them empty, which interleaved with non-empty white-space runs give back the text |
| TtsRoute.WordsKeepVisibleText | src/app/api/tts/route.ts:61 | the words hold exactly the visible characters of the text, in order |
| TtsRoute.SplitText | src/app/api/tts/route.ts:60-75 | the packing loop returns the chunks of `splitText` |
| TtsRoute.NoEmptyChunk | src/app/api/tts/route.ts:69-73 | no chunk is empty |
| TtsRoute.ChunkWithinLimit | src/app/api/tts/route.ts:66-71 | every chunk fits `maxLength` unless it is a single word longer than that |
| TtsRoute.ChunksPreserveWords | src/app/api/tts/route.ts:61-73 | the chunks joined with spaces equal the non-empty words joined with spaces: no word is dropped, split or reordered |
| TtsRoute.ChunksAreGreedy | src/app/api/tts/route.ts:66-70 | a chunk is closed only when the next chunk's first word would not fit after it |
| TtsRoute.BlankTextHasNoChunk | src/app/api/tts/route.ts:61-73 | a text of white space only gives no chunk |
| TtsRoute.FlattenLength | src/app/api/tts/route.ts:39-40 | the combined length is the sum of the buffer lengths |
| TtsRoute.ChunkAtOffset | src/app/api/tts/route.ts:41-45 | buffer `k` sits at the sum of the lengths before it |
| TtsRoute.CopyAt | src/app/api/tts/route.ts:43 | `set` writes the buffer at the offset and keeps every byte before and after it |
| TtsRoute.TotalOf | src/app/api/tts/route.ts:39 | the reduce gives the length of the combined buffers |
| TtsRoute.CombineBuffers | src/app/api/tts/route.ts:39-45 | the combining loop gives the buffers one after another |
| TtsRoute.FetchChunks | src/app/api/tts/route.ts:18-36 | one request per chunk, in order, stopping at the first reply that is not audio; with no failure, every chunk was sent and every body kept |
| TtsRoute.Post | src/app/api/tts/route.ts:6-57 | an unreadable body is a 500 and missing text a 400, both before any request; the answer is audio exactly when every chunk's reply is audio, and it is their concatenation; otherwise a 500 after the failing chunk |
| VideoRender.CeilBounds | src/lib/videoRenderer.ts:102 | `Math.ceil(x)` is the least integer not below `x` |
| VideoRender.TotalClosedForm | src/lib/videoRenderer.ts:115-124 | the running total at pass `i` is the sum of the first `i` durations less `(i-1)·0.5`, and the `i`-th fade's offset is that sum less `i·0.5` |
| VideoRender.OffsetsIncrease | src/lib/videoRenderer.ts:118-124 | fade offsets strictly increase when every duration exceeds 0.5 s |
| VideoRender.TotalPastEndIsNaN | src/lib/videoRenderer.ts:116-123 | once a pass reads past the recorded durations, the total and the offsets are `NaN` |
| VideoRender.ChainLinks | src/lib/videoRenderer.ts:115-124 | pass `i` fades the previous output into scene `i`'s label and outputs `[v_xf<i>]` |
| VideoRender.FailureSticks | src/lib/videoRenderer.ts:63-68 | after an asset failure the scene loop adds nothing |
| VideoRender.AddSceneCounts | src/lib/videoRenderer.ts:57-106 | a kept scene pushes two `-i` inputs, two filters and one duration; a skipped or failing scene pushes nothing; only an asset failure fails |
| VideoRender.TwoInputsPerScene | src/lib/videoRenderer.ts:52-107 | the inputs hold two `-i` entries per recorded duration, the filters two per duration, and without failure there is one duration per scene with an asset |
| VideoRender.InputIndexMatchesIffNoSkip | src/lib/videoRenderer.ts:57-106 | scene `i`'s filters read inputs `2i` and `2i+1`, which are its own streams exactly when no earlier scene was skipped |
| VideoRender.KindsAgreeIffOneSet | src/lib/videoRenderer.ts:54-104 | the file kind follows `videoUrl` and the filter kind `imageUrl`; they agree exactly when one of the two is set |
| VideoRender.StillCoversScene | src/lib/videoRenderer.ts:95-102 | a still is zoomed for `ceil(25·d)` frames; the frame is 720x1280 for `'9:16'`, else 1280x720 |
| VideoRender.FirstAssetFailureAborts | src/lib/videoRenderer.ts:63-88 | the render fails exactly when some scene's asset cannot be fetched, and the error names the first such scene, 1-based; audio failures never fail it |
| VideoRender.MusicBothOrNeither | src/lib/videoRenderer.ts:127-137 | the music input and its mix are added together or not at all; its input index is the count of earlier `-i` entries; without music the voice track alone is used |
| VideoRender.GraphHasNoMix | src/lib/videoRenderer.ts:100-124 | before the music step the graph holds no music or voice-only filter |
| VideoRender.SceneFiltersKind | src/lib/videoRenderer.ts:100-106 | the scene loop pushes only visual and resample filters |
| VideoRender.MappedVideoIsLastFade | src/lib/videoRenderer.ts:109-142 | the mapped video is `[va]` for at most one scene, and otherwise the last fade's output `[v_xf<n-1>]`; the voice concat is in the graph |
| VideoRender.ScanScenes | src/lib/videoRenderer.ts:52-107 | the scene loop builds the lists of the specified scan, or stops at the first asset failure |
| VideoRender.FadeChain | src/lib/videoRenderer.ts:115-124 | the cross-fade loop gives the fade chain, the last label and the running total |
| VideoRender.BuildPlan | src/lib/videoRenderer.ts:44-150 | the render body gives the plan (or the asset error) and the files written |
| VideoRender.PurgeLeavesOnlyDots | src/lib/videoRenderer.ts:25-34 | a clean-up leaves only `.`, `..` and entries whose deletion failed, all from before; a second clean-up changes nothing |
| VideoRender.Workspace.Purge | src/lib/videoRenderer.ts:25-34 | the clean-up loop leaves the specified survivors, or everything when the listing fails |
| VideoRender.Workspace.WriteFiles | src/lib/videoRenderer.ts:65 | each write adds a new name to the listing or overwrites an existing one |
| VideoRender.Workspace.Render | src/lib/videoRenderer.ts:21-167 | the render gives the plan or the error, and its workspace is cleaned before and, on both exits, after, each clean-up with its own listing and deletion outcomes |
| Playback.SpeakSilencesPrevious | src/components/GeneratorInterface.tsx:358-368 | `handleSpeak` pauses every earlier narration and starts one new one, which plays the prefetched URL or the proxy, follows sorted cues and resets the word index |
| Playback.PauseCurrentSilences | src/components/GeneratorInterface.tsx:359-363 | after the pause no narration plays, and their cues are unchanged |
| Playback.CuesOfSorted | src/components/GeneratorInterface.tsx:371-372 | the cues a narration follows are sorted |
| Playback.PlayPastEndStops | src/components/GeneratorInterface.tsx:409-413 | past the last scene `playScene` clears `isPlaying`, pauses the music and changes nothing else |
| Playback.DuckThenRestore | src/components/GeneratorInterface.tsx:414-420 | inside the array the music is ducked to 0.1 while the scene is spoken, and the end of that scene's own narration restores 0.3 and clears the highlighted word (a later frame of that narration can restore it, see `EndedFrameRestoresLastWord`) |
| Playback.StopIdempotent | src/components/GeneratorInterface.tsx:432-442 | stopping twice is stopping once; afterwards nothing plays and the music is paused |
| Playback.PlaySceneKeepsValid | src/components/GeneratorInterface.tsx:408-421 | `playScene` keeps at most one narration playing, with sorted cues |
| Playback.StartKeepsValid | src/components/GeneratorInterface.tsx:423-430 | `startFullPlayback` keeps at most one narration playing |
| Playback.TimerKeepsValid | src/components/GeneratorInterface.tsx:419 | a pending timer's `playScene` keeps at most one narration playing |
| Playback.SilencedAtKeepsValid | src/components/GeneratorInterface.tsx:389-400 | stopping any narration keeps at most the current one playing |
| Playback.CallbackEffect | src/components/GeneratorInterface.tsx:417-420 | the scene callback touches only the music volume and the timers: it restores the volume and, when it advances, schedules the next scene |
| Playback.EndKeepsValid | src/components/GeneratorInterface.tsx:389-405 | `onended`, `onerror` and a rejected `play()` of any narration keep at most the current one playing, and the corrected handler of the current one leaves none playing |
| Playback.FrameKeepsValid | src/components/GeneratorInterface.tsx:373-383 | a frame and a re-render keep at most one narration playing and leave the narrations as they were; a frame of a narration that is no longer current changes nothing |
| Playback.FrameFollowsCues | src/components/GeneratorInterface.tsx:373-383 | a frame of the current narration, playing or ended, keeps the word index before the first onset, and after it selects the cue whose bucket holds the time |
| Playback.EndedFrameRestoresLastWord | src/components/GeneratorInterface.tsx:373-393 | as written, after the end of a narration has cleared the highlighted word, a frame of that narration at or past its last onset highlights the last word again while nothing is spoken |
| Playback.StoppedStartNeverAdvances | src/components/GeneratorInterface.tsx:417-429 | a start from a render in which `isPlaying` was false plays scene 0 and then schedules nothing, while `isPlaying` stays true |
| Playback.ReplacedNarrationReplaysScene | src/components/GeneratorInterface.tsx:358-420 | as written, the replaced narration's `onerror` (from `src = ""`) restores the music to 0.3 and clears `isSpeaking` while the next scene is spoken, and schedules that scene again, which restarts it |
| Playback.RetryReplacedNarrationRestoresMusic | src/components/GeneratorInterface.tsx:358-470 | as written, retrying the active scene's narration starts a new narration with no callback, and the replaced narration's `onerror` restores the music to 0.3 and clears `isSpeaking` while the retry plays, scheduling the next scene only when its callback captured `isPlaying` true; the corrected handler ignores it |
| Playback.TimerSpeaksNext | src/components/GeneratorInterface.tsx:408-421 | a pending timer for the next scene speaks it as a new current narration and keeps every earlier narration with its callback |
| Playback.FailedLoadSchedulesTwice | src/components/GeneratorInterface.tsx:393-405 | as written, a narration that fails to load runs its callback from `onerror` and from the rejected `play()`, so the next scene is scheduled twice |
| Playback.AbortAfterStopPlaysNext | src/components/GeneratorInterface.tsx:402-442 | as written, the `pause()` of a stop rejects a pending `play()`, whose callback schedules the next scene, and the timer speaks it with `isPlaying` false |
| Playback.SettleOnce | src/components/GeneratorInterface.tsx:389-405 | the corrected handler ignores every narration but the current one, and once it has run no event has an effect |
| Playback.StopSilencesCallbacks | src/components/GeneratorInterface.tsx:432-442 | with the corrected handler, no event has an effect after a stop |
| Playback.SettledDuckThenRestore | src/components/GeneratorInterface.tsx:389-420 | with the corrected handler, a scene is ducked while spoken whatever earlier narrations do, and its own end, failure or rejection restores 0.3 and schedules the next scene once, exactly when playback is on |
| Playback.SettleCurrent | src/components/GeneratorInterface.tsx:389-420 | the corrected handler of a scene's narration leaves every other narration's event without effect, stops the narration, restores 0.3, schedules the next scene exactly when playback is on, and then ignores every later event |
| Playback.LiveEndSchedules | src/components/GeneratorInterface.tsx:389-429 | with the corrected handler (current `isPlaying`, current narration only, once), the end of scene 0 schedules scene 1 |
| Playback.LiveFlagAdvances | src/components/GeneratorInterface.tsx:389-429 | with the corrected handler, the scheduled timer plays scene 1 |
| Playback.Player.constructor | src/components/GeneratorInterface.tsx:49-75 | the player starts stopped, with no narration, no music and the word index -1 |
| Playback.Player.HandleSpeak | src/components/GeneratorInterface.tsx:358-406 | the method's new state is `Speak` of the old one, and at most the current narration plays |
| Playback.Player.PlayScene | src/components/GeneratorInterface.tsx:408-421 | the method's new state is `PlaySceneStep` of the old one, and at most the current narration plays |
| Playback.Player.RetrySceneAudio | src/components/GeneratorInterface.tsx:467-470 | the method's new state is `RetryStep` of the old one: nothing without a production or a scene in the active slot, else the active scene spoken again with no callback, and at most the current narration plays |
| Playback.Player.StartFullPlayback | src/components/GeneratorInterface.tsx:423-430 | the method's new state is `Start` of the old one, and at most the current narration plays |
| Playback.Player.StopPlayback | src/components/GeneratorInterface.tsx:432-442 | the method's new state is `Stop` of the old one, and at most the current narration plays |
| Playback.Player.RunOnEnd | src/components/GeneratorInterface.tsx:417-420 | the callback's new state is `RunCallback` of the old one |
| Playback.Player.NarrationEnded | src/components/GeneratorInterface.tsx:389-400 | `onended` or `onerror` of any narration, the replaced one included, gives `EndedAt` of the old state, which stays valid |
| Playback.Player.PlayRejected | src/components/GeneratorInterface.tsx:402-405 | a rejected `play()` of any narration (a failed load, or an abort by `pause()`) gives `RejectedAt` of the old state, which stays valid |
| Playback.Player.TimerElapsed | src/components/GeneratorInterface.tsx:419 | the first pending timer runs its `playScene` |
| Playback.Player.UpdateWords | src/components/GeneratorInterface.tsx:373-383 | one frame of narration `k` gives `Frame` of the old state: it acts exactly when `k` is still the current narration |
| Playback.Player.Rerender | src/components/GeneratorInterface.tsx:49-75 | a re-render changes only the `isPlaying` that new closures capture, and the state stays valid |

## Left out

- Network services (Groq, Gemini, Hugging Face, Pexels, Google speech synthesis), `JSON.parse`, the scene regular expression and the FFmpeg engine are oracle parameters. The regex's backtracking is not modelled; the matcher is any function from the accumulated text to its matches.
- Asynchrony is a sequence of events. Fire-and-forget `processScene`, `Promise.allSettled`, `setTimeout`, `setInterval`, `requestAnimationFrame` and audio timing each become one step that the caller orders.
- The image route, `SceneCard.tsx`, `ProgressLog.tsx` and `layout.tsx` are not part of this model. Neither is the JSX, the injected CSS, the `handleDownload` text export or the developer scripts: they hold no stateable logic.
- `localStorage` caching is left out: it is browser storage, and the code removes the entry before every run.
- `addLog`, `console` output, the FFmpeg log and progress events, `exec` and `readFile` are left out. So are the loaded-engine singleton and the service-worker registration.
- The lock screen's hard-coded master and admin passwords and the code lookup are left out. The lookup's answer is a parameter (`None` for an error or no row), and the clock is a parameter in milliseconds.
- Filter and file-name strings are kept as datatypes and parameters, not as their text. The colour grade, scaling expressions and encoder options are constants of the engine call and are not modelled.
- String lengths are counted in characters (Unicode scalar values), while JavaScript's `.length` counts UTF-16 code units. They differ for characters outside the Basic Multilingual Plane, which count once here and twice in the source. This affects the 180-unit chunk limit of the narration route (`TtsRoute.SplitText`), the `textlen` field of the public synthesis URL (`AssetResolver`) and the `accumulatedContent.length > 10` test of the whole-document fallback (`ScriptIngest.Fallback`).
- JavaScript numbers are `real` (durations and offsets) or `int` (ticks, counters). Floating-point rounding is not modelled, and the one place an `undefined` enters arithmetic is the explicit `NaN` of `VideoRender.Num`.
- `encodeURIComponent` is kept as the parameter of a `Url` constructor. The `URIError` a lone surrogate would raise is not modelled.
- `production.selectedMusic` is never set by the client, so the render's music is one fetch outcome (`musicOk`). The client never calls `renderVideo`; it is modelled as the library function it is.
- Captions.SortByOffsetSorts: states sorted and a permutation, not that cues with equal offsets keep their relative order. The model's insertion is stable, as `Array.prototype.sort` is.
- Playback.DuckThenRestore: states the restore for the end of the scene's own narration only. The handlers of replaced narrations and a second callback of the same narration are the fourth finding, and `Playback.SettledDuckThenRestore` covers every event with the corrected handler.
- Playback.Player.StartFullPlayback: does not model `audioBlocked`. The promise of the music's `play()` only sets that display flag, so the music is marked unpaused even when that `play()` rejects, as in the source.
- Playback.Player.StopPlayback: faithfully leaves pending timers in place, because the source does not cancel its `setTimeout`. A timer that fires after a stop plays the next scene.
- PexelsRoute.Get: the error body's `message` text is abstracted into an error kind.
- TtsRoute.Post: the error body's `message` text is abstracted into an error kind. The unused `voice` parameter and the caching headers are not modelled.
- GenerateRoute.Post: the prompt is kept as its topic and language, not its text. The unused `aspectRatio` and the logging are left out.
- ScriptIngest.ScriptStream: `TextDecoder` streaming decode is not modelled; chunks arrive as decoded text. Scene-list publication and job dispatch are recorded as `scenes` and `dispatched`, and their effect on the production is modelled by `ProductionStore` and `AssetResolver`.

## Findings

| source | as written | input that shows it | evidently intended | confidence | as-written member | corrected member |
|---|---|---|---|---|---|---|
| src/components/GeneratorInterface.tsx:264-341 | the open line left in `lineBuffer` when the stream ends is never consumed | the compact JSON document the script route answers with (src/app/api/generate/route.ts:52), e.g. `{"scenes":[{"script":"a","imagePrompt":"b"}]}`; it has no newline, so nothing is accumulated, the whole-document parse is skipped (length 0) and the run throws | the last line is consumed at the end of the stream, so a compact document's scenes are matched or recovered | high; not executed | ScriptIngest.NewlineFreeStreamYieldsNoScenes | ScriptIngest.FinishFlushed |
| src/components/GeneratorInterface.tsx:292-318 | a match that does not parse or has no `script` leaves `sceneCount` behind, yet the next match is dispatched with its match position | matches `[bad, good]`: `good` is pushed at position 0 but its job patches slot 1; the next chunk starts at cursor 1 and emits `good` a second time | a cursor of examined matches kept apart from the count, so each match is examined once and dispatched at its scene position | high; not executed | ScriptIngest.SkippedMatchIsReemitted | ScriptIngest.EmitFixed |
| src/components/GeneratorInterface.tsx:417-429 | the advance test reads the `isPlaying` captured by the render that created the handler | start full playback of two scenes from a stopped player: scene 0 plays, its end schedules nothing, and `isPlaying` stays true | each scene's end schedules the next while playback is on | high; not executed | Playback.StoppedStartNeverAdvances | Playback.LiveFlagAdvances |
| src/components/GeneratorInterface.tsx:358-442 | every event of a narration runs its scene callback, whichever narration it is and however often it fires | retry the narration during scene `i` (`retrySceneAudio`): the `src = ""` on the replaced narration fires its `onerror`, so the music returns to 0.3 and `isSpeaking` is cleared while the retried narration speaks; with a handler that captured `isPlaying` true (which needs the third finding corrected, or a start from the keyboard with focus left on the start button under the cinema overlay), playing scene `i` to its end makes the timer speak scene `i + 1` and the replaced narration's `onerror` schedules scene `i + 1` again; a failed load fires `onerror` and the rejection, scheduling twice; a stop during a pending `play()` aborts it and the next scene still plays | only the current narration's first end, failure or rejection runs the callback, and none after a stop | high; not executed | Playback.RetryReplacedNarrationRestoresMusic | Playback.SettledDuckThenRestore |

The first finding means that, with the route as written, every production ends in the no-scenes error. `ScriptIngest.FlushedCompactDocumentProduces` proves that the flushed end of stream produces every scene of such a document. For the second, `ScriptIngest.EmitFixedResumes` proves that the corrected emission examines every match once across passes. For the third and fourth, the corrected handler `Playback.Settle` reads the current `isPlaying`, ignores every narration but the current one and runs once; `Playback.LiveEndSchedules` proves that it schedules scene 1, `Playback.ReplacedNarrationReplaysScene` shows the rescheduling of the fourth with a handler that captured `isPlaying` true, and `Playback.FailedLoadSchedulesTwice` and `Playback.AbortAfterStopPlaysNext` show its other two paths as written. The classes `ScriptIngest.ScriptStream` and `Playback.Player` model the code as written.
