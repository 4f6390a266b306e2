# short — a verified model of the short-video generator

`short` turns a text file and a topic into a short narrated video:

1. It synthesises the text to speech.
2. It downloads random stock clips about the topic from Pexels until their total length covers the narration.
3. It concatenates the clips.
4. It optionally applies a vintage and/or grayscale effect.
5. It muxes the narration in, trimmed to the narration plus two seconds.
6. It transcribes the narration to SRT subtitles and burns them into `video.mp4`.
7. Whatever happens, it removes the scratch folder.

The Dafny project models that core in six modules:

| file | module | what it holds |
|---|---|---|
| `common.dfy` | `Common` | `Option`/`Result`, the exception kinds the core raises, external commands as argument lists, the reaction of a wrapper to a process's exit status, decimal rendering of naturals, occurrence counting |
| `log.dfy` | `Log` | The colour palette, the level table and `ColoredFormatter.format` with the `"%(levelname)-8s%(message)s"` pattern |
| `effects.dfy` | `Effects` | `vintage` (three chained ffmpeg stages, each run only after the previous one exited 0) and `grayscale` |
| `utils.dfy` | `Utils` | `create_folder` and `clean_up` on a `Disk` object holding the set of existing paths; speaker choice of `text_to_speech`; `get_duration`'s error mapping; the argument lists and exit-status reactions of `merge_videos`, `audio_into_video`, `generate_srt` and `embed_srt_into_video` |
| `pexels.dfy` | `Pexels` | `download_pexels_video`, `fetch_video_ids` (a loop method proved against a recursive specification) and the accumulation loop of `download_videos` (a loop method proved against a recursive specification, with its invariant) |
| `short.dfy` | `Short` | `main`, which runs the stage calls in order inside `try`, with clean-up in `except` and again in `finally`; the effect dispatch; the data flow between stages; parsing of the `-fx` argument |

The outside world is modelled as parameters, never as behaviour:

- **HTTP replies:** a `VideoResponse`, a `SearchReply` per attempt, and a `transferOk` flag for writing a download to disk.
- **Process exit statuses:** a function `Command -> int`.
- **Probe outcomes:** `ProbeOutcome` — the prober did not start, or it exited with a status and maybe a parsed duration.
- **Random draws:** naturals. `random.randint(lo, hi)` is `lo + d % (hi - lo + 1)` and `random.choice(xs)` is `xs[d % |xs|]`.
- **Whether a stage raises:** `main` is modelled over the predicate `raises: Call -> bool`.
- **Python's float-to-text conversion:** a function `real -> string`.

## Model

| member | source | states |
|---|---|---|
| Common.Quiet | utils.py:134-137 | Exit status 0 is success; any other status is ignored: nothing is raised and nothing is logged. |
| Common.NatToString | pexels.py:40 | The decimal text of an id is non-empty, made only of digits, and has no leading zero. |
| Common.ParseNatToString | pexels.py:40 | The decimal text of a natural reads back as that natural. |
| Common.NatToStringInjective | pexels.py:40 | Distinct ids get distinct decimal texts. |
| Common.PrefixCancel | short.py:30-47 | Two scratch paths with the same folder are equal only when their file names are. |
| Log.PadRight | log.py:38 | `%-8s`: the field is left-justified, padded with spaces to the width, and longer names are never cut. |
| Log.UnwrapFormat | log.py:29-31 | The formatted line minus its level colour and the trailing reset is exactly the base-formatted line. |
| Log.FormatWraps | log.py:29-31 | A formatted line is the level colour, then the base line, then the reset sequence. |
| Log.UnknownLevelUncoloured | log.py:31 | A level missing from the table gets the empty colour, but the reset is still appended. |
| Log.LevelTable | log.py:4-27 | DEBUG is blue, INFO white on cyan, WARNING yellow, ERROR and CRITICAL both red, reset is `ESC[0m`; these four colours and the reset are pairwise distinct. |
| Log.BaseFormatLayout | log.py:38 | The base line is the level name left-justified in at least 8 columns, directly followed by the message. |
| Log.ColourOf | log.py:21-31 | The level's colour from the formatter's table, or the empty string for a level the table lacks. |
| Log.BaseFormat | log.py:38 | The line the base formatter produces for the pattern `%(levelname)-8s%(message)s`. |
| Log.Format | log.py:29-31 | `ColoredFormatter.format`: the level colour, then the base line, then the reset sequence. |
| Effects.VintageStages | effects.py:7-21 | The three stages are chained: stage 1 reads the input at the given fps; stage 2 reads what stage 1 writes; stage 3 overlays the old-film template on what stage 2 writes and writes the output. |
| Effects.Vintage | effects.py:5-24 | At least one stage runs. The stages that run are a prefix of the chain, and each stage after the first runs only after its predecessor exited 0. A shorter run ends with a non-zero stage. Success means all three ran and the last exited 0. No error is raised or logged. |
| Effects.GrayscaleCommand | effects.py:28-31 | One ffmpeg process from input to output with saturation set to 0. |
| Effects.Grayscale | effects.py:26-37 | Exactly that process runs. Success is exactly exit 0; otherwise the failure is ignored. |
| Utils.Remaining | utils.py:30 | `rm -rf tmp __pycache__` keeps exactly the paths that are neither those folders nor below them. |
| Utils.Disk.CreateFolder | utils.py:10-21 | A folder is created exactly when nothing exists at the path; afterwards the path exists and nothing else changed. |
| Utils.Disk.CleanUp | utils.py:23-32 | Runs the fixed `rm -rf` command; the disk afterwards holds `Remaining` of what it held. |
| Utils.CleanUpIdempotent | utils.py:30-32 | Cleaning up a second time removes nothing more. |
| Utils.TextToSpeech | utils.py:47-75 | An empty speaker draws one from the 109-name list. Synthesis happens exactly when the speaker is empty or on the list, with the fixed VCTK model, the given text and output, and the given speaker when non-empty. An unknown speaker silently synthesises nothing. |
| Utils.DefaultSpeakerSynthesises | utils.py:34 | The default speaker `p330` is on the list, so the default call synthesises with it. |
| Utils.GetDuration | utils.py:94-111 | The result is a duration exactly when the prober exited 0 with a parseable value. A non-zero exit re-raises `CalledProcessError` with that status. Every other failure becomes `ValueError("Error - Unable to get duration")`. |
| Utils.ProbeCommand | utils.py:95-105 | The `ffprobe` argument list that prints only the container duration, quietly, as bare CSV. |
| Utils.InputArgsLayout | utils.py:126-128 | The input arguments are `-i path` pairs, one per path, in the given order. |
| Utils.InputArgs | utils.py:126-128 | The arguments the `for` loop adds: `-i path` for every path, in order. |
| Utils.StreamLabels | utils.py:130 | The joined labels `[0:v][1:v]…[n-1:v]`. |
| Utils.ConcatFilter | utils.py:130-131 | The labels followed by `concat=n=<n>:v=1:a=0[outv]`. |
| Utils.MergeArgs | utils.py:126-133 | The whole `merge_videos` command: `ffmpeg`, the input pairs, the concat filter, `-map [outv] -r 30` and the output. |
| Utils.NumberHasNoBracket | utils.py:130 | An input index's decimal text holds no `[`. |
| Utils.StreamLabelsCount | utils.py:130 | The stream-label prefix holds exactly one `[` per input. |
| Utils.StreamLabelsOrder | utils.py:130 | Label `[i:v]` follows labels 0..i-1 in order. |
| Utils.ConcatFilterCount | utils.py:130-131 | The concat filter holds one label per input plus `[outv]`. |
| Utils.ConcatFilterEnds | utils.py:130-131 | The filter starts with `[0:v]` when there is an input and ends with `[outv]`. |
| Utils.MergeVideos | utils.py:113-140 | The loop builds `ffmpeg`, then `-i path` for every path in order, then `-filter_complex <concat filter> -map [outv] -r 30 <output>` (2n+8 arguments). A non-zero exit is ignored. |
| Utils.MuxFilterWindow | utils.py:162 | The same window text bounds both the video trim of input 0 and the audio trim of input 1. |
| Utils.MuxFilter | utils.py:162 | The filter that trims video input 0 and audio input 1 to the same window and resets both clocks. |
| Utils.MuxCommand | utils.py:158-168 | The `audio_into_video` command: both inputs, that filter, both maps, `+faststart`, `-r 30` and the output. |
| Utils.TrimWindow | utils.py:155-156 | The trim window is the narration's duration plus two seconds. |
| Utils.AudioIntoVideo | utils.py:142-181 | The audio is probed first. A probe error propagates and nothing else runs. Otherwise the mux runs with the window shown as text; a non-zero exit is only logged. |
| Utils.GenerateSrt | utils.py:194-209 | The resampler writes mono 16-bit little-endian PCM to stdout. Its `-ar` argument reads back as the recogniser's sample rate, 16000. The recogniser is en-us with word timing on, and the output file is the one given. |
| Utils.EmbedSrtIntoVideo | utils.py:214-245 | One ffmpeg process burns the subtitles in. Success is exactly exit 0; otherwise `ValueError` is raised. |
| Pexels.QualityWidth | pexels.py:83-88 | `hd` is 1920, `sd` is 1280, and every other quality is unsupported (both directions). |
| Pexels.SelectFile | pexels.py:100-103 | No file is selected exactly when no encoding has the width; otherwise a file of that width from the list is selected. |
| Pexels.VideoUrl | pexels.py:90 | The metadata URL of a video: the videos endpoint followed by the decimal id. |
| Pexels.DownloadPexelsVideo | pexels.py:69-112 | An unsupported quality raises `ValueError` before any request. A non-200 reply raises `ValueError` after only the metadata request. A 200 reply with no encoding of the width raises `ValueError` after only the metadata request. A failed transfer of the selected link raises the request exception. Success happens exactly when quality, status, an encoding of that width and the transfer all succeed; it returns the output path after requesting the metadata URL and then the selected link. |
| Pexels.RandInt | pexels.py:138 | The drawn page lies in `1..totalPages`. |
| Pexels.SearchOutcome | pexels.py:130-157 | The result of `fetch_video_ids`: `ValueError` for `per_page > 80`, else the ids of the first attempt that got some, a request exception if that attempt failed, or `None` when no attempt stopped the search. |
| Pexels.FirstStop | pexels.py:137-150 | This is the first attempt that got ids or failed: every attempt before it did neither. |
| Pexels.SearchYieldsFirstHit | pexels.py:131-150 | The search yields `ids` exactly when there was no `per_page > 80` rejection and some attempt got a 200 reply with these non-empty ids, with no earlier attempt getting ids or failing (both directions). |
| Pexels.SearchYieldsNone | pexels.py:131-150 | The search yields `None` exactly when `per_page` is at most 80 and every attempt got a reply that did not stop the search: no request failure, and not a 200 with ids. A non-200 reply that lists ids counts as such a reply (both directions). |
| Pexels.FetchVideoIds | pexels.py:114-157 | The loop's result is the search outcome. A `per_page > 80` rejection issues no query. Otherwise there are as many queries as attempts made, at most `totalPages`, each for the topic with a drawn page. |
| Pexels.ClipPathInjective | pexels.py:40 | Distinct ids are stored at distinct clip paths in one folder. |
| Pexels.ClipName | pexels.py:40 | The clip file name `<id>.mp4`. |
| Pexels.ClipPath | pexels.py:40 | The output folder with the clip name appended, with no separator. |
| Pexels.Choose | pexels.py:37 | A drawn id is in the pool. |
| Pexels.Ids | pexels.py:43 | The recorded ids are the ids of the clips, in download order. |
| Pexels.Total | pexels.py:42 | The accumulated duration is never negative. |
| Pexels.Recorded | pexels.py:43 | The ids the loop appends to `downloaded_ids`: those of the attempts that recorded a clip, in order. |
| Pexels.TryClip | pexels.py:39-46 | One download and probe of a drawn id. A clip results only when the download returns and the probe gives a duration; any exception yields nothing. |
| Pexels.Step | pexels.py:37-46 | One loop turn: a recorded id changes nothing. Otherwise the attempt is logged, and a successful one appends its clip and adds its duration. |
| Pexels.Run | pexels.py:35-49 | The loop on a supply of draws: stop once the total reaches the target. Drawing from `None` raises `TypeError`, from an empty list `IndexError`. Otherwise take one turn. |
| Pexels.RecordedHolds | pexels.py:43 | An attempt that recorded a clip puts its id in the record. |
| Pexels.NoFetchAfterRecord | pexels.py:38-43 | Once an attempt has recorded an id, no later attempt downloads that id again. |
| Pexels.StepSkipsRecorded | pexels.py:38 | A drawn id that is already recorded causes no download attempt and changes nothing. |
| Pexels.StepFetchesUnrecorded | pexels.py:38-43 | A drawn id not yet recorded causes exactly one download attempt, for that id, logged with whether it recorded a clip. |
| Pexels.FailedIdRetried | pexels.py:39-46 | A failed fetch is swallowed: only the attempt is logged and the id stays unrecorded, so a later draw of it can still succeed and be appended. |
| Pexels.StepKeepsConsistent | pexels.py:35-46 | One loop turn keeps the invariant: no id twice, the total equals the sum of the clips, every clip is a pool id at its clip path, the recorded ids are those of the successful attempts, and every attempt is for an id not yet recorded. It never shrinks the record or the attempt log. |
| Pexels.StepKeepsFetchLog | pexels.py:38-43 | One loop turn keeps the recorded ids equal to those of the successful attempts, keeps every attempt for an id not yet recorded, and only appends to the attempt log. |
| Pexels.RunSound | pexels.py:35-49 | The loop stops with the target met only when the total reaches the narration's duration, with the invariant kept. Drawing from `None` raises `TypeError` and drawing from an empty list raises `IndexError`. |
| Pexels.AttemptFetch | pexels.py:39-46 | The loop body for an unrecorded id is one turn of the specification: download to the clip path, probe, and record the clip and append to `downloaded_ids` only when both succeed. The attempt is logged either way. |
| Pexels.Accumulate | pexels.py:32-49 | The `while` loop equals the recursive specification. Reaching the target means the total covers it, with no duplicate ids. When the loop ends drawing, every attempt was for an id not recorded before it. A non-positive target downloads nothing. A positive target with no pool raises `TypeError`, and an empty pool raises `IndexError`. |
| Pexels.DownloadVideos | pexels.py:15-49 | A search error propagates, then a narration-probe error. Otherwise the loop runs with the ids and the narration's duration as target, and a finished run covers the narration without duplicates. |
| Short.EffectDispatch | short.py:36-45 | Both names run vintage from merged, then grayscale from vintage's output, whatever their order. One name runs only that effect from merged to the effects output. No known name runs nothing. |
| Short.EffectCalls | short.py:36-45 | The effect calls the names in `fx` select. |
| Short.MuxInput | short.py:46-49 | The video the mux reads: the effects output for any non-empty `fx`, else the merged video. |
| Short.Prologue | short.py:29-34 | The folder, speech, one-page download and merge calls. |
| Short.Epilogue | short.py:47-52 | The mux, subtitle and burn-in calls. |
| Short.Plan | short.py:29-52 | Every call the `try` body makes when nothing raises, in order. |
| Short.PlanIgnoresOrder | short.py:36-49 | Only which names `fx` holds matters, not their order or repetition. |
| Short.PlanOrder | short.py:29-52 | The stages run in a fixed order, with at most two effect calls in the middle and no clean-up among them. The download covers one page and the last stage writes `video.mp4`. |
| Short.JoinPath | short.py:33 | `os.path.join` inserts a `/` between the folder and a relative name unless the folder is empty or already ends in one. |
| Short.PlanDataFlow | short.py:29-52 | With the scratch folder at `tmp/`, the clip folder ending in `/`, and `fx` empty or naming a known effect, every file a stage reads, other than the old-film template shipped with the repository, is the output an earlier stage is meant to write. This covers the narration the downloader probes at `tmp/t2s.wav`, and each clip of the download the merge reads, which the downloader writes. The last stage is the one meant to write `video.mp4`. |
| Short.VintageReadsTemplate | effects.py:13-21 | When `fx` names vintage, the first effect call reads `templates/oldFilm1080.mp4` besides its input, and the data flow counts that file as a shipped asset. |
| Short.SlashlessFolderMergesUnwritten | short.py:31-34 | With a clip folder not ending in `/`, a clip in the folder would be read at the folder, `/` and its name. No earlier stage writes that path, because the downloader (pexels.py:40) puts its clips beside the folder under the folder's name plus the clip name, so the merge never gets them. |
| Short.UnknownEffectLeavesMuxInputUnwritten | short.py:36-47 | A non-empty `fx` with no known name makes the mux read the effects output, which no earlier stage writes, downloaded clips included. |
| Short.ExecShape | short.py:28-55 | Stages run in order until one raises. With no raise, every stage ran. Otherwise the stages run are a prefix ending in the raising one, and none before it raised. |
| Short.ExecCompletes | short.py:28-55 | No stage raises exactly when the whole `try` body completes. |
| Short.Exec | short.py:28-55 | The calls run in order, stopping after the first one that raises, with that call as the exception propagating. |
| Short.Invoke | short.py:28-55 | A call is skipped once an exception is propagating. |
| Short.RunPrologue | short.py:29-34 | The folder, speech, download and merge calls, in that order. |
| Short.RunEffects | short.py:36-45 | The `if fx:` dispatch adds exactly `EffectCalls`. |
| Short.RunEpilogue | short.py:46-52 | The mux (from the effects output whenever `fx` is non-empty), the subtitles and the burn-in. |
| Short.Stages | short.py:28-52 | The `try` body equals a run of the full plan. |
| Short.Generate | short.py:16-57 | The trace is the run plan plus clean-up. With no raise, all stages ran followed by one clean-up. With a raise, the raising stage is propagated and followed by two clean-ups, from `except` and from `finally`. |
| Short.WithCleanUp | short.py:53-57 | The trace of `main`: the calls run, then one clean-up from `finally`, with one from `except` before it when an exception propagates. |
| Short.TraceShape | short.py:53-57 | With no raise, the trace is every stage then one clean-up. With a raise, the trace ends with the raising stage then two clean-ups. |
| Short.CleanUpOnceOrTwice | short.py:53-57 | The clean-up count is 1 without an exception and 2 with one. |
| Short.FirstNonSpace | short.py:71 | Finds the first non-whitespace position; everything before it is whitespace. |
| Short.EndOfNonSpace | short.py:71 | Finds one past the last non-whitespace position; everything after it is whitespace. |
| Short.Strip | short.py:71 | `str.strip()`: the result neither starts nor ends with whitespace. |
| Short.StripSurroundedBySpace | short.py:71 | Stripping cuts only whitespace: the input is the stripped string with whitespace before and after it. |
| Short.SpaceAround | short.py:71 | Cutting at the two positions leaves whitespace on both sides. |
| Short.IndexOf | short.py:71 | Finds the first occurrence of the separator. |
| Short.IndexOfIs | short.py:71 | The first occurrence is unique. |
| Short.Split | short.py:71 | `str.split(',')`: never empty, no part holds a comma, and joining the parts with `,` gives the string back. |
| Short.ParseFx | short.py:71 | `arg.strip().split(',')`. |
| Short.ParseFxAlwaysTruthy | short.py:71-72 | A parsed `-fx` is never empty, so `main` always muxes from the effects output once `-fx` is given; joining it gives back the stripped argument. |
| Short.ParseFxEmpty | short.py:71 | `-fx ""` parses to `[""]`: truthy, but naming no effect. |
| Short.StripUnpadded | short.py:71 | A string without surrounding whitespace strips to itself. |
| Short.SplitOnce | short.py:71 | A string with one comma splits into the parts before and after it. |
| Short.ParseFxPair | short.py:71 | `a,b` parses to `[a, b]`. |
| Short.ParseFxSpaceAfterComma | short.py:71 | `a, b` parses to `[a, " b"]`, so `vintage, grayscale` does not select grayscale. |
| Short.FxArgumentAsWritten | short.py:64-71 | As written: an omitted `-fx` (None) raises `AttributeError`; a given one is parsed. |
| Short.OmittedFxCrashes | short.py:64-71 | Running without `-fx` never reaches `main`. |
| Short.FxArgument | short.py:64-72 | As intended: an omitted `-fx` means no effects; a given one is parsed as written. |
| Short.OmittedFxMuxesMerged | short.py:36-49 | With the intended argument step, omitting `-fx` runs no effect and muxes the merged video. |
| Short.CommandLine | short.py:60-72 | The intended entry point, with an omitted `-fx` read as no effects, runs `main` on the parsed effects and keeps its clean-up guarantee. |

## Left out

- **I/O:** reading the input text file, real HTTP, JSON decoding and request headers, speech synthesis, speech recognition, writing the SRT body, and the media processing itself. Each is an oracle parameter or an abstract call.
- **Python float-to-text conversion:** `show: real -> string`. The model does not fix what text a duration becomes in the filter.
- **Python floats:** durations are `real`, and probed durations are assumed non-negative (`Seconds`).
- **How process failures reach `main`:** failures to start a process (for example ffmpeg missing) and other exceptions from the adapters are not modelled per adapter. In `main` any stage may raise, through the `raises` predicate.
- **The download loop's input:** it runs on a finite sequence of draws. `OutOfDraws` marks a run that has not finished within them, which the Python loop would continue.
- **Short.Generate: stages that never return.** Each stage either returns or raises. A stage that runs forever, such as a download loop whose draws never reach the target, never reaches either clean-up; the clean-up guarantee holds only for runs that end.
- **Short.Generate: clean-up itself raising.** `CleanUp` never raises in the model, although the `Popen` in `clean_up` can fail to start `rm`.
- Pexels.DownloadPexelsVideo: when the transfer fails, the selected link always counts as requested and the error is the request exception. `download` opens the output file before its GET, so a file that cannot be opened fails with an `OSError` before the link is requested; file writes are outside the model.
- **Pexels.DownloadPexelsVideo: failure of the metadata request.** `VideoResponse` always has a status. A request exception from the metadata GET is not a separate outcome. Inside the download loop it would be swallowed like a non-200 reply.
- **Default frame rates:** `main` calls `vintage` and `embed_srt_into_video` with their default `fps` (`'10'` and `'30'`). `Effects.Vintage` and `Utils.EmbedSrtIntoVideo` take the rate as a parameter, and the calls in `Short` do not carry it.
- **Files left on disk:** the listing order of the Pexels folder, and the files a failed download or probe leaves in it. Those files are merged too. `MergeVideos` takes the listing as given.
- **`os.makedirs` errors:** creating missing parent folders, and the errors it raises, are not modelled. `create_folder` is existence only.
- **Environment variables:** they are modelled as set strings. An unset `PEXELS_FOLDER` or `TMP_FOLDER` (None in Python, so `os.path.exists(None)` in `create_folder` raises `TypeError` and paths read `None...`) is not modelled.
- **Hard-coded `tmp`:** the hard-coded `tmp/t2s.wav` in `download_videos` and `tmp` in `clean_up` are modelled as written. They agree with the rest only when the scratch folder is `tmp/`, which is exactly what `Short.PlanDataFlow` requires.
- Short.PlanDataFlow: `Writes` lists the output each stage is meant to write. Four stages return normally after a non-zero exit without writing it, and `main` goes on to the next stage: `merge_videos`, `vintage`, `grayscale` and `audio_into_video`. For such a run, the next stage reads a file no stage wrote. The lemma says what the stages are meant to produce, not what a run with silent failures leaves on disk.
- Short.PlanDataFlow: clips from earlier runs. The merge takes every entry the clip folder lists, and `clean_up` removes only `tmp` and `__pycache__`, so a clip folder outside `tmp/` still holds the clips of earlier runs, and they are merged too. The data flow follows only the clips of the current download.
- **Scratch folder creation:** `main` creates only `PEXELS_FOLDER`; nothing creates `TMP_FOLDER`, into which `text_to_speech` writes next. A run relies on the scratch folder existing already, or on it being a parent that `os.makedirs` creates for a clip folder inside it (such as `tmp/pexels/`). The model does not track which folders exist between stages.
- **Clip folder separator:** the downloader appends the clip name to `PEXELS_FOLDER` with no separator, while `main` lists the folder and joins with `os.path.join`. They meet only when `PEXELS_FOLDER` ends in `/`, which `Short.PlanDataFlow` requires; `Short.SlashlessFolderMergesUnwritten` states what goes wrong otherwise. Of the clips, the data flow follows one arbitrary id at a time.
- **Signals:** exceptions that are not `Exception` (KeyboardInterrupt) skip the `except` clean-up; only subclasses of `Exception` are modelled.
- **Logging:** only the formatter is modelled. Handler set-up, levels, stream output and `print('')` are not.
- **Unicode:** `Short.IsSpace` is the fixed set of characters Python's `str.isspace` accepts. There is no normalisation.
- **Log.Format:** it takes the level name and the already-interpolated message. `%`-interpolation of record arguments, `exc_info` and `stack_info` text are not modelled.

## Findings

| source | as written | input that shows it | evidently intended | confidence | as-written member | corrected member |
|---|---|---|---|---|---|---|
| short.py:71 | `args.fx.strip().split(',')` is called on the optional `-fx` argument | running the script without `-fx`: `args.fx` is `None`, so `AttributeError` is raised before `main` runs | an omitted `-fx` means no effects, as `main`'s `if fx:` / default `fx=None` expect | not executed; high | Short.FxArgumentAsWritten, Short.OmittedFxCrashes | Short.FxArgument, Short.OmittedFxMuxesMerged |
