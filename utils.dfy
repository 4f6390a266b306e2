/** The media and speech adapters (utils.py): folder creation and clean-up over an
    abstract set of paths, speaker selection for speech synthesis, the duration probe's
    error mapping, and the argument lists of the ffmpeg/ffprobe invocations together
    with each wrapper's reaction to a non-zero exit code. */
module Utils {
  import opened Common

  /** A duration in seconds, as the prober reports it. */
  type Seconds = r: real | r >= 0.0

  // ---------------------------------------------------------------- folders

  /** Paths that `rm -rf tmp __pycache__` removes: those two and everything below them. */
  predicate Under(path: string, dir: string) {
    path == dir || (|path| > |dir| && path[..|dir| + 1] == dir + "/")
  }

  predicate RemovedByCleanUp(path: string) {
    Under(path, "tmp") || Under(path, "__pycache__")
  }

  function Remaining(paths: set<string>): (r: set<string>)
    ensures r <= paths
    ensures forall p :: p in paths ==> (p in r <==> !RemovedByCleanUp(p))
  {
    set p | p in paths && !RemovedByCleanUp(p)
  }

  const CleanUpCommand: Command := ["rm", "-rf", "tmp", "__pycache__"]

  /** The paths that exist on disk. */
  class Disk {
    var paths: set<string>

    constructor (existing: set<string>)
      ensures paths == existing
    {
      paths := existing;
    }

    /** `create_folder`: creates `path` only when nothing exists there. */
    method CreateFolder(path: string) returns (created: bool)
      modifies this
      ensures created <==> path !in old(paths)
      ensures paths == old(paths) + {path}
      ensures !created ==> paths == old(paths)
    {
      created := path !in paths;
      if created {
        paths := paths + {path};
      }
    }

    /** `clean_up`: removes the scratch folder and the bytecode cache with all they hold. */
    method CleanUp() returns (cmd: Command)
      modifies this
      ensures cmd == CleanUpCommand
      ensures paths == Remaining(old(paths))
    {
      cmd := CleanUpCommand;
      paths := Remaining(paths);
    }
  }

  /** Cleaning up twice leaves what cleaning up once leaves. */
  lemma CleanUpIdempotent(paths: set<string>)
    ensures Remaining(Remaining(paths)) == Remaining(paths)
  {
  }

  // ---------------------------------------------------------------- speech

  const Speakers: seq<string> := [
    "ED", "p225", "p226", "p227", "p228", "p229",
    "p230", "p231", "p232", "p233", "p234", "p236",
    "p237", "p238", "p239", "p240", "p241", "p243",
    "p244", "p245", "p246", "p247", "p248", "p249",
    "p250", "p251", "p252", "p253", "p254", "p255",
    "p256", "p257", "p258", "p259", "p260", "p261",
    "p262", "p263", "p264", "p265", "p266", "p267",
    "p268", "p269", "p270", "p271", "p272", "p273",
    "p274", "p275", "p276", "p277", "p278", "p279",
    "p280", "p281", "p282", "p283", "p284", "p285",
    "p286", "p287", "p288", "p292", "p293", "p294",
    "p295", "p297", "p298", "p299", "p300", "p301",
    "p302", "p303", "p304", "p305", "p306", "p307",
    "p308", "p310", "p311", "p312", "p313", "p314",
    "p316", "p317", "p318", "p323", "p326", "p329",
    "p330", "p333", "p334", "p335", "p336", "p339",
    "p340", "p341", "p343", "p345", "p347", "p351",
    "p360", "p361", "p362", "p363", "p364", "p374",
    "p376"]

  const DefaultSpeaker := "p330"
  const TtsModel := "tts_models/en/vctk/vits"

  /** A request to the speech-synthesis engine. */
  datatype Synthesis = Synthesis(model: string, text: string, output: string, speaker: string)

  /** `text_to_speech`: an empty speaker is replaced by the speaker the random draw picks;
      a speaker outside the supported list leads to no synthesis and no error. */
  function TextToSpeech(text: string, output: string, speaker: string, draw: nat): (r: Option<Synthesis>)
    ensures r.None? <==> speaker != "" && speaker !in Speakers
    ensures r.Some? ==> r.value == Synthesis(TtsModel, text, output, r.value.speaker) && r.value.speaker in Speakers
    ensures r.Some? && speaker != "" ==> r.value.speaker == speaker
  {
    var chosen := if speaker == "" then Speakers[draw % |Speakers|] else speaker;
    if chosen in Speakers then Some(Synthesis(TtsModel, text, output, chosen)) else None
  }

  /** The default speaker is a supported one, so the default call always synthesises. */
  lemma DefaultSpeakerSynthesises(text: string, output: string, draw: nat)
    ensures TextToSpeech(text, output, DefaultSpeaker, draw) == Some(Synthesis(TtsModel, text, output, DefaultSpeaker))
  {
    assert Speakers[90] == DefaultSpeaker;
  }

  // ---------------------------------------------------------------- duration probe

  /** What running ffprobe gave: it could not be started, or it exited with a status and
      an output that does or does not read as a number of seconds. */
  datatype ProbeOutcome = NotStarted | Exited(returncode: int, value: Option<Seconds>)

  function ProbeCommand(path: string): Command {
    ["ffprobe", "-i", path, "-show_entries", "format=duration", "-v", "quiet", "-of", "csv=p=0"]
  }

  /** `get_duration`: a failed ffprobe run surfaces as `CalledProcessError` with its status;
      every other failure becomes a `ValueError`. */
  function GetDuration(probe: ProbeOutcome): (r: Result<Seconds>)
    ensures r.Ok? <==> probe.Exited? && probe.returncode == 0 && probe.value.Some?
    ensures r.Ok? ==> r.value == probe.value.value
    ensures probe.Exited? && probe.returncode != 0 ==> r == Err(CalledProcessError(probe.returncode))
    ensures r.Err? && !(probe.Exited? && probe.returncode != 0) ==> r == Err(ValueError(DurationUnavailable))
  {
    match probe
    case NotStarted => Err(ValueError(DurationUnavailable))
    case Exited(code, value) =>
      if code != 0 then Err(CalledProcessError(code))
      else if value.None? then Err(ValueError(DurationUnavailable))
      else Ok(value.value)
  }

  // ---------------------------------------------------------------- merge

  /** `"-i", p` for every path, in order. */
  function InputArgs(paths: seq<string>): seq<string>
    decreases |paths|
  {
    if paths == [] then [] else InputArgs(paths[..|paths| - 1]) + ["-i", paths[|paths| - 1]]
  }

  lemma {:induction false} InputArgsLayout(paths: seq<string>)
    ensures |InputArgs(paths)| == 2 * |paths|
    ensures forall i :: 0 <= i < |paths| ==> InputArgs(paths)[2 * i] == "-i" && InputArgs(paths)[2 * i + 1] == paths[i]
    decreases |paths|
  {
    if paths != [] {
      InputArgsLayout(paths[..|paths| - 1]);
    }
  }

  /** The label of the video stream of input `i`. */
  function Label(i: nat): string {
    "[" + NatToString(i) + ":v]"
  }

  /** `"[0:v][1:v]…[n-1:v]"`. */
  function StreamLabels(n: nat): string
    decreases n
  {
    if n == 0 then "" else StreamLabels(n - 1) + Label(n - 1)
  }

  /** The concat filter over `n` inputs, writing the stream `[outv]`. */
  const ConcatHead := "concat=n="
  const ConcatOptions := ":v=1:a=0"
  const OutLabel := "[outv]"

  function ConcatFilter(n: nat): string {
    StreamLabels(n) + ConcatHead + NatToString(n) + ConcatOptions + OutLabel
  }

  /** A decimal number holds no bracket. */
  lemma NumberHasNoBracket(n: nat)
    ensures Count(NatToString(n), '[') == 0
  {
    var d := NatToString(n);
    assert '[' !in d by {
      assert forall i :: 0 <= i < |d| ==> IsDigit(d[i]);
    }
    CountAbsent(d, '[');
  }

  /** Every label names one stream: the labels part holds exactly `n` opening brackets. */
  lemma {:induction false} StreamLabelsCount(n: nat)
    ensures Count(StreamLabels(n), '[') == n
    decreases n
  {
    if n > 0 {
      var d := NatToString(n - 1);
      assert Label(n - 1) == ("[" + d) + ":v]";
      CountConcat("[", d, '[');
      NumberHasNoBracket(n - 1);
      CountConcat("[" + d, ":v]", '[');
      CountConcat(StreamLabels(n - 1), Label(n - 1), '[');
      StreamLabelsCount(n - 1);
    }
  }

  /** Input `i`'s label comes after those of inputs `0..i-1`, in index order. */
  lemma {:induction false} StreamLabelsOrder(i: nat, n: nat)
    requires i < n
    ensures StreamLabels(i) + Label(i) <= StreamLabels(n)
    decreases n
  {
    if i < n - 1 {
      StreamLabelsOrder(i, n - 1);
    }
  }

  /** The fixed parts of the concat filter: no bracket before the count, none after it
      but the one of the output label. */
  lemma ConcatLiteralBrackets()
    ensures Count(ConcatHead, '[') == 0 && Count(ConcatOptions, '[') == 0 && Count(OutLabel, '[') == 1
  {
    CountAbsent(ConcatHead, '[');
    CountAbsent(ConcatOptions, '[');
    assert OutLabel == "[" + "outv]";
    CountAbsent("outv]", '[');
    CountConcat("[", "outv]", '[');
  }

  /** The concat filter names its `n` inputs and its one output: `n + 1` opening brackets. */
  lemma ConcatFilterCount(n: nat)
    ensures Count(ConcatFilter(n), '[') == n + 1
  {
    var labels, d := StreamLabels(n), NatToString(n);
    StreamLabelsCount(n);
    ConcatLiteralBrackets();
    NumberHasNoBracket(n);
    CountConcat(labels, ConcatHead, '[');
    CountConcat(labels + ConcatHead, d, '[');
    CountConcat(labels + ConcatHead + d, ConcatOptions, '[');
    CountConcat(labels + ConcatHead + d + ConcatOptions, OutLabel, '[');
  }

  /** The concat filter starts with input 0's label when there is an input and ends with
      the output label `[outv]`. */
  lemma ConcatFilterEnds(n: nat)
    ensures var f := ConcatFilter(n);
      && (n > 0 ==> |f| >= 5 && f[..5] == "[0:v]")
      && |f| >= 6 && f[|f| - 6..] == "[outv]"
  {
    var labels, d := StreamLabels(n), NatToString(n);
    var a := labels + ConcatHead + d + ConcatOptions;
    SplitAt(a, OutLabel);
    if n > 0 {
      FirstLabelLeads(n);
      SplitAt(labels, ConcatHead);
      SplitAt(labels + ConcatHead, d);
      SplitAt(labels + ConcatHead + d, ConcatOptions);
      assert a[..5] == labels[..5];
    }
  }

  /** With at least one input, the labels start with input 0's label `[0:v]`. */
  lemma FirstLabelLeads(n: nat)
    requires n > 0
    ensures |StreamLabels(n)| >= 5 && StreamLabels(n)[..5] == "[0:v]"
  {
    StreamLabelsOrder(0, n);
    assert StreamLabels(0) + Label(0) == Label(0);
    assert NatToString(0) == "0";
    assert Label(0) == "[0:v]";
  }

  /** The full `merge_videos` argument list. */
  function MergeArgs(paths: seq<string>, output: string): Command {
    ["ffmpeg"] + InputArgs(paths) + ["-filter_complex", ConcatFilter(|paths|), "-map", "[outv]", "-r", "30", output]
  }

  /** `merge_videos`: builds the argument list input by input and runs it; a non-zero exit
      is neither raised nor logged. */
  method MergeVideos(paths: seq<string>, output: string, exitCode: Command -> int)
    returns (cmd: Command, reaction: Reaction)
    ensures cmd == MergeArgs(paths, output)
    ensures |cmd| == 2 * |paths| + 8 && cmd[0] == "ffmpeg"
    ensures forall i :: 0 <= i < |paths| ==> cmd[2 * i + 1] == "-i" && cmd[2 * i + 2] == paths[i]
    ensures cmd[2 * |paths| + 1..] == ["-filter_complex", ConcatFilter(|paths|), "-map", "[outv]", "-r", "30", output]
    ensures reaction.Succeeded? <==> exitCode(cmd) == 0
    ensures !reaction.Succeeded? ==> reaction == Ignored
  {
    cmd := ["ffmpeg"];
    var i := 0;
    while i < |paths|
      invariant 0 <= i <= |paths|
      invariant cmd == ["ffmpeg"] + InputArgs(paths[..i])
    {
      assert paths[..i + 1][..i] == paths[..i];
      cmd := cmd + ["-i", paths[i]];
      i := i + 1;
    }
    assert paths[..i] == paths;
    var filter := StreamLabels(|paths|) + ConcatHead + NatToString(|paths|) + ConcatOptions + OutLabel;
    cmd := cmd + ["-filter_complex", filter, "-map", "[outv]", "-r", "30", output];
    InputArgsLayout(paths);
    reaction := Quiet(exitCode(cmd));
  }

  // ---------------------------------------------------------------- audio mux

  const VideoTrimHead := "[0:v]trim=0:"
  const VideoTrimTail := ",setpts=PTS-STARTPTS[v];"
  const AudioTrimHead := "[1:a]atrim=0:"
  const AudioTrimTail := ",asetpts=PTS-STARTPTS[a]"

  /** Both streams trimmed to the window `window` and their timestamps reset to zero. */
  function MuxFilter(window: string): string {
    VideoTrimHead + window + VideoTrimTail + AudioTrimHead + window + AudioTrimTail
  }

  /** The same window bounds the video trim and the audio trim. */
  lemma MuxFilterWindow(window: string)
    ensures var f, a := MuxFilter(window), |VideoTrimHead| + |window| + |VideoTrimTail| + |AudioTrimHead|;
      |f| == a + |window| + |AudioTrimTail|
      && f[|VideoTrimHead|..|VideoTrimHead| + |window|] == window
      && f[a..a + |window|] == window
      && f[..5] == "[0:v]" && f[a - |AudioTrimHead|..a - |AudioTrimHead| + 5] == "[1:a]"
  {
    var p1 := VideoTrimHead + window;
    var p2 := p1 + VideoTrimTail;
    var p3 := p2 + AudioTrimHead;
    var p4 := p3 + window;
    var f := p4 + AudioTrimTail;
    SplitAt(VideoTrimHead, window);
    SplitAt(p1, VideoTrimTail);
    SplitAt(p2, AudioTrimHead);
    SplitAt(p3, window);
    SplitAt(p4, AudioTrimTail);
    assert f[..|p1|] == p1 by {
      assert f[..|p4|][..|p3|][..|p2|][..|p1|] == p1;
    }
    assert f[..|p3|] == p3 by {
      assert f[..|p4|][..|p3|] == p3;
    }
    assert f[|p3|..|p4|] == window;
    assert VideoTrimHead[..5] == "[0:v]" && AudioTrimHead[..5] == "[1:a]";
    assert f[..5] == p1[..|VideoTrimHead|][..5];
    assert f[|p2|..|p2| + 5] == p3[|p2|..][..5];
  }

  function MuxCommand(video: string, audio: string, window: string, output: string): Command {
    ["ffmpeg",
     "-i", video,
     "-i", audio,
     "-filter_complex", MuxFilter(window),
     "-map", "[v]",
     "-map", "[a]",
     "-movflags", "+faststart",
     "-r", "30",
     output]
  }

  /** The trim window: the narration's duration plus two seconds. */
  function TrimWindow(audioDuration: Seconds): (w: real)
    ensures w - audioDuration == 2.0
  {
    audioDuration + 2.0
  }

  /** `audio_into_video`: probes the audio's duration (a failure propagates and nothing else
      runs), then muxes with both streams trimmed to that duration plus two seconds; a
      non-zero exit of the mux is only logged. `show` is the decimal text Python gives a float. */
  method AudioIntoVideo(video: string, audio: string, output: string, probe: ProbeOutcome,
                        show: real -> string, exitCode: Command -> int)
    returns (issued: seq<Command>, reaction: Reaction)
    ensures |issued| >= 1 && issued[0] == ProbeCommand(audio)
    ensures GetDuration(probe).Err? ==> issued == [ProbeCommand(audio)] && reaction == Raised(GetDuration(probe).error)
    ensures GetDuration(probe).Ok? ==>
      && issued == [ProbeCommand(audio), MuxCommand(video, audio, show(TrimWindow(GetDuration(probe).value)), output)]
      && (reaction.Succeeded? <==> exitCode(issued[1]) == 0)
      && (!reaction.Succeeded? ==> reaction == Logged)
  {
    issued := [ProbeCommand(audio)];
    var duration := GetDuration(probe);
    if duration.Err? {
      reaction := Raised(duration.error);
      return;
    }
    var minDuration := duration.value + 2.0;
    var cmd := MuxCommand(video, audio, show(minDuration), output);
    issued := issued + [cmd];
    reaction := if exitCode(cmd) == 0 then Succeeded else Logged;
  }

  // ---------------------------------------------------------------- subtitles

  const SampleRate: nat := 16000

  /** The speech recogniser's configuration. */
  datatype Recognizer = Recognizer(lang: string, sampleRate: nat, words: bool)

  /** What `generate_srt` sets up: the resampling process whose standard output feeds the
      recogniser, the recogniser, and the file the subtitles are written to. */
  datatype SrtJob = SrtJob(resample: Command, recognizer: Recognizer, output: string)

  function ResampleCommand(audio: string): Command {
    ["ffmpeg", "-loglevel", "quiet", "-i", audio, "-ar", NatToString(SampleRate), "-ac", "1", "-f", "s16le", "-"]
  }

  /** `generate_srt`: the audio is resampled to the rate the recogniser is built for, as
      mono 16-bit little-endian PCM on standard output, with word timing turned on. */
  function GenerateSrt(audio: string, output: string): (job: SrtJob)
    ensures job.recognizer.words && job.recognizer.lang == "en-us" && job.output == output
    ensures |job.resample| == 12 && job.resample[..5] == ["ffmpeg", "-loglevel", "quiet", "-i", audio]
    ensures job.resample[5] == "-ar" && AllDigits(job.resample[6])
    ensures ParseNat(job.resample[6]) == job.recognizer.sampleRate == 16000
    ensures job.resample[7..] == ["-ac", "1", "-f", "s16le", "-"]
  {
    ParseNatToString(SampleRate);
    SrtJob(ResampleCommand(audio), Recognizer("en-us", SampleRate, true), output)
  }


  function EmbedCommand(video: string, srt: string, output: string, fps: string): Command {
    ["ffmpeg", "-i", video, "-vf", "subtitles=" + srt, "-r", fps, output]
  }

  /** `embed_srt_into_video`: burns the subtitles in; unlike the other wrappers, a non-zero
      exit raises `ValueError`. */
  method EmbedSrtIntoVideo(video: string, srt: string, output: string, fps: string, exitCode: Command -> int)
    returns (issued: seq<Command>, reaction: Reaction)
    ensures issued == [EmbedCommand(video, srt, output, fps)]
    ensures reaction.Succeeded? <==> exitCode(issued[0]) == 0
    ensures !reaction.Succeeded? ==> reaction == Raised(ValueError(SubtitleBurnFailed))
  {
    var cmd := EmbedCommand(video, srt, output, fps);
    issued := [cmd];
    if exitCode(cmd) == 0 {
      reaction := Succeeded;
    } else {
      reaction := Raised(ValueError(SubtitleBurnFailed));
    }
  }
}
