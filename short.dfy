/** The pipeline orchestrator (short.py): the fixed order of stage calls, the choice of
    effect chain and of the file the audio mux reads, clean-up on both the error path and
    the `finally` path, and the parsing of the `-fx` command-line argument. Each stage is
    an abstract call; whether it raises is an oracle. */
module Short {
  import opened Common
  import Pexels
  import Effects

  /** The folders read from the environment (`PEXELS_FOLDER`, `TMP_FOLDER`). */
  datatype Folders = Folders(pexels: string, tmp: string)

  /** One call `main` makes into the adapters. */
  datatype Call =
    | CreateFolder(path: string)
    | TextToSpeech(text: string, output: string)
    | DownloadVideos(topic: string, folder: string, totalPages: nat)
    | MergeVideos(folder: string, output: string)
    | Vintage(input: string, output: string)
    | Grayscale(input: string, output: string)
    | AudioIntoVideo(video: string, audio: string, output: string)
    | GenerateSrt(audio: string, output: string)
    | EmbedSrt(video: string, srt: string, output: string)
    | CleanUp

  const FinalOutput := "video.mp4"
  /** The narration file the downloader probes, whatever the configured scratch folder. */
  const ProbedNarration := "tmp/t2s.wav"

  function Narration(f: Folders): string { f.tmp + "t2s.wav" }
  function Merged(f: Folders): string { f.tmp + "merged.mp4" }
  function VintageOut(f: Folders): string { f.tmp + "vintage.mp4" }
  function EffectsOut(f: Folders): string { f.tmp + "effects.mp4" }
  function Muxed(f: Folders): string { f.tmp + "merged_and_audio.mp4" }
  function Subtitles(f: Folders): string { f.tmp + "sub.srt" }

  // ---------------------------------------------------------------- the plan

  /** The effect calls `fx` selects. */
  function EffectCalls(fx: seq<string>, f: Folders): seq<Call> {
    if fx == [] then []
    else if "vintage" in fx && "grayscale" in fx then [Vintage(Merged(f), VintageOut(f)), Grayscale(VintageOut(f), EffectsOut(f))]
    else if "grayscale" in fx then [Grayscale(Merged(f), EffectsOut(f))]
    else if "vintage" in fx then [Vintage(Merged(f), EffectsOut(f))]
    else []
  }

  /** The video the audio mux reads: the effects output for any non-empty `fx`. */
  function MuxInput(fx: seq<string>, f: Folders): string {
    if fx != [] then EffectsOut(f) else Merged(f)
  }

  /** Every call `main` makes when nothing raises, in order. */
  function Plan(text: string, topic: string, fx: seq<string>, f: Folders): seq<Call> {
    Prologue(text, topic, f) + EffectCalls(fx, f) + Epilogue(fx, f)
  }

  /** The stages before the effects: folder, speech, download of one page, merge. */
  function Prologue(text: string, topic: string, f: Folders): seq<Call> {
    [CreateFolder(f.pexels), TextToSpeech(text, Narration(f)), DownloadVideos(topic, f.pexels, 1), MergeVideos(f.pexels, Merged(f))]
  }

  /** The stages after the effects: mux, subtitles, burn-in. */
  function Epilogue(fx: seq<string>, f: Folders): seq<Call> {
    [AudioIntoVideo(MuxInput(fx, f), Narration(f), Muxed(f)), GenerateSrt(Narration(f), Subtitles(f)), EmbedSrt(Muxed(f), Subtitles(f), FinalOutput)]
  }

  /** Both effects: vintage from the merged video, then grayscale from vintage's output,
      whatever their order in `fx`. One effect: only it, from merged to effects output.
      No recognised name: no effect call. */
  lemma EffectDispatch(fx: seq<string>, f: Folders)
    ensures "vintage" in fx && "grayscale" in fx ==>
      EffectCalls(fx, f) == [Vintage(Merged(f), VintageOut(f)), Grayscale(VintageOut(f), EffectsOut(f))]
    ensures "grayscale" in fx && "vintage" !in fx ==> EffectCalls(fx, f) == [Grayscale(Merged(f), EffectsOut(f))]
    ensures "vintage" in fx && "grayscale" !in fx ==> EffectCalls(fx, f) == [Vintage(Merged(f), EffectsOut(f))]
    ensures "vintage" !in fx && "grayscale" !in fx ==> EffectCalls(fx, f) == []
  {
  }

  /** Only which names `fx` holds matters, not their order or repetition. */
  lemma PlanIgnoresOrder(text: string, topic: string, fx: seq<string>, gx: seq<string>, f: Folders)
    requires forall x :: x in fx <==> x in gx
    ensures Plan(text, topic, fx, f) == Plan(text, topic, gx, f)
  {
    assert fx == [] <==> gx == [] by {
      if gx != [] { assert gx[0] in fx; }
      if fx != [] { assert fx[0] in gx; }
    }
  }

  /** The stages in their fixed order: folder, speech, download of one page, merge, the
      selected effects, mux, subtitles, burn into `video.mp4`. */
  lemma PlanOrder(text: string, topic: string, fx: seq<string>, f: Folders)
    ensures var p, e := Plan(text, topic, fx, f), EffectCalls(fx, f);
      && |p| == 7 + |e| && |e| <= 2
      && p[0].CreateFolder? && p[1].TextToSpeech? && p[2] == DownloadVideos(topic, f.pexels, 1) && p[3].MergeVideos?
      && p[4..4 + |e|] == e && (forall i :: 4 <= i < 4 + |e| ==> p[i].Vintage? || p[i].Grayscale?)
      && p[4 + |e|].AudioIntoVideo? && p[5 + |e|].GenerateSrt? && p[6 + |e|] == EmbedSrt(Muxed(f), Subtitles(f), FinalOutput)
      && CleanUp !in p
  {
  }

  // ---------------------------------------------------------------- data flow

  /** `os.path.join(folder, name)` for a name that does not start with `/`: a separator is
      inserted unless the folder is empty or already ends in one. */
  function JoinPath(folder: string, name: string): (p: string)
    ensures folder == [] || folder[|folder| - 1] == '/' ==> p == folder + name
    ensures folder != [] && folder[|folder| - 1] != '/' ==> p == folder + "/" + name
  {
    if folder == [] || folder[|folder| - 1] == '/' then folder + name else folder + "/" + name
  }

  /** The files a call is meant to write: its output, as its process writes it when it
      succeeds; of the downloaded clips, the one for video `clip`. Whether a stage that
      returned after a silent failure wrote anything is not tracked. */
  function Writes(c: Call, clip: nat): set<string> {
    match c
    case CreateFolder(p) => {p}
    case TextToSpeech(_, o) => {o}
    case DownloadVideos(_, folder, _) => {Pexels.ClipPath(folder, clip)}
    case MergeVideos(_, o) => {o}
    case Vintage(_, o) => {o}
    case Grayscale(_, o) => {o}
    case AudioIntoVideo(_, _, o) => {o}
    case GenerateSrt(_, o) => {o}
    case EmbedSrt(_, _, o) => {o}
    case CleanUp => {}
  }

  /** Files that ship with the repository and that no stage is meant to write. */
  const Assets: set<string> := {Effects.FilmTemplate}

  /** The files a call reads. The downloader probes a fixed narration path; the merge reads
      the listed folder entry of video `clip`, joined to the folder; the vintage chain also
      reads the old-film template. */
  function Reads(c: Call, clip: nat): set<string> {
    match c
    case CreateFolder(_) => {}
    case TextToSpeech(_, _) => {}
    case DownloadVideos(_, _, _) => {ProbedNarration}
    case MergeVideos(folder, _) => {JoinPath(folder, Pexels.ClipName(clip))}
    case Vintage(i, _) => {i, Effects.FilmTemplate}
    case Grayscale(i, _) => {i}
    case AudioIntoVideo(v, a, _) => {v, a}
    case GenerateSrt(a, _) => {a}
    case EmbedSrt(v, s, _) => {v, s}
    case CleanUp => {}
  }

  /** Every file a call of `p` reads, other than a shipped asset, is an output an earlier
      call of `p` is meant to write. */
  ghost predicate WrittenBeforeRead(p: seq<Call>, clip: nat) {
    forall i, x :: 0 <= i < |p| && x in Reads(p[i], clip) && x !in Assets ==> exists j :: 0 <= j < i && x in Writes(p[j], clip)
  }

  /** With the scratch folder at `tmp/` (where the downloader looks for the narration), the
      clip folder ending in `/`, and `fx` empty or naming a known effect, every file a stage
      reads, other than the old-film template, is the output an earlier stage is meant to
      write, and the last stage is the one meant to write `video.mp4`. */
  lemma PlanDataFlow(text: string, topic: string, fx: seq<string>, f: Folders, clip: nat)
    requires f.tmp == "tmp/" && f.pexels != [] && f.pexels[|f.pexels| - 1] == '/'
    requires fx == [] || "vintage" in fx || "grayscale" in fx
    ensures WrittenBeforeRead(Plan(text, topic, fx, f), clip)
    ensures FinalOutput in Writes(Plan(text, topic, fx, f)[|Plan(text, topic, fx, f)| - 1], clip)
  {
    var p, e := Plan(text, topic, fx, f), EffectCalls(fx, f);
    var m := 4 + |e|;
    assert p[1] == TextToSpeech(text, ProbedNarration) && Writes(p[1], clip) == {ProbedNarration};
    assert JoinPath(f.pexels, Pexels.ClipName(clip)) in Writes(p[2], clip);
    assert Writes(p[3], clip) == {Merged(f)};
    assert Writes(p[m], clip) == {Muxed(f)} && Writes(p[m + 1], clip) == {Subtitles(f)};
    assert MuxInput(fx, f) == Merged(f) || (|e| > 0 && Writes(p[m - 1], clip) == {EffectsOut(f)});
    if |e| == 2 {
      assert Writes(p[4], clip) == {VintageOut(f)};
    }
    forall i, x | 0 <= i < |p| && x in Reads(p[i], clip) && x !in Assets ensures exists j :: 0 <= j < i && x in Writes(p[j], clip) {
      if i == 2 || i == 3 || i == m || i == m + 1 {
        assert x in Writes(p[1], clip) || x in Writes(p[2], clip) || x in Writes(p[3], clip) || x in Writes(p[m - 1], clip);
      }
    }
  }

  /** Whenever `fx` names vintage, the first effect call reads the old-film template, which
      the data flow counts as a shipped asset rather than a stage's output. */
  lemma VintageReadsTemplate(text: string, topic: string, fx: seq<string>, f: Folders, clip: nat)
    requires "vintage" in fx
    ensures var p := Plan(text, topic, fx, f); |p| > 4 && p[4].Vintage? && Effects.FilmTemplate in Reads(p[4], clip)
    ensures Effects.FilmTemplate in Assets
  {
  }

  /** The fifth character from the end of a clip path is a digit of the id. */
  lemma ClipPathBeforeSuffix(folder: string, id: nat)
    ensures var q := Pexels.ClipPath(folder, id); |q| >= 5 && q[|q| - 4..] == ".mp4" && IsDigit(q[|q| - 5])
  {
    var d := NatToString(id);
    var q := Pexels.ClipPath(folder, id);
    assert q == (folder + d) + ".mp4";
    assert q[|q| - 5] == d[|d| - 1];
  }

  /** With a clip folder that does not end in `/`, the merge looks for the clip at the
      folder, a separator and the clip name, which no earlier stage writes: the
      downloader stores it beside the folder under the folder's name plus the clip name. */
  lemma SlashlessFolderMergesUnwritten(text: string, topic: string, fx: seq<string>, f: Folders, clip: nat)
    requires f.pexels != [] && f.pexels[|f.pexels| - 1] != '/'
    ensures var p, x := Plan(text, topic, fx, f), f.pexels + "/" + Pexels.ClipName(clip);
      && p[3] == MergeVideos(f.pexels, Merged(f)) && x in Reads(p[3], clip)
      && forall j :: 0 <= j < 3 ==> x !in Writes(p[j], clip)
  {
    var p, x := Plan(text, topic, fx, f), f.pexels + "/" + Pexels.ClipName(clip);
    assert x[|f.pexels|] == '/';
    ClipPathBeforeSuffix(f.pexels, clip);
    var q := Pexels.ClipPath(f.pexels, clip);
    assert |q| == |x| - 1;
    assert x[|x| - 4..] == ".mp4";
    assert Narration(f)[|Narration(f)| - 4..] == ".wav";
  }

  /** With a non-empty `fx` that names no known effect, the mux reads the effects output,
      which no earlier stage writes. */
  lemma UnknownEffectLeavesMuxInputUnwritten(text: string, topic: string, fx: seq<string>, f: Folders, clip: nat)
    requires fx != [] && "vintage" !in fx && "grayscale" !in fx
    requires f.pexels != EffectsOut(f)
    ensures var p := Plan(text, topic, fx, f);
      && |p| == 7 && p[4] == AudioIntoVideo(EffectsOut(f), Narration(f), Muxed(f))
      && EffectsOut(f) in Reads(p[4], clip)
      && forall j :: 0 <= j < 4 ==> EffectsOut(f) !in Writes(p[j], clip)
  {
    var p := Plan(text, topic, fx, f);
    assert p[..4] == [CreateFolder(f.pexels), TextToSpeech(text, Narration(f)), DownloadVideos(topic, f.pexels, 1), MergeVideos(f.pexels, Merged(f))];
    if EffectsOut(f) == Narration(f) {
      PrefixCancel(f.tmp, "effects.mp4", "t2s.wav");
    }
    if EffectsOut(f) == Merged(f) {
      PrefixCancel(f.tmp, "effects.mp4", "merged.mp4");
    }
    ClipPathBeforeSuffix(f.pexels, clip);
    var q, o := Pexels.ClipPath(f.pexels, clip), EffectsOut(f);
    assert o[|o| - 5] == 's';
  }

  // ---------------------------------------------------------------- execution

  /** The calls made so far and the call whose exception is propagating, if any. */
  datatype Execution = Execution(calls: seq<Call>, raised: Option<Call>)

  /** The calls run in order, stopping after the first one that raises. */
  function Exec(calls: seq<Call>, raises: Call -> bool): Execution
    decreases |calls|
  {
    if calls == [] then Execution([], None)
    else
      var e := Exec(calls[..|calls| - 1], raises);
      if e.raised.Some? then e
      else
        var c := calls[|calls| - 1];
        Execution(e.calls + [c], if raises(c) then Some(c) else None)
  }

  /** Without a propagating exception, every call ran and none raised. */
  lemma {:induction false} ExecRanAll(calls: seq<Call>, raises: Call -> bool)
    ensures var e := Exec(calls, raises);
      e.raised.None? ==> e.calls == calls && forall i :: 0 <= i < |calls| ==> !raises(calls[i])
    decreases |calls|
  {
    if calls != [] {
      var n := |calls|;
      var init := calls[..n - 1];
      ExecRanAll(init, raises);
      if Exec(init, raises).raised.None? {
        assert init + [calls[n - 1]] == calls;
        assert forall j :: 0 <= j < n - 1 ==> calls[j] == init[j];
      }
    }
  }

  /** With a propagating exception, the calls run are a prefix of `calls` ending in the
      raising one, and none before it raised. */
  lemma {:induction false} ExecStopsAtRaise(calls: seq<Call>, raises: Call -> bool)
    ensures var e := Exec(calls, raises);
      e.raised.Some? ==>
        && 1 <= |e.calls| <= |calls| && e.calls == calls[..|e.calls|]
        && e.raised.value == calls[|e.calls| - 1] && raises(e.raised.value)
        && forall j :: 0 <= j < |e.calls| - 1 ==> !raises(calls[j])
    decreases |calls|
  {
    if calls != [] {
      var n := |calls|;
      var init := calls[..n - 1];
      var e, r := Exec(init, raises), Exec(calls, raises);
      if e.raised.Some? {
        assert r == e;
        ExecStopsAtRaise(init, raises);
        assert calls[..|e.calls|] == init[..|e.calls|];
        assert forall j :: 0 <= j < |e.calls| - 1 ==> calls[j] == init[j];
      } else {
        var c := calls[n - 1];
        assert r == Execution(e.calls + [c], if raises(c) then Some(c) else None);
        ExecRanAll(init, raises);
        assert init + [c] == calls;
        assert forall j :: 0 <= j < n - 1 ==> calls[j] == init[j];
      }
    }
  }

  /** When no call raises, every call runs; otherwise the calls run are a prefix of `calls`
      ending in the raising one, and none before it raised. */
  lemma ExecShape(calls: seq<Call>, raises: Call -> bool)
    ensures var e := Exec(calls, raises);
      && (e.raised.None? ==> e.calls == calls && forall i :: 0 <= i < |calls| ==> !raises(calls[i]))
      && (e.raised.Some? ==>
            && 1 <= |e.calls| <= |calls| && e.calls == calls[..|e.calls|]
            && e.raised.value == calls[|e.calls| - 1] && raises(e.raised.value)
            && forall j :: 0 <= j < |e.calls| - 1 ==> !raises(calls[j]))
  {
    ExecRanAll(calls, raises);
    ExecStopsAtRaise(calls, raises);
  }

  /** No call raises exactly when every call runs and nothing propagates. */
  lemma ExecCompletes(calls: seq<Call>, raises: Call -> bool)
    ensures Exec(calls, raises).raised.None? <==> forall i :: 0 <= i < |calls| ==> !raises(calls[i])
  {
    var e := Exec(calls, raises);
    if e.raised.Some? {
      ExecStopsAtRaise(calls, raises);
      var k := |e.calls| - 1;
      assert 0 <= k < |calls| && raises(calls[k]);
    } else {
      ExecRanAll(calls, raises);
    }
  }

  /** One call under the emulated `try`: skipped once an exception is propagating. */
  method Invoke(run: Execution, ghost done: seq<Call>, c: Call, raises: Call -> bool)
    returns (next: Execution, ghost done': seq<Call>)
    requires run == Exec(done, raises)
    ensures done' == done + [c] && next == Exec(done', raises)
  {
    done' := done + [c];
    assert done'[..|done'| - 1] == done;
    if run.raised.Some? {
      next := run;
    } else {
      next := Execution(run.calls + [c], if raises(c) then Some(c) else None);
    }
  }

  /** The first half of `main`'s `try` block: folder, speech, download, merge. */
  method RunPrologue(text: string, topic: string, f: Folders, raises: Call -> bool) returns (run: Execution)
    ensures run == Exec(Prologue(text, topic, f), raises)
  {
    run := Execution([], None);
    ghost var done: seq<Call> := [];
    run, done := Invoke(run, done, CreateFolder(f.pexels), raises);
    run, done := Invoke(run, done, TextToSpeech(text, f.tmp + "t2s.wav"), raises);
    run, done := Invoke(run, done, DownloadVideos(topic, f.pexels, 1), raises);
    run, done := Invoke(run, done, MergeVideos(f.pexels, f.tmp + "merged.mp4"), raises);
    assert done == Prologue(text, topic, f);
  }

  /** The effect dispatch of `main`: both names run vintage then grayscale through the
      intermediate file; one name runs only that effect; otherwise nothing runs. */
  method RunEffects(run0: Execution, ghost done: seq<Call>, fx: seq<string>, f: Folders, raises: Call -> bool)
    returns (run: Execution)
    requires run0 == Exec(done, raises)
    ensures run == Exec(done + EffectCalls(fx, f), raises)
  {
    var merged, effectsOut := f.tmp + "merged.mp4", f.tmp + "effects.mp4";
    run := run0;
    ghost var now := done;
    if fx != [] {
      if "vintage" in fx && "grayscale" in fx {
        run, now := Invoke(run, now, Vintage(merged, f.tmp + "vintage.mp4"), raises);
        run, now := Invoke(run, now, Grayscale(f.tmp + "vintage.mp4", effectsOut), raises);
      } else {
        if "grayscale" in fx {
          run, now := Invoke(run, now, Grayscale(merged, effectsOut), raises);
        } else if "vintage" in fx {
          run, now := Invoke(run, now, Vintage(merged, effectsOut), raises);
        }
      }
    }
    assert now == done + EffectCalls(fx, f);
  }

  /** The rest of `main`'s `try` block: mux (from the effects output whenever `fx` is
      non-empty), subtitles, burn-in. */
  method RunEpilogue(run0: Execution, ghost done: seq<Call>, fx: seq<string>, f: Folders, raises: Call -> bool)
    returns (run: Execution)
    requires run0 == Exec(done, raises)
    ensures run == Exec(done + Epilogue(fx, f), raises)
  {
    var narration, muxed, srt := f.tmp + "t2s.wav", f.tmp + "merged_and_audio.mp4", f.tmp + "sub.srt";
    ghost var now := done;
    if fx != [] {
      run, now := Invoke(run0, now, AudioIntoVideo(f.tmp + "effects.mp4", narration, muxed), raises);
    } else {
      run, now := Invoke(run0, now, AudioIntoVideo(f.tmp + "merged.mp4", narration, muxed), raises);
    }
    run, now := Invoke(run, now, GenerateSrt(narration, srt), raises);
    run, now := Invoke(run, now, EmbedSrt(muxed, srt, FinalOutput), raises);
    assert now == done + Epilogue(fx, f);
  }

  /** The whole `try` block. */
  method Stages(text: string, topic: string, fx: seq<string>, f: Folders, raises: Call -> bool)
    returns (run: Execution)
    ensures run == Exec(Plan(text, topic, fx, f), raises)
  {
    run := RunPrologue(text, topic, f, raises);
    run := RunEffects(run, Prologue(text, topic, f), fx, f, raises);
    run := RunEpilogue(run, Prologue(text, topic, f) + EffectCalls(fx, f), fx, f, raises);
  }

  /** `main`: the stages inside `try`; on an exception `clean_up` runs in `except` and the
      exception is re-raised, and `clean_up` runs again in `finally`. */
  method Generate(text: string, topic: string, fx: seq<string>, f: Folders, raises: Call -> bool)
    returns (trace: seq<Call>, raised: Option<Call>)
    ensures var e := Exec(Plan(text, topic, fx, f), raises);
      raised == e.raised && trace == WithCleanUp(e)
    ensures raised.None? <==> forall i :: 0 <= i < |Plan(text, topic, fx, f)| ==> !raises(Plan(text, topic, fx, f)[i])
    ensures raised.None? ==> trace == Plan(text, topic, fx, f) + [CleanUp]
    ensures raised.Some? ==> |trace| >= 3 && raises(raised.value) && trace[|trace| - 3] == raised.value
    ensures Count(trace, CleanUp) == if raised.Some? then 2 else 1
  {
    var run := Stages(text, topic, fx, f, raises);
    raised := run.raised;
    trace := run.calls;
    if raised.Some? {
      trace := trace + [CleanUp];
    }
    trace := trace + [CleanUp];
    assert trace == WithCleanUp(run);
    ghost var plan := Plan(text, topic, fx, f);
    PlanOrder(text, topic, fx, f);
    ExecCompletes(plan, raises);
    TraceShape(plan, raises);
    CleanUpOnceOrTwice(plan, raises);
  }

  /** The calls run followed by the clean-up from `except` (only when an exception
      propagates) and the one from `finally`. */
  function WithCleanUp(e: Execution): seq<Call> {
    e.calls + (if e.raised.Some? then [CleanUp, CleanUp] else [CleanUp])
  }

  /** The trace is all the calls plus one clean-up when none raised, and otherwise ends in
      the raising call and two clean-ups (the `except` one and the `finally` one). */
  lemma TraceShape(calls: seq<Call>, raises: Call -> bool)
    ensures var e, t := Exec(calls, raises), WithCleanUp(Exec(calls, raises));
      && (e.raised.None? ==> t == calls + [CleanUp])
      && (e.raised.Some? ==> |t| >= 3 && raises(e.raised.value) && t[|t| - 3] == e.raised.value)
  {
    ExecShape(calls, raises);
  }

  /** With no clean-up among the calls, the trace holds one clean-up when nothing raised and
      two when something did. */
  lemma CleanUpOnceOrTwice(calls: seq<Call>, raises: Call -> bool)
    requires CleanUp !in calls
    ensures var e := Exec(calls, raises);
      Count(WithCleanUp(e), CleanUp) == if e.raised.Some? then 2 else 1
  {
    ExecShape(calls, raises);
    var e := Exec(calls, raises);
    assert CleanUp !in e.calls by {
      forall i | 0 <= i < |e.calls| ensures e.calls[i] != CleanUp { assert e.calls[i] == calls[i]; }
    }
    CountAbsent(e.calls, CleanUp);
    if e.raised.Some? {
      CountConcat(e.calls, [CleanUp, CleanUp], CleanUp);
      assert [CleanUp, CleanUp][..1] == [CleanUp];
    } else {
      CountConcat(e.calls, [CleanUp], CleanUp);
    }
  }

  // ---------------------------------------------------------------- the -fx argument

  /** The characters Python's `str.isspace` accepts. */
  predicate IsSpace(c: char) {
    var n := c as int;
    (9 <= n <= 13) || (28 <= n <= 32) || n == 0x85 || n == 0xA0 || n == 0x1680
    || (0x2000 <= n <= 0x200A) || n == 0x2028 || n == 0x2029 || n == 0x202F || n == 0x205F || n == 0x3000
  }

  predicate AllSpace(t: string) {
    forall k :: 0 <= k < |t| ==> IsSpace(t[k])
  }

  /** The first position at or after `from` that is not whitespace, or `|s|`. */
  function FirstNonSpace(s: string, from: nat): (i: nat)
    requires from <= |s| && forall k :: 0 <= k < from ==> IsSpace(s[k])
    ensures from <= i <= |s|
    ensures forall k :: 0 <= k < i ==> IsSpace(s[k])
    ensures i < |s| ==> !IsSpace(s[i])
    decreases |s| - from
  {
    if from < |s| && IsSpace(s[from]) then FirstNonSpace(s, from + 1) else from
  }

  /** One past the last position below `hi` and not below `lo` that is not whitespace, or `lo`. */
  function EndOfNonSpace(s: string, lo: nat, hi: nat): (j: nat)
    requires lo <= hi <= |s| && forall k :: hi <= k < |s| ==> IsSpace(s[k])
    ensures lo <= j <= hi
    ensures forall k :: j <= k < |s| ==> IsSpace(s[k])
    ensures j > lo ==> !IsSpace(s[j - 1])
    decreases hi
  {
    if hi > lo && IsSpace(s[hi - 1]) then EndOfNonSpace(s, lo, hi - 1) else hi
  }

  /** `str.strip()`: the result neither starts nor ends with whitespace (and only
      whitespace is cut, see `StripSurroundedBySpace`). */
  function Strip(s: string): (r: string)
    ensures r != [] ==> !IsSpace(r[0]) && !IsSpace(r[|r| - 1])
  {
    var i := FirstNonSpace(s, 0);
    var j := EndOfNonSpace(s, i, |s|);
    NonSpaceEnds(s, i, j);
    s[i..j]
  }

  /** `s` is its stripped form with only whitespace around it. */
  lemma StripSurroundedBySpace(s: string)
    ensures exists lead, trail :: s == lead + Strip(s) + trail && AllSpace(lead) && AllSpace(trail)
  {
    var i := FirstNonSpace(s, 0);
    var j := EndOfNonSpace(s, i, |s|);
    SpaceAround(s, i, j);
    var lead, trail := s[..i], s[j..];
    assert s == lead + Strip(s) + trail && AllSpace(lead) && AllSpace(trail);
  }

  /** The slice between the two positions starts and ends with its outermost characters. */
  lemma SliceEnds(s: string, i: nat, j: nat)
    requires i < j <= |s|
    ensures s[i..j][0] == s[i] && s[i..j][j - i - 1] == s[j - 1]
  {
  }

  /** Cutting `s` at `i` and `j` leaves whitespace on both sides when the positions outside are whitespace. */
  lemma SpaceAround(s: string, i: nat, j: nat)
    requires i <= j <= |s|
    requires forall k :: 0 <= k < i ==> IsSpace(s[k])
    requires forall k :: j <= k < |s| ==> IsSpace(s[k])
    ensures s == s[..i] + s[i..j] + s[j..] && AllSpace(s[..i]) && AllSpace(s[j..])
  {
    assert s == s[..i] + s[i..j] + s[j..];
  }

  /** The slice between `i` and `j` neither starts nor ends with whitespace when `s[i]` and `s[j - 1]` are not whitespace. */
  lemma NonSpaceEnds(s: string, i: nat, j: nat)
    requires i <= j <= |s|
    requires i < |s| ==> !IsSpace(s[i])
    requires j > i ==> !IsSpace(s[j - 1])
    ensures s[i..j] != [] ==> !IsSpace(s[i..j][0]) && !IsSpace(s[i..j][|s[i..j]| - 1])
  {
    if i < j {
      SliceEnds(s, i, j);
    }
  }

  /** The position of the first `c` in `s`. */
  function IndexOf(s: string, c: char): (k: nat)
    requires c in s
    ensures k < |s| && s[k] == c && c !in s[..k]
  {
    if s[0] == c then 0 else
      var k := IndexOf(s[1..], c) + 1;
      assert s[..k] == [s[0]] + s[1..][..k - 1];
      k
  }

  /** Parts joined with `sep` between each two. */
  function Join(parts: seq<string>, sep: char): string
    requires |parts| >= 1
    decreases |parts|
  {
    if |parts| == 1 then parts[0] else parts[0] + [sep] + Join(parts[1..], sep)
  }

  /** `str.split(sep)` for a one-character separator: never empty, no part holds the
      separator, and joining the parts gives the string back. */
  function Split(s: string, sep: char): (parts: seq<string>)
    ensures |parts| >= 1
    ensures forall i :: 0 <= i < |parts| ==> sep !in parts[i]
    ensures Join(parts, sep) == s
    decreases |s|
  {
    if sep !in s then [s]
    else
      var k := IndexOf(s, sep);
      var rest := Split(s[k + 1..], sep);
      assert s == s[..k] + [sep] + s[k + 1..];
      [s[..k]] + rest
  }

  /** `args.fx.strip().split(',')`. */
  function ParseFx(arg: string): seq<string> {
    Split(Strip(arg), ',')
  }

  /** A parsed `-fx` value is never empty, so it always counts as truthy and the mux reads
      the effects output; joining it gives back the stripped argument. */
  lemma ParseFxAlwaysTruthy(arg: string, f: Folders)
    ensures |ParseFx(arg)| >= 1 && Join(ParseFx(arg), ',') == Strip(arg)
    ensures MuxInput(ParseFx(arg), f) == EffectsOut(f)
  {
  }

  /** `IndexOf` finds the first occurrence. */
  lemma IndexOfIs(s: string, c: char, k: nat)
    requires k < |s| && s[k] == c && c !in s[..k]
    ensures IndexOf(s, c) == k
  {
    var j := IndexOf(s, c);
    assert j <= k by { assert s[..k + 1][k] == c; }
    assert k <= j by { assert s[..j + 1][j] == c; }
  }

  /** The empty argument parses to one empty name, which is truthy but names no effect. */
  lemma ParseFxEmpty()
    ensures ParseFx("") == [""]
  {
    assert Strip("") == "";
  }

  /** A string that neither starts nor ends with whitespace strips to itself. */
  lemma StripUnpadded(s: string)
    requires s != [] && !IsSpace(s[0]) && !IsSpace(s[|s| - 1])
    ensures Strip(s) == s
  {
    assert FirstNonSpace(s, 0) == 0;
    assert EndOfNonSpace(s, 0, |s|) == |s|;
  }

  /** Splitting at the only separator, at position `k`. */
  lemma SplitOnce(s: string, sep: char, k: nat)
    requires k < |s| && s[k] == sep && sep !in s[..k] && sep !in s[k + 1..]
    ensures Split(s, sep) == [s[..k], s[k + 1..]]
  {
    IndexOfIs(s, sep, k);
  }

  /** Two names without commas, joined by a bare comma, parse to both names. */
  lemma {:induction false} ParseFxPair(x: string, y: string)
    requires x != [] && y != [] && !IsSpace(x[0]) && !IsSpace(y[|y| - 1])
    requires ',' !in x && ',' !in y
    ensures ParseFx(x + [','] + y) == [x, y]
  {
    var s := x + [','] + y;
    StripUnpadded(s);
    assert s[..|x|] == x && s[|x| + 1..] == y;
    SplitOnce(s, ',', |x|);
  }

  /** Names are matched exactly: after a comma followed by a space, the next name comes out
      with the space in front, so `vintage, grayscale` does not select grayscale. */
  lemma {:induction false} ParseFxSpaceAfterComma(x: string, y: string)
    requires x != [] && y != [] && !IsSpace(x[0]) && !IsSpace(y[|y| - 1])
    requires ',' !in x && ',' !in y && x != y
    ensures ParseFx(x + [',', ' '] + y) == [x, [' '] + y]
    ensures y !in ParseFx(x + [',', ' '] + y)
  {
    var s := x + [',', ' '] + y;
    assert s == x + [','] + ([' '] + y);
    ParseFxPair(x, [' '] + y);
    assert |[' '] + y| != |y|;
  }

  /** The argument step as written: with `-fx` omitted, `args.fx` is None and calling
      `strip` on it raises `AttributeError` before `main` runs. */
  function FxArgumentAsWritten(arg: Option<string>): (r: Result<seq<string>>)
    ensures arg.None? <==> r == Err(AttributeError)
    ensures arg.Some? ==> r == Ok(ParseFx(arg.value))
  {
    match arg
    case None => Err(AttributeError)
    case Some(s) => Ok(ParseFx(s))
  }

  /** The run without `-fx` never reaches `main`. */
  lemma OmittedFxCrashes()
    ensures FxArgumentAsWritten(None).Err?
  {
  }

  /** The argument step as intended: an omitted `-fx` means no effects, as `main`'s own
      handling of a falsy `fx` expects; a given one is parsed as written. */
  function FxArgument(arg: Option<string>): (fx: seq<string>)
    ensures arg.None? ==> fx == []
    ensures arg.Some? ==> FxArgumentAsWritten(arg) == Ok(fx)
  {
    match arg
    case None => []
    case Some(s) => ParseFx(s)
  }

  /** With the intended argument step, omitting `-fx` runs no effect and muxes the merged video. */
  lemma OmittedFxMuxesMerged(text: string, topic: string, f: Folders)
    ensures EffectCalls(FxArgument(None), f) == []
    ensures Plan(text, topic, FxArgument(None), f)[4] == AudioIntoVideo(Merged(f), Narration(f), Muxed(f))
  {
  }

  /** The script's entry point with the intended argument step. */
  method CommandLine(text: string, topic: string, fxArg: Option<string>, f: Folders, raises: Call -> bool)
    returns (trace: seq<Call>, raised: Option<Call>)
    ensures var e := Exec(Plan(text, topic, FxArgument(fxArg), f), raises);
      raised == e.raised && trace == WithCleanUp(e)
    ensures Count(trace, CleanUp) == if raised.Some? then 2 else 1
  {
    var fx := FxArgument(fxArg);
    trace, raised := Generate(text, topic, fx, f, raises);
  }
}
