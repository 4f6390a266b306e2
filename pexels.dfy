/** The stock-footage adapter and the clip accumulator (pexels.py). HTTP replies, the
    outcome of writing a downloaded body, the duration probe and every random draw are
    inputs; what the code decides from them is modelled. */
module Pexels {
  import opened Common
  import Utils

  const MaxPerPage := 80
  const DefaultPerPage := 80
  const DefaultQuality := "hd"
  const VideoEndpoint := "https://api.pexels.com/videos/videos/"

  // ---------------------------------------------------------------- one video

  /** The pixel width a quality tier asks for; `None` is the `ValueError` for any other tier. */
  function QualityWidth(quality: string): (w: Option<nat>)
    ensures quality == "hd" <==> w == Some(1920)
    ensures quality == "sd" <==> w == Some(1280)
    ensures w.None? <==> quality != "hd" && quality != "sd"
  {
    if quality == "hd" then Some(1920) else if quality == "sd" then Some(1280) else None
  }

  /** One encoding of a video, as the metadata reply lists it. */
  datatype VideoFile = VideoFile(width: int, link: string)

  /** The reply to the metadata request for one video id. */
  datatype VideoResponse = VideoResponse(status: int, files: seq<VideoFile>)

  /** The first encoding of the requested width, if any. */
  function SelectFile(files: seq<VideoFile>, width: int): (r: Option<VideoFile>)
    ensures r.None? <==> forall i :: 0 <= i < |files| ==> files[i].width != width
    ensures r.Some? ==> exists i :: 0 <= i < |files| && files[i] == r.value && r.value.width == width
                                   && forall j :: 0 <= j < i ==> files[j].width != width
    decreases |files|
  {
    if files == [] then None
    else if files[0].width == width then Some(files[0])
    else
      var rest := SelectFile(files[1..], width);
      assert forall i :: 1 <= i < |files| ==> files[i] == files[1..][i - 1];
      rest
  }

  function VideoUrl(id: nat): string {
    VideoEndpoint + NatToString(id)
  }

  /** The URLs requested, in order, and what the call returned or raised. */
  datatype Download = Download(requested: seq<string>, result: Result<string>)

  /** `download_pexels_video` together with the `download` it calls: the tier is checked
      before any request; the metadata reply must have status 200 and list an encoding of
      the tier's width; `transferOk` says whether fetching that encoding's link and writing
      it to `outputPath` went through. */
  function DownloadPexelsVideo(id: nat, outputPath: string, quality: string,
                               response: VideoResponse, transferOk: bool): (d: Download)
    ensures QualityWidth(quality).None? ==> d == Download([], Err(ValueError(UnsupportedQuality(quality))))
    ensures QualityWidth(quality).Some? ==> |d.requested| >= 1 && d.requested[0] == VideoUrl(id)
    ensures QualityWidth(quality).Some? && response.status != 200 ==>
              d == Download([VideoUrl(id)], Err(ValueError(BadStatus(response.status))))
    ensures QualityWidth(quality).Some? && response.status == 200 && SelectFile(response.files, QualityWidth(quality).value).None? ==>
              d == Download([VideoUrl(id)], Err(ValueError(NoVideoAtWidth(QualityWidth(quality).value, id))))
    ensures QualityWidth(quality).Some? && response.status == 200 && SelectFile(response.files, QualityWidth(quality).value).Some? && !transferOk ==>
              d == Download([VideoUrl(id), SelectFile(response.files, QualityWidth(quality).value).value.link], Err(RequestException))
    ensures d.result.Ok? <==> && QualityWidth(quality).Some? && response.status == 200 && transferOk
                              && exists i :: 0 <= i < |response.files| && response.files[i].width == QualityWidth(quality).value
    ensures d.result.Ok? ==> d.result.value == outputPath
                             && d.requested == [VideoUrl(id), SelectFile(response.files, QualityWidth(quality).value).value.link]
  {
    match QualityWidth(quality)
    case None => Download([], Err(ValueError(UnsupportedQuality(quality))))
    case Some(width) =>
      if response.status != 200 then Download([VideoUrl(id)], Err(ValueError(BadStatus(response.status))))
      else match SelectFile(response.files, width)
        case None => Download([VideoUrl(id)], Err(ValueError(NoVideoAtWidth(width, id))))
        case Some(file) => Download([VideoUrl(id), file.link], if transferOk then Ok(outputPath) else Err(RequestException))
  }

  // ---------------------------------------------------------------- search

  /** The reply to one search request: a status with the ids of the listed videos, in
      reply order, or a failure of the request itself. */
  datatype SearchReply = Reply(status: int, ids: seq<nat>) | NetworkFailure

  /** The query parameters of one search request. */
  datatype Query = Query(topic: string, perPage: int, page: int)

  /** A reply that ends the search with ids. */
  predicate IsHit(r: SearchReply) {
    r.Reply? && r.status == 200 && r.ids != []
  }

  /** A reply that ends the search: ids, or an exception. */
  predicate Stops(r: SearchReply) {
    IsHit(r) || r.NetworkFailure?
  }

  /** `random.randint(lo, hi)` for a raw draw. */
  function RandInt(lo: int, hi: int, draw: nat): (r: int)
    requires lo <= hi
    ensures lo <= r <= hi
  {
    lo + draw % (hi - lo + 1)
  }

  /** The first attempt in `from..n-1` whose reply stops the search, or `n`. */
  function FirstStop(reply: nat -> SearchReply, from: nat, n: nat): (k: nat)
    requires from <= n
    ensures from <= k <= n
    ensures k < n ==> Stops(reply(k))
    ensures forall j :: from <= j < k ==> !Stops(reply(j))
    decreases n - from
  {
    if from == n then n else if Stops(reply(from)) then from else FirstStop(reply, from + 1, n)
  }

  /** The first stopping attempt is the one before which no attempt stops. */
  lemma FirstStopIs(reply: nat -> SearchReply, n: nat, k: nat)
    requires k <= n
    requires k < n ==> Stops(reply(k))
    requires forall j :: 0 <= j < k ==> !Stops(reply(j))
    ensures FirstStop(reply, 0, n) == k
  {
  }

  /** What `fetch_video_ids` returns or raises, given the reply to each attempt. */
  function SearchOutcome(perPage: int, totalPages: nat, reply: nat -> SearchReply): Result<Option<seq<nat>>> {
    if perPage > MaxPerPage then Err(ValueError(PerPageTooLarge(perPage)))
    else
      var k := FirstStop(reply, 0, totalPages);
      if k == totalPages then Ok(None)
      else if reply(k).NetworkFailure? then Err(RequestException)
      else Ok(Some(reply(k).ids))
  }

  /** The search yields `ids` exactly when some attempt got them with status 200, they are
      not empty, and no earlier attempt got ids or failed. */
  lemma SearchYieldsFirstHit(perPage: int, totalPages: nat, reply: nat -> SearchReply, ids: seq<nat>)
    ensures SearchOutcome(perPage, totalPages, reply) == Ok(Some(ids)) <==>
      && perPage <= MaxPerPage
      && exists k :: 0 <= k < totalPages && reply(k) == Reply(200, ids) && ids != []
                     && forall j :: 0 <= j < k ==> !Stops(reply(j))
  {
    if perPage <= MaxPerPage {
      var k := FirstStop(reply, 0, totalPages);
      if SearchOutcome(perPage, totalPages, reply) == Ok(Some(ids)) {
        assert reply(k) == Reply(200, ids);
      }
      if exists k' :: 0 <= k' < totalPages && reply(k') == Reply(200, ids) && ids != []
                      && forall j :: 0 <= j < k' ==> !Stops(reply(j)) {
        var k' :| 0 <= k' < totalPages && reply(k') == Reply(200, ids) && ids != []
                  && forall j :: 0 <= j < k' ==> !Stops(reply(j));
        assert Stops(reply(k'));
        assert k == k';
      }
    }
  }

  /** The search yields `None` exactly when no attempt got a 200 reply with ids and none failed. */
  lemma SearchYieldsNone(perPage: int, totalPages: nat, reply: nat -> SearchReply)
    ensures SearchOutcome(perPage, totalPages, reply) == Ok(None) <==>
      perPage <= MaxPerPage && forall k :: 0 <= k < totalPages ==> reply(k).Reply? && !IsHit(reply(k))
  {
    if perPage <= MaxPerPage {
      var k := FirstStop(reply, 0, totalPages);
      if k < totalPages {
        assert Stops(reply(k));
      }
    }
  }

  /** `fetch_video_ids`: rejects `perPage > 80` before any request, then makes at most
      `totalPages` attempts, each on a page drawn from `1..totalPages`, and returns the ids of
      the first 200 reply that lists any; a failed request raises. */
  method FetchVideoIds(topic: string, perPage: int, totalPages: nat, draw: nat -> nat, reply: nat -> SearchReply)
    returns (r: Result<Option<seq<nat>>>, queries: seq<Query>)
    ensures r == SearchOutcome(perPage, totalPages, reply)
    ensures perPage > MaxPerPage ==> queries == []
    ensures perPage <= MaxPerPage ==>
      var k := FirstStop(reply, 0, totalPages); |queries| == if k < totalPages then k + 1 else totalPages
    ensures |queries| <= totalPages
    ensures forall j :: 0 <= j < |queries| ==> queries[j] == Query(topic, perPage, RandInt(1, totalPages, draw(j)))
  {
    queries := [];
    if perPage > MaxPerPage {
      r := Err(ValueError(PerPageTooLarge(perPage)));
      return;
    }
    var allIds: seq<nat> := [];
    for attempt := 0 to totalPages
      invariant |queries| == attempt
      invariant forall j :: 0 <= j < attempt ==> queries[j] == Query(topic, perPage, RandInt(1, totalPages, draw(j)))
      invariant forall j :: 0 <= j < attempt ==> !Stops(reply(j))
      invariant allIds == []
    {
      var page := RandInt(1, totalPages, draw(attempt));
      queries := queries + [Query(topic, perPage, page)];
      var response := reply(attempt);
      if response.NetworkFailure? {
        FirstStopIs(reply, totalPages, attempt);
        r := Err(RequestException);
        return;
      }
      if response.status == 200 && response.ids != [] {
        allIds := allIds + response.ids;
        assert allIds == response.ids;
        FirstStopIs(reply, totalPages, attempt);
        r := Ok(Some(allIds));
        return;
      }
    }
    FirstStopIs(reply, totalPages, totalPages);
    r := Ok(None);
  }

  // ---------------------------------------------------------------- accumulation

  /** What a fetch of one drawn id meets: the metadata reply, whether the transfer went
      through, and what probing the written file gives. */
  datatype Attempt = Attempt(response: VideoResponse, transferOk: bool, probe: Utils.ProbeOutcome)

  /** One turn of the loop: the raw draw `random.choice` makes, and what fetching would meet. */
  datatype Draw = Draw(pick: nat, attempt: Attempt)

  /** A clip that was downloaded and probed. */
  datatype Clip = Clip(id: nat, path: string, duration: Utils.Seconds)

  /** One download attempt the loop made for a drawn id, and whether it recorded a clip. */
  datatype Fetch = Fetch(id: nat, recorded: bool)

  /** The loop's state: clips recorded so far, in order, the summed duration, and every
      download attempt made, in order. */
  datatype Progress = Progress(clips: seq<Clip>, total: real, fetches: seq<Fetch>)

  /** How `download_videos` ends: target reached (with the number of draws not used), an
      exception from drawing, or the finite supply of draws used up before the target. */
  datatype Acquisition =
    | Reached(clips: seq<Clip>, total: real, fetches: seq<Fetch>, drawsLeft: nat)
    | Failed(error: Exception)
    | OutOfDraws(clips: seq<Clip>, total: real, fetches: seq<Fetch>)

  /** The name of the clip file for video `id`: `"<id>.mp4"`. */
  function ClipName(id: nat): string {
    NatToString(id) + ".mp4"
  }

  /** The clip file: the folder and the clip name joined with no separator. */
  function ClipPath(folder: string, id: nat): string {
    folder + ClipName(id)
  }

  /** Different ids give different clip files in the same folder. */
  lemma ClipPathInjective(folder: string, a: nat, b: nat)
    requires ClipPath(folder, a) == ClipPath(folder, b)
    ensures a == b
  {
    var pa, pb := ClipPath(folder, a), ClipPath(folder, b);
    assert pa == folder + (NatToString(a) + ".mp4");
    assert pb == folder + (NatToString(b) + ".mp4");
    assert NatToString(a) == pa[|folder|..|pa| - 4];
    assert NatToString(b) == pb[|folder|..|pb| - 4];
    NatToStringInjective(a, b);
  }

  /** `random.choice(pool)` for a raw draw. */
  function Choose(pool: seq<nat>, pick: nat): (id: nat)
    requires pool != []
    ensures id in pool
  {
    pool[pick % |pool|]
  }

  function Ids(clips: seq<Clip>): (ids: seq<nat>)
    ensures |ids| == |clips| && forall i :: 0 <= i < |clips| ==> ids[i] == clips[i].id
  {
    seq(|clips|, i requires 0 <= i < |clips| => clips[i].id)
  }

  function Total(clips: seq<Clip>): (t: real)
    ensures t >= 0.0
    decreases |clips|
  {
    if clips == [] then 0.0 else Total(clips[..|clips| - 1]) + clips[|clips| - 1].duration
  }

  predicate NoDuplicates(s: seq<nat>) {
    forall i, j :: 0 <= i < j < |s| ==> s[i] != s[j]
  }

  /** The ids of the attempts that recorded a clip, in order. */
  function Recorded(fs: seq<Fetch>): seq<nat>
    decreases |fs|
  {
    if fs == [] then []
    else Recorded(fs[..|fs| - 1]) + (if fs[|fs| - 1].recorded then [fs[|fs| - 1].id] else [])
  }

  /** The record of clips is the record of successful attempts, and every attempt is for
      an id that no earlier attempt had recorded. */
  ghost predicate FetchLog(p: Progress) {
    && Recorded(p.fetches) == Ids(p.clips)
    && forall k :: 0 <= k < |p.fetches| ==> p.fetches[k].id !in Recorded(p.fetches[..k])
  }

  /** The loop's invariant: no id twice, the total is the sum of the recorded durations,
      every clip is a pool id stored at its clip path, and the attempts agree with the clips. */
  ghost predicate Consistent(p: Progress, pool: Option<seq<nat>>, folder: string) {
    && NoDuplicates(Ids(p.clips))
    && p.total == Total(p.clips)
    && (forall c :: c in p.clips ==> pool.Some? && c.id in pool.value && c.path == ClipPath(folder, c.id))
    && FetchLog(p)
  }

  /** A recorded attempt's id is in the record. */
  lemma {:induction false} RecordedHolds(fs: seq<Fetch>, k: nat)
    requires k < |fs| && fs[k].recorded
    ensures fs[k].id in Recorded(fs)
    decreases |fs|
  {
    if k < |fs| - 1 {
      assert fs[..|fs| - 1][k] == fs[k];
      RecordedHolds(fs[..|fs| - 1], k);
    }
  }

  /** Once an attempt has recorded an id, no later attempt is made for it. */
  lemma NoFetchAfterRecord(p: Progress)
    requires FetchLog(p)
    ensures forall k, j :: 0 <= k < j < |p.fetches| && p.fetches[k].recorded ==> p.fetches[j].id != p.fetches[k].id
  {
    forall k, j | 0 <= k < j < |p.fetches| && p.fetches[k].recorded ensures p.fetches[j].id != p.fetches[k].id {
      assert p.fetches[..j][k] == p.fetches[k];
      RecordedHolds(p.fetches[..j], k);
    }
  }

  /** Fetching and probing one id: a clip only when both the download and the probe succeed. */
  function TryClip(folder: string, id: nat, a: Attempt): Option<Clip> {
    var path := ClipPath(folder, id);
    if DownloadPexelsVideo(id, path, DefaultQuality, a.response, a.transferOk).result.Err? then None
    else match Utils.GetDuration(a.probe)
      case Ok(d) => Some(Clip(id, path, d))
      case Err(_) => None
  }

  /** One loop turn on a drawn id: a recorded id changes nothing; otherwise the attempt is
      logged, and a successful one appends its clip and adds its duration. */
  function Step(p: Progress, folder: string, id: nat, a: Attempt): Progress {
    if id in Ids(p.clips) then p
    else match TryClip(folder, id, a)
      case None => Progress(p.clips, p.total, p.fetches + [Fetch(id, false)])
      case Some(c) => Progress(p.clips + [c], p.total + c.duration, p.fetches + [Fetch(id, true)])
  }

  /** The loop `while video_duration < audio_duration`, run on a finite supply of draws. */
  function Run(pool: Option<seq<nat>>, folder: string, target: real, draws: seq<Draw>, p: Progress): Acquisition
    decreases |draws|
  {
    if p.total >= target then Reached(p.clips, p.total, p.fetches, |draws|)
    else if pool.None? then Failed(TypeError)
    else if pool.value == [] then Failed(IndexError)
    else if draws == [] then OutOfDraws(p.clips, p.total, p.fetches)
    else Run(pool, folder, target, draws[1..], Step(p, folder, Choose(pool.value, draws[0].pick), draws[0].attempt))
  }

  /** A drawn id that is already recorded causes no download attempt and leaves the state
      as it was. */
  lemma StepSkipsRecorded(p: Progress, folder: string, id: nat, a: Attempt)
    requires id in Ids(p.clips)
    ensures Step(p, folder, id, a) == p
    ensures Step(p, folder, id, a).fetches == p.fetches
  {
  }

  /** A drawn id not yet recorded causes exactly one download attempt, for that id. */
  lemma StepFetchesUnrecorded(p: Progress, folder: string, id: nat, a: Attempt)
    requires id !in Ids(p.clips)
    ensures Step(p, folder, id, a).fetches == p.fetches + [Fetch(id, TryClip(folder, id, a).Some?)]
  {
  }

  /** A failed fetch is swallowed and not remembered: the same id, drawn again later with
      a fetch that succeeds, is recorded then. */
  lemma FailedIdRetried(p: Progress, folder: string, id: nat, bad: Attempt, good: Attempt)
    requires id !in Ids(p.clips)
    requires TryClip(folder, id, bad).None? && TryClip(folder, id, good).Some?
    ensures Step(p, folder, id, bad) == Progress(p.clips, p.total, p.fetches + [Fetch(id, false)])
    ensures Step(Step(p, folder, id, bad), folder, id, good).clips == p.clips + [TryClip(folder, id, good).value]
  {
  }

  /** Logging an attempt for an id not yet recorded, with the clips extended exactly when
      it recorded one, keeps the attempt log in step with the clips. */
  lemma FetchLogAppend(p: Progress, e: Fetch, q: Progress)
    requires FetchLog(p) && e.id !in Ids(p.clips)
    requires q.fetches == p.fetches + [e]
    requires Ids(q.clips) == Ids(p.clips) + (if e.recorded then [e.id] else [])
    ensures FetchLog(q)
  {
    assert q.fetches[..|q.fetches| - 1] == p.fetches;
    forall k | 0 <= k < |q.fetches| ensures q.fetches[k].id !in Recorded(q.fetches[..k]) {
      if k < |p.fetches| {
        assert q.fetches[..k] == p.fetches[..k];
      }
    }
  }

  /** One turn keeps the attempt log in step with the clips and only appends to it. */
  lemma StepKeepsFetchLog(p: Progress, folder: string, id: nat, a: Attempt)
    requires FetchLog(p)
    ensures FetchLog(Step(p, folder, id, a)) && p.fetches <= Step(p, folder, id, a).fetches
  {
    var q := Step(p, folder, id, a);
    if id !in Ids(p.clips) {
      var t := TryClip(folder, id, a);
      if t.Some? {
        assert q == Progress(p.clips + [t.value], p.total + t.value.duration, p.fetches + [Fetch(id, true)]);
        assert Ids(q.clips) == Ids(p.clips) + [id];
      } else {
        assert q == Progress(p.clips, p.total, p.fetches + [Fetch(id, false)]);
      }
      FetchLogAppend(p, Fetch(id, t.Some?), q);
    }
  }

  /** One turn keeps the record of clips free of duplicates, at their clip paths, and
      summing to the total. */
  lemma StepKeepsClips(p: Progress, pool: seq<nat>, folder: string, id: nat, a: Attempt)
    requires Consistent(p, Some(pool), folder) && id in pool
    ensures var q := Step(p, folder, id, a);
      && NoDuplicates(Ids(q.clips)) && q.total == Total(q.clips)
      && (forall c :: c in q.clips ==> c.id in pool && c.path == ClipPath(folder, c.id))
      && q.total >= p.total && p.clips <= q.clips
  {
    var q := Step(p, folder, id, a);
    if id !in Ids(p.clips) && TryClip(folder, id, a).Some? {
      var c := TryClip(folder, id, a).value;
      assert q.clips == p.clips + [c];
      assert q.clips[..|q.clips| - 1] == p.clips;
      assert Ids(q.clips) == Ids(p.clips) + [id];
      forall i, j | 0 <= i < j < |Ids(q.clips)| ensures Ids(q.clips)[i] != Ids(q.clips)[j] {
        if j == |p.clips| {
          assert Ids(q.clips)[i] == Ids(p.clips)[i];
        }
      }
    }
  }

  /** One turn keeps the invariant, never lowers the total and only ever appends. */
  lemma StepKeepsConsistent(p: Progress, pool: seq<nat>, folder: string, id: nat, a: Attempt)
    requires Consistent(p, Some(pool), folder) && id in pool
    ensures var q := Step(p, folder, id, a);
      Consistent(q, Some(pool), folder) && q.total >= p.total && p.clips <= q.clips && p.fetches <= q.fetches
  {
    StepKeepsFetchLog(p, folder, id, a);
    StepKeepsClips(p, pool, folder, id, a);
  }

  /** Whatever the draws, the loop ends with the target met only when the total reaches it,
      with the invariant kept, and drawing from a missing or empty pool raises. */
  lemma {:induction false} RunSound(pool: Option<seq<nat>>, folder: string, target: real, draws: seq<Draw>, p: Progress)
    requires Consistent(p, pool, folder)
    ensures var r := Run(pool, folder, target, draws, p);
      && (r.Reached? ==> r.total >= target && Consistent(Progress(r.clips, r.total, r.fetches), pool, folder)
                         && p.clips <= r.clips && p.fetches <= r.fetches)
      && (r.OutOfDraws? ==> r.total < target && Consistent(Progress(r.clips, r.total, r.fetches), pool, folder)
                            && p.clips <= r.clips && p.fetches <= r.fetches)
      && (r.Failed? ==> p.total < target && (pool.None? || pool.value == []) && r.error == (if pool.None? then TypeError else IndexError))
    decreases |draws|
  {
    if p.total < target && pool.Some? && pool.value != [] && draws != [] {
      var id := Choose(pool.value, draws[0].pick);
      StepKeepsConsistent(p, pool.value, folder, id, draws[0].attempt);
      RunSound(pool, folder, target, draws[1..], Step(p, folder, id, draws[0].attempt));
    }
  }

  /** The body of the loop for a drawn id not yet recorded: download it to its clip path,
      probe it, and record it when both succeed; the attempt is logged either way. */
  method AttemptFetch(clips: seq<Clip>, videoDuration: real, fetches: seq<Fetch>, downloadedIds: seq<nat>,
                   folder: string, currentId: nat, attempt: Attempt)
    returns (clips': seq<Clip>, videoDuration': real, fetches': seq<Fetch>, downloadedIds': seq<nat>)
    requires currentId !in downloadedIds && downloadedIds == Ids(clips)
    ensures Progress(clips', videoDuration', fetches') == Step(Progress(clips, videoDuration, fetches), folder, currentId, attempt)
    ensures downloadedIds' == Ids(clips')
  {
    clips', videoDuration', fetches', downloadedIds' := clips, videoDuration, fetches, downloadedIds;
    var outputVideo := ClipPath(folder, currentId);
    var fetched := DownloadPexelsVideo(currentId, outputVideo, DefaultQuality, attempt.response, attempt.transferOk);
    var recorded := false;
    if fetched.result.Ok? {
      var probed := Utils.GetDuration(attempt.probe);
      if probed.Ok? {
        videoDuration' := videoDuration + probed.value;
        downloadedIds' := downloadedIds + [currentId];
        clips' := clips + [Clip(currentId, outputVideo, probed.value)];
        recorded := true;
      }
    }
    fetches' := fetches + [Fetch(currentId, recorded)];
  }

  /** The loop of `download_videos` on a given pool and target. */
  method Accumulate(pool: Option<seq<nat>>, folder: string, target: real, draws: seq<Draw>)
    returns (r: Acquisition)
    ensures r == Run(pool, folder, target, draws, Progress([], 0.0, []))
    ensures r.Reached? ==> r.total >= target && NoDuplicates(Ids(r.clips)) && r.total == Total(r.clips)
    ensures r.Reached? ==> forall c :: c in r.clips ==> pool.Some? && c.id in pool.value && c.path == ClipPath(folder, c.id)
    ensures r.OutOfDraws? ==> r.total < target && NoDuplicates(Ids(r.clips)) && r.total == Total(r.clips)
    ensures r.Reached? || r.OutOfDraws? ==> FetchLog(Progress(r.clips, r.total, r.fetches))
    ensures target <= 0.0 ==> r == Reached([], 0.0, [], |draws|)
    ensures target > 0.0 && pool.None? ==> r == Failed(TypeError)
    ensures target > 0.0 && pool == Some([]) ==> r == Failed(IndexError)
  {
    ghost var start := Progress([], 0.0, []);
    RunSound(pool, folder, target, draws, start);
    var videoDuration: real := 0.0;
    var downloadedIds: seq<nat> := [];
    var clips: seq<Clip> := [];
    var fetches: seq<Fetch> := [];
    var i := 0;
    while videoDuration < target
      invariant 0 <= i <= |draws|
      invariant downloadedIds == Ids(clips)
      invariant Run(pool, folder, target, draws[i..], Progress(clips, videoDuration, fetches)) == Run(pool, folder, target, draws, start)
      decreases |draws| - i
    {
      if pool.None? {
        return Failed(TypeError);
      }
      if pool.value == [] {
        return Failed(IndexError);
      }
      if i == |draws| {
        return OutOfDraws(clips, videoDuration, fetches);
      }
      assert draws[i..][1..] == draws[i + 1..];
      var currentId := Choose(pool.value, draws[i].pick);
      if currentId !in downloadedIds {
        clips, videoDuration, fetches, downloadedIds :=
          AttemptFetch(clips, videoDuration, fetches, downloadedIds, folder, currentId, draws[i].attempt);
      }
      i := i + 1;
    }
    return Reached(clips, videoDuration, fetches, |draws| - i);
  }

  /** `download_videos`: one search for the pool (`perPage` 80), then the narration's
      duration as the target, then the loop. Errors of the search and of the probe escape. */
  method DownloadVideos(topic: string, folder: string, totalPages: nat, pageDraw: nat -> nat,
                        reply: nat -> SearchReply, narrationProbe: Utils.ProbeOutcome, draws: seq<Draw>)
    returns (r: Acquisition, queries: seq<Query>)
    ensures var s, a := SearchOutcome(DefaultPerPage, totalPages, reply), Utils.GetDuration(narrationProbe);
      && (s.Err? ==> r == Failed(s.error))
      && (s.Ok? && a.Err? ==> r == Failed(a.error))
      && (s.Ok? && a.Ok? ==> r == Run(s.value, folder, a.value, draws, Progress([], 0.0, [])))
      && (r.Reached? ==> a.Ok? && r.total >= a.value && NoDuplicates(Ids(r.clips)) && r.total == Total(r.clips))
    ensures |queries| <= totalPages
  {
    var idsList;
    idsList, queries := FetchVideoIds(topic, DefaultPerPage, totalPages, pageDraw, reply);
    if idsList.Err? {
      return Failed(idsList.error), queries;
    }
    var audioDuration := Utils.GetDuration(narrationProbe);
    if audioDuration.Err? {
      return Failed(audioDuration.error), queries;
    }
    r := Accumulate(idsList.value, folder, audioDuration.value, draws);
  }
}
