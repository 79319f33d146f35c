/** `POST /download`: sweep old `.mp4` files, probe the video, gate its
    duration, cut its title, fetch it and report it. */
module Download {
  import opened Api
  import opened Units
  import opened FileNames
  import opened ScratchStore

  const MaxDuration := 600
  const MinDuration := 5
  const MaxTitleLength := 50
  /** The title yt-dlp's info dict falls back to. */
  const DefaultTitle := "Video"

  datatype Verdict = Accepted | TooLong | TooShort

  /** The duration gate: too long is tested first, then too short. */
  function CheckDuration(duration: int): (v: Verdict)
    ensures v == Accepted <==> MinDuration <= duration <= MaxDuration
    ensures v == TooLong <==> duration > MaxDuration
    ensures v == TooShort <==> duration < MinDuration
  {
    if duration > MaxDuration then TooLong
    else if duration < MinDuration then TooShort
    else Accepted
  }

  /** `info.get('duration', 0)`: the duration the gate sees. */
  function EffectiveDuration(duration: Option<int>): (d: int)
    ensures duration.None? ==> d == 0
    ensures duration.Some? ==> d == duration.value
  {
    duration.GetOr(0)
  }

  /** A video whose metadata has no duration is rejected as too short. */
  lemma MissingDurationTooShort()
    ensures CheckDuration(EffectiveDuration(None)) == TooShort
  {
  }

  /** `info.get('title', 'Video')[:50]`. */
  function Title(title: Option<string>): (r: string)
    ensures var t := title.GetOr(DefaultTitle);
            r <= t && |r| == if |t| <= MaxTitleLength then |t| else MaxTitleLength
  {
    var t := title.GetOr(DefaultTitle);
    if |t| <= MaxTitleLength then t else t[..MaxTitleLength]
  }

  /** What `extract_info(url, download=False)` reports. */
  datatype VideoInfo = VideoInfo(id: string, title: Option<string>, duration: Option<int>)

  /** The outcome of the metadata probe. */
  datatype Probe = ProbeRaised(detail: string) | Probed(info: VideoInfo)

  /** The outcome of `ydl.download`: it raises, or returns having written
      `{id}.mp4` of some size or no such file. */
  datatype Fetch = FetchRaised(detail: string) | Fetched(written: Option<nat>)

  /** The `/download` answer. */
  datatype DownloadResponse =
    | Downloaded(videoId: string, title: string, duration: int, fileSizeMb: nat, filePath: string)
    | DownloadFailed(error: ApiError)

  /** The answer and the directory afterwards */
  datatype DownloadRun = DownloadRun(response: DownloadResponse, files: map<string, nat>)

  /** Everything `/download` does after its sweep, from the swept directory. */
  function AfterSweep(files: map<string, nat>, probe: Probe, fetch: Fetch): DownloadRun {
    match probe
    case ProbeRaised(d) => DownloadRun(DownloadFailed(DownloadRaised(d)), files)
    case Probed(info) =>
      var duration := EffectiveDuration(info.duration);
      match CheckDuration(duration)
      case TooLong => DownloadRun(DownloadFailed(VideoTooLong), files)
      case TooShort => DownloadRun(DownloadFailed(VideoTooShort), files)
      case Accepted =>
        var title := Title(info.title);
        match fetch
        case FetchRaised(d) => DownloadRun(DownloadFailed(DownloadRaised(d)), files)
        case Fetched(written) =>
          var name := VideoFileName(info.id);
          var after := if written.Some? then files[name := written.value] else files;
          if name !in after then DownloadRun(DownloadFailed(DownloadMissing), after)
          else DownloadRun(Downloaded(info.id, title, duration, Megabytes(after[name]), ScratchRoot + name), after)
  }

  /** `POST /download`. A body without `url` is refused before anything is
      touched; otherwise every removable `.mp4` (earlier segment files
      included) is deleted before the probe, whatever the probe then says. */
  method DownloadVideo(dir: ScratchDir, url: Option<string>, probe: Probe, fetch: Fetch)
    returns (response: DownloadResponse)
    modifies dir
    ensures url.None? ==> response == DownloadFailed(MissingUrl) && dir.files == old(dir.files)
    ensures url.Some? ==>
      var run := AfterSweep(Swept(old(dir.files), dir.locked), probe, fetch);
      response == run.response && dir.files == run.files
  {
    if url.None? {
      return DownloadFailed(MissingUrl);
    }
    var _ := dir.SweepMp4();
    if probe.ProbeRaised? {
      return DownloadFailed(DownloadRaised(probe.detail));
    }
    var info := probe.info;
    var duration := EffectiveDuration(info.duration);
    if duration > MaxDuration {
      return DownloadFailed(VideoTooLong);
    }
    if duration < MinDuration {
      return DownloadFailed(VideoTooShort);
    }
    var title := Title(info.title);
    if fetch.FetchRaised? {
      return DownloadFailed(DownloadRaised(fetch.detail));
    }
    var name := VideoFileName(info.id);
    if fetch.written.Some? {
      dir.Write(name, fetch.written.value);
    }
    if name !in dir.files {
      return DownloadFailed(DownloadMissing);
    }
    response := Downloaded(info.id, title, duration, Megabytes(dir.files[name]), ScratchRoot + name);
  }

  /** A successful download passed the gate, kept a prefix of at most 50
      characters of the title, and reports the size of a file that exists. */
  lemma DownloadedMeaning(files: map<string, nat>, probe: Probe, fetch: Fetch)
    requires AfterSweep(files, probe, fetch).response.Downloaded?
    ensures probe.Probed? && fetch.Fetched?
    ensures var info := probe.info;
            var run := AfterSweep(files, probe, fetch);
            var r := run.response;
            var t := info.title.GetOr(DefaultTitle);
            && r.videoId == info.id
            && r.duration == EffectiveDuration(info.duration)
            && MinDuration <= r.duration <= MaxDuration
            && r.title <= t && |r.title| <= MaxTitleLength
            && VideoFileName(info.id) in run.files
            && r.fileSizeMb == Megabytes(run.files[VideoFileName(info.id)])
            && r.filePath == ScratchRoot + VideoFileName(info.id)
  {
  }

  /** A duration out of range is refused with 400 before the fetch, whose
      outcome then does not matter, and nothing is written. */
  lemma RejectedBeforeFetch(files: map<string, nat>, info: VideoInfo, fetch: Fetch)
    requires !(MinDuration <= EffectiveDuration(info.duration) <= MaxDuration)
    ensures var run := AfterSweep(files, Probed(info), fetch);
            && run.files == files
            && run.response.DownloadFailed?
            && run.response.error.Status() == 400
            && (run.response.error == VideoTooLong <==> EffectiveDuration(info.duration) > MaxDuration)
  {
  }

  /** After a download request with a `url`, no removable segment file is
      left, whatever the outcome, unless yt-dlp itself wrote that very name. */
  lemma DownloadClearsSegments(files: map<string, nat>, locked: set<string>, probe: Probe, fetch: Fetch,
                               videoId: string, i: nat)
    requires SegmentFileName(videoId, i) !in locked
    ensures var after := AfterSweep(Swept(files, locked), probe, fetch).files;
            SegmentFileName(videoId, i) !in after
            || (probe.Probed? && SegmentFileName(videoId, i) == VideoFileName(probe.info.id))
  {
  }
}
