/** `POST /cut`: split a downloaded video into fixed-length segments by
    running ffmpeg once per index, stopping at the first failed cut. */
module SegmentPlanner {
  import opened Api
  import opened Units
  import opened FileNames
  import opened ScratchStore

  /** An output of this many bytes or fewer is not reported as a segment. */
  const MinSegmentBytes := 1024
  const DefaultSegmentDuration := 60
  const DefaultMaxSegments := 5

  /** One ffmpeg cut: `ffmpeg -i input -ss start -t length -c copy ... output -y`. */
  datatype CutCommand = CutCommand(input: string, start: int, length: int, output: string)

  /** What a run of ffmpeg gives back: its exit code, and the size of the
      output file it wrote, if it wrote one (a failing run may leave one). */
  datatype CutOutcome = CutOutcome(exitCode: int, written: Option<nat>)

  /** ffmpeg as the model sees it: whether `ffmpeg -version` succeeds, and
      the outcome of each cut command; `log` records the cuts run so far. */
  class Ffmpeg {
    const available: bool
    const run: CutCommand -> CutOutcome
    var log: seq<CutCommand>

    constructor (available: bool, run: CutCommand -> CutOutcome)
      ensures this.available == available && this.run == run && log == []
    {
      this.available := available;
      this.run := run;
      log := [];
    }

    /** Run one cut; its output, if any, lands in the scratch directory. */
    method Cut(dir: ScratchDir, cmd: CutCommand) returns (outcome: CutOutcome)
      modifies this, dir
      ensures outcome == run(cmd)
      ensures log == old(log) + [cmd]
      ensures dir.files == if outcome.written.Some? then old(dir.files)[cmd.output := outcome.written.value]
                           else old(dir.files)
    {
      outcome := run(cmd);
      log := log + [cmd];
      if outcome.written.Some? {
        dir.Write(cmd.output, outcome.written.value);
      }
    }
  }

  /** A request field that goes through `int(...)`: absent (the default
      applies), an integer, or a value `int` refuses (it raises). */
  datatype Param = Absent | Given(value: int) | Malformed(detail: string)

  datatype CutRequest = CutRequest(videoId: Option<string>, duration: Param, maxSegments: Param)

  /** The parameters of one planning run. */
  datatype Job = Job(videoId: string, segmentDuration: int, maxSegments: int)

  /** One entry of the `segments` list of the answer. */
  datatype SegmentRecord = SegmentRecord(index: nat, startTime: int, duration: int, fileSizeMb: nat, filePath: string)

  /** The `/cut` answer. */
  datatype CutResponse =
    | Segmented(originalFile: string, segmentsCount: nat, segments: seq<SegmentRecord>)
    | CutFailed(error: ApiError)

  /** A conversion that may raise, with `str(e)` as its detail. */
  datatype Result<T> = Ok(value: T) | Err(detail: string)

  /** `int(data.get(key, default))`: the default when absent, the given
      integer, or the conversion's error. */
  function ParseInt(p: Param, default: int): (r: Result<int>)
    ensures r.Ok? <==> !p.Malformed?
    ensures r.Ok? ==> r.value == if p.Given? then p.value else default
    ensures p.Malformed? ==> r == Err(p.detail)
  {
    match p
    case Absent => Ok(default)
    case Given(v) => Ok(v)
    case Malformed(d) => Err(d)
  }

  /** The conversions of `duration` then `max_segments`, once `video_id` is
      known: a bad `duration` is the one reported even when both are bad. */
  function ParseJob(videoId: string, req: CutRequest): (r: Result<Job>)
    ensures r.Ok? <==> !req.duration.Malformed? && !req.maxSegments.Malformed?
    ensures req.duration.Malformed? ==> r == Err(req.duration.detail)
    ensures !req.duration.Malformed? && req.maxSegments.Malformed? ==> r == Err(req.maxSegments.detail)
    ensures r.Ok? ==> r.value == Job(videoId, ParseInt(req.duration, DefaultSegmentDuration).value,
                                     ParseInt(req.maxSegments, DefaultMaxSegments).value)
  {
    match ParseInt(req.duration, DefaultSegmentDuration)
    case Err(d) => Err(d)
    case Ok(seg) =>
      match ParseInt(req.maxSegments, DefaultMaxSegments)
      case Err(d) => Err(d)
      case Ok(max) => Ok(Job(videoId, seg, max))
  }

  /** The cut command for index `i`: start `i * segment_duration`, length
      `segment_duration`, output `{video_id}_segment_{i:02d}.mp4`. */
  function Command(job: Job, i: nat): CutCommand {
    CutCommand(VideoFileName(job.videoId), i * job.segmentDuration, job.segmentDuration,
               SegmentFileName(job.videoId, i))
  }

  /** The record kept for index `i` when its output has `size` bytes. */
  function Record(job: Job, i: nat, size: nat): SegmentRecord {
    SegmentRecord(i, i * job.segmentDuration, job.segmentDuration, Megabytes(size),
                  ScratchRoot + SegmentFileName(job.videoId, i))
  }

  /** ffmpeg's behaviour and the directory as it was when the loop started. */
  datatype World = World(run: CutCommand -> CutOutcome, before: map<string, nat>)

  /** The directory after the cuts for indices `0 .. n-1`. */
  function Outputs(job: Job, w: World, n: nat): map<string, nat> {
    if n == 0 then w.before
    else
      var files := Outputs(job, w, n - 1);
      var o := w.run(Command(job, n - 1));
      if o.written.Some? then files[SegmentFileName(job.videoId, n - 1) := o.written.value] else files
  }

  /** What the loop reads after cutting index `i`: `Stop` for a non-zero
      exit or a missing output file, otherwise the output's size. */
  datatype Step = Stop | Done(size: nat)

  /** The step the loop reads at index `i`; `StepAtMeaning` states it in
      terms of the directory right after cut `i`. */
  function StepAt(job: Job, w: World, i: nat): Step {
    var o := w.run(Command(job, i));
    var name := SegmentFileName(job.videoId, i);
    if o.exitCode != 0 then Stop
    else if o.written.Some? then Done(o.written.value)
    else if name in w.before then Done(w.before[name])
    else Stop
  }

  predicate Kept(s: Step) {
    s.Done? && s.size > MinSegmentBytes
  }

  /** The number of cuts the loop runs, counting from index `from`: only the
      last cut run can be a `Stop`, and ending before `max_segments` means
      the last cut run was one. */
  function Attempts(job: Job, w: World, from: nat): (n: nat)
    ensures from <= n
    ensures n <= if from < job.maxSegments then job.maxSegments else from
    ensures forall j :: from <= j < n && StepAt(job, w, j).Stop? ==> j == n - 1
    ensures n < job.maxSegments ==> from < n && StepAt(job, w, n - 1).Stop?
    decreases job.maxSegments - from
  {
    if from >= job.maxSegments then from
    else if StepAt(job, w, from).Stop? then from + 1
    else Attempts(job, w, from + 1)
  }

  /** The records of the kept outputs among indices `0 .. n-1`, in index order. */
  function Records(job: Job, w: World, n: nat): seq<SegmentRecord> {
    if n == 0 then []
    else
      var s := StepAt(job, w, n - 1);
      Records(job, w, n - 1) + if Kept(s) then [Record(job, n - 1, s.size)] else []
  }

  /** The commands for indices `0 .. n-1`, in order. */
  function Commands(job: Job, n: nat): (cmds: seq<CutCommand>)
    ensures |cmds| == n && forall i :: 0 <= i < n ==> cmds[i] == Command(job, i)
  {
    if n == 0 then [] else Commands(job, n - 1) + [Command(job, n - 1)]
  }

  /** The cuts for indices at or past `n` have not touched the names of
      those indices yet: they still hold what the directory held. */
  lemma {:induction false} OutputsElsewhere(job: Job, w: World, n: nat, i: nat)
    requires n <= i
    ensures var name := SegmentFileName(job.videoId, i);
            (name in Outputs(job, w, n) <==> name in w.before)
            && (name in w.before ==> Outputs(job, w, n)[name] == w.before[name])
  {
    if n > 0 {
      OutputsElsewhere(job, w, n - 1, i);
      SegmentFileNameInjective(job.videoId, n - 1, i);
    }
  }

  /** The step read for index `i` is what `returncode == 0 and
      os.path.exists(output)` and `os.path.getsize(output)` see in the
      directory right after cut `i`. */
  lemma StepAtMeaning(job: Job, w: World, i: nat)
    ensures var name := SegmentFileName(job.videoId, i);
            var after := Outputs(job, w, i + 1);
            var r := StepAt(job, w, i);
            && (r.Done? <==> w.run(Command(job, i)).exitCode == 0 && name in after)
            && (r.Done? ==> r.size == after[name])
  {
    OutputsElsewhere(job, w, i, i);
  }

  /** Every record is a kept output among the first `n` indices, at
      `index * segment_duration` for `segment_duration` seconds, and the
      records come in strictly increasing index order. */
  lemma {:induction false} RecordsSound(job: Job, w: World, n: nat)
    ensures var r := Records(job, w, n);
            && |r| <= n
            && (forall k :: 0 <= k < |r| ==>
                  var i := r[k].index;
                  && i < n
                  && Kept(StepAt(job, w, i))
                  && r[k] == Record(job, i, StepAt(job, w, i).size)
                  && r[k].startTime == i * job.segmentDuration
                  && r[k].duration == job.segmentDuration)
            && (forall k, l :: 0 <= k < l < |r| ==> r[k].index < r[l].index)
  {
    if n > 0 {
      RecordsSound(job, w, n - 1);
      var prev := Records(job, w, n - 1);
      if Kept(StepAt(job, w, n - 1)) {
        var r := Records(job, w, n);
        assert r == prev + [Record(job, n - 1, StepAt(job, w, n - 1).size)];
        assert r[|r| - 1].index == n - 1;
      } else {
        assert Records(job, w, n) == prev;
      }
    }
  }

  /** Some record in `r` is for index `i`. */
  predicate HasRecord(r: seq<SegmentRecord>, i: nat) {
    exists k :: 0 <= k < |r| && r[k].index == i
  }

  /** Every kept output among the first `n` indices has its record. */
  lemma {:induction false} RecordsComplete(job: Job, w: World, n: nat)
    ensures forall i :: 0 <= i < n && Kept(StepAt(job, w, i)) ==> HasRecord(Records(job, w, n), i)
  {
    if n > 0 {
      RecordsComplete(job, w, n - 1);
      var r := Records(job, w, n);
      var prev := Records(job, w, n - 1);
      assert r == if Kept(StepAt(job, w, n - 1))
                  then prev + [Record(job, n - 1, StepAt(job, w, n - 1).size)]
                  else prev;
      forall i | 0 <= i < n && Kept(StepAt(job, w, i))
        ensures HasRecord(r, i)
      {
        if i == n - 1 {
          assert r[|r| - 1].index == i;
        } else {
          var k :| 0 <= k < |prev| && prev[k].index == i;
          assert r[k] == prev[k];
        }
      }
    }
  }

  /** What the records mean: one per kept output among the first `n`
      indices, in strictly increasing index order, each at
      `index * segment_duration` for `segment_duration` seconds. */
  lemma RecordsMeaning(job: Job, w: World, n: nat)
    ensures var r := Records(job, w, n);
            && |r| <= n
            && (forall k :: 0 <= k < |r| ==>
                  var i := r[k].index;
                  && i < n
                  && Kept(StepAt(job, w, i))
                  && r[k] == Record(job, i, StepAt(job, w, i).size)
                  && r[k].startTime == i * job.segmentDuration
                  && r[k].duration == job.segmentDuration)
            && (forall k, l :: 0 <= k < l < |r| ==> r[k].index < r[l].index)
            && (forall i :: 0 <= i < n && Kept(StepAt(job, w, i)) ==>
                  exists k :: 0 <= k < |r| && r[k].index == i)
  {
    RecordsSound(job, w, n);
    RecordsComplete(job, w, n);
  }

  /** The answer, the cuts run and the directory afterwards. */
  datatype CutRun = CutRun(response: CutResponse, issued: seq<CutCommand>, files: map<string, nat>)

  /** `POST /cut` as a function of the request, the directory, whether
      ffmpeg runs at all, and ffmpeg's outcome for each command. */
  function CutSpec(req: CutRequest, files: map<string, nat>, available: bool, run: CutCommand -> CutOutcome): CutRun {
    if req.videoId.None? then CutRun(CutFailed(MissingVideoId), [], files)
    else match ParseJob(req.videoId.value, req)
      case Err(d) => CutRun(CutFailed(CutRaised(d)), [], files)
      case Ok(job) =>
        if VideoFileName(job.videoId) !in files then CutRun(CutFailed(InputNotFound), [], files)
        else if !available then CutRun(CutFailed(FfmpegUnavailable), [], files)
        else
          var w := World(run, files);
          var n := Attempts(job, w, 0);
          var segments := Records(job, w, n);
          CutRun(if segments == [] then CutFailed(NoSegments) else Segmented(job.videoId, |segments|, segments),
                 Commands(job, n), Outputs(job, w, n))
  }

  /** One pass of the loop body at index `i`, as the specification
      functions see it: the cut's output lands under its name, the command
      joins the log, a kept output adds its record, and a `Stop` ends the
      cuts run with this one. */
  lemma LoopStep(job: Job, w: World, i: nat)
    requires i < job.maxSegments && Attempts(job, w, 0) == Attempts(job, w, i)
    ensures var o := w.run(Command(job, i));
            Outputs(job, w, i + 1) ==
              if o.written.Some? then Outputs(job, w, i)[Command(job, i).output := o.written.value]
              else Outputs(job, w, i)
    ensures Commands(job, i + 1) == Commands(job, i) + [Command(job, i)]
    ensures var s := StepAt(job, w, i);
            Records(job, w, i + 1) == Records(job, w, i) + if Kept(s) then [Record(job, i, s.size)] else []
    ensures StepAt(job, w, i).Stop? ==> Attempts(job, w, 0) == i + 1
    ensures StepAt(job, w, i).Done? ==> Attempts(job, w, 0) == Attempts(job, w, i + 1)
  {
  }

  /** The `for i in range(max_segments)` loop: cut index after index, keep
      each output larger than 1024 bytes, skip a smaller one and go on, and
      `break` at the first non-zero exit or missing output. */
  method PlanSegments(job: Job, dir: ScratchDir, ffmpeg: Ffmpeg) returns (segments: seq<SegmentRecord>)
    modifies dir, ffmpeg
    ensures var w := World(ffmpeg.run, old(dir.files));
            var n := Attempts(job, w, 0);
            && segments == Records(job, w, n)
            && ffmpeg.log == old(ffmpeg.log) + Commands(job, n)
            && dir.files == Outputs(job, w, n)
  {
    ghost var w := World(ffmpeg.run, dir.files);
    segments := [];
    var i: nat := 0;
    while i < job.maxSegments
      invariant i == 0 || i <= job.maxSegments
      invariant Attempts(job, w, 0) == Attempts(job, w, i)
      invariant segments == Records(job, w, i)
      invariant ffmpeg.log == old(ffmpeg.log) + Commands(job, i)
      invariant dir.files == Outputs(job, w, i)
    {
      var cmd := Command(job, i);
      var outcome := ffmpeg.Cut(dir, cmd);
      LoopStep(job, w, i);
      StepAtMeaning(job, w, i);
      assert ffmpeg.log == old(ffmpeg.log) + (Commands(job, i) + [cmd]);
      if outcome.exitCode == 0 && cmd.output in dir.files {
        var size := dir.files[cmd.output];
        if size > MinSegmentBytes {
          segments := segments + [Record(job, i, size)];
        }
      } else {
        assert Attempts(job, w, 0) == i + 1;
        return;
      }
      i := i + 1;
    }
  }

  /** `POST /cut`. */
  method CutVideo(req: CutRequest, dir: ScratchDir, ffmpeg: Ffmpeg) returns (response: CutResponse)
    modifies dir, ffmpeg
    ensures var spec := CutSpec(req, old(dir.files), ffmpeg.available, ffmpeg.run);
            && response == spec.response
            && ffmpeg.log == old(ffmpeg.log) + spec.issued
            && dir.files == spec.files
  {
    if req.videoId.None? {
      return CutFailed(MissingVideoId);
    }
    var videoId := req.videoId.value;
    var segmentDuration := ParseInt(req.duration, DefaultSegmentDuration);
    if segmentDuration.Err? {
      return CutFailed(CutRaised(segmentDuration.detail));
    }
    var maxSegments := ParseInt(req.maxSegments, DefaultMaxSegments);
    if maxSegments.Err? {
      return CutFailed(CutRaised(maxSegments.detail));
    }
    var job := Job(videoId, segmentDuration.value, maxSegments.value);
    var input := VideoFileName(videoId);
    if input !in dir.files {
      return CutFailed(InputNotFound);
    }
    if !ffmpeg.available {
      return CutFailed(FfmpegUnavailable);
    }

    var segments := PlanSegments(job, dir, ffmpeg);
    if segments == [] {
      return CutFailed(NoSegments);
    }
    response := Segmented(videoId, |segments|, segments);
  }

  /** The refusals of `/cut`, in the order they are tested: a missing
      `video_id` (400), a parameter `int` refuses (500), a missing input video
      (404, whatever ffmpeg would do), ffmpeg not runnable (500). None of
      them runs a cut or touches the directory. */
  lemma CutRefusals(req: CutRequest, files: map<string, nat>, available: bool, run: CutCommand -> CutOutcome)
    ensures var spec := CutSpec(req, files, available, run);
            && (req.videoId.None? ==> spec.response == CutFailed(MissingVideoId))
            && (req.videoId.Some? && ParseJob(req.videoId.value, req).Err? ==>
                  spec.response == CutFailed(CutRaised(ParseJob(req.videoId.value, req).detail)))
            && (req.videoId.Some? && ParseJob(req.videoId.value, req).Ok? ==>
                  (VideoFileName(req.videoId.value) !in files <==> spec.response == CutFailed(InputNotFound))
                  && (VideoFileName(req.videoId.value) in files && !available <==>
                        spec.response == CutFailed(FfmpegUnavailable)))
            && (spec.response.CutFailed? && spec.response.error != NoSegments ==>
                  spec.issued == [] && spec.files == files)
  {
  }

  /** A successful `/cut` answer: `segments_count` is the number of records,
      at least one and at most `max_segments`; the records are the kept
      outputs among the cuts run, in strictly increasing index order below
      `max_segments`, each at `index * segment_duration` for
      `segment_duration` seconds. */
  lemma SegmentedMeaning(req: CutRequest, files: map<string, nat>, available: bool, run: CutCommand -> CutOutcome)
    requires CutSpec(req, files, available, run).response.Segmented?
    ensures req.videoId.Some? && ParseJob(req.videoId.value, req).Ok?
    ensures var job := ParseJob(req.videoId.value, req).value;
            var w := World(run, files);
            var r := CutSpec(req, files, available, run).response;
            && r.originalFile == job.videoId
            && r.segmentsCount == |r.segments|
            && 1 <= |r.segments| <= job.maxSegments
            && (forall k :: 0 <= k < |r.segments| ==>
                  var i := r.segments[k].index;
                  && i < job.maxSegments
                  && Kept(StepAt(job, w, i))
                  && r.segments[k] == Record(job, i, StepAt(job, w, i).size)
                  && r.segments[k].startTime == i * job.segmentDuration
                  && r.segments[k].duration == job.segmentDuration)
            && (forall k, l :: 0 <= k < l < |r.segments| ==> r.segments[k].index < r.segments[l].index)
  {
    var job := ParseJob(req.videoId.value, req).value;
    var w := World(run, files);
    RecordsMeaning(job, w, Attempts(job, w, 0));
  }

  /** `/cut` answers "Aucun segment créé" exactly when no cut it ran kept an
      output; with `max_segments <= 0` no cut is run at all. */
  lemma NoSegmentsMeaning(req: CutRequest, files: map<string, nat>, available: bool, run: CutCommand -> CutOutcome)
    requires req.videoId.Some? && ParseJob(req.videoId.value, req).Ok?
    requires VideoFileName(req.videoId.value) in files && available
    ensures var job := ParseJob(req.videoId.value, req).value;
            var w := World(run, files);
            var spec := CutSpec(req, files, available, run);
            && (spec.response == CutFailed(NoSegments) <==>
                  forall i :: 0 <= i < Attempts(job, w, 0) ==> !Kept(StepAt(job, w, i)))
            && (job.maxSegments <= 0 ==> spec.response == CutFailed(NoSegments) && spec.issued == [])
  {
    var job := ParseJob(req.videoId.value, req).value;
    var w := World(run, files);
    var n := Attempts(job, w, 0);
    RecordsMeaning(job, w, n);
    var r := Records(job, w, n);
    if r != [] {
      assert Kept(StepAt(job, w, r[0].index));
    }
  }

  /** When every cut among the first `n` keeps its output, index `k` gives the `k`-th record. */
  lemma {:induction false} RecordsAllKept(job: Job, w: World, n: nat)
    requires forall i :: 0 <= i < n ==> Kept(StepAt(job, w, i))
    ensures |Records(job, w, n)| == n
    ensures forall k :: 0 <= k < n ==>
              StepAt(job, w, k).Done? && Records(job, w, n)[k] == Record(job, k, StepAt(job, w, k).size)
  {
    if n > 0 {
      RecordsAllKept(job, w, n - 1);
      var s := StepAt(job, w, n - 1);
      assert Records(job, w, n) == Records(job, w, n - 1) + [Record(job, n - 1, s.size)];
    }
  }

  /** When every cut keeps its output, `max_segments` cuts are run and each
      index `k` gives the `k`-th record, starting at `k * segment_duration`. */
  lemma AllCutsKept(job: Job, w: World)
    requires forall i :: 0 <= i < job.maxSegments ==> Kept(StepAt(job, w, i))
    ensures job.maxSegments >= 0 ==> Attempts(job, w, 0) == job.maxSegments
    ensures var r := Records(job, w, Attempts(job, w, 0));
            && (job.maxSegments >= 0 ==> |r| == job.maxSegments)
            && forall k :: 0 <= k < |r| ==> r[k].index == k && r[k].startTime == k * job.segmentDuration
  {
    RecordsAllKept(job, w, Attempts(job, w, 0));
  }

  /** The loop stops at the first cut that fails: when the cuts before index
      `k` all keep their output and cut `k` fails, exactly `k + 1` cuts are
      run (none after `k`), and the records are those of indices `0 .. k-1`. */
  lemma StopsAtFirstFailure(job: Job, w: World, k: nat)
    requires k < job.maxSegments
    requires forall j :: 0 <= j < k ==> Kept(StepAt(job, w, j))
    requires StepAt(job, w, k).Stop?
    ensures Attempts(job, w, 0) == k + 1
    ensures var r := Records(job, w, k + 1);
            |r| == k && forall j :: 0 <= j < k ==> r[j] == Record(job, j, StepAt(job, w, j).size)
  {
    RecordsAllKept(job, w, k);
  }

  /** A cut that succeeds with an output of 1024 bytes or less adds no record
      but does not stop the loop: the next index is still cut. */
  lemma SmallOutputSkipped(job: Job, w: World, i: nat)
    requires i + 1 < job.maxSegments
    requires forall j :: 0 <= j <= i ==> StepAt(job, w, j).Done?
    requires StepAt(job, w, i).size <= MinSegmentBytes
    ensures Attempts(job, w, 0) > i + 1
    ensures forall k :: 0 <= k < |Records(job, w, Attempts(job, w, 0))| ==>
              Records(job, w, Attempts(job, w, 0))[k].index != i
  {
    RecordsMeaning(job, w, Attempts(job, w, 0));
  }

  /** A 30-second video cut into 10-second segments, at most five: ffmpeg
      writes a 2 MB file for each start before 30 s and exits with 1 after
      that. The answer holds three segments starting at 0, 10 and 20
      seconds, and the fifth cut is never run. */
  lemma ThirtySecondScenario(videoId: string, files: map<string, nat>)
    requires VideoFileName(videoId) in files
    ensures var run := (cmd: CutCommand) =>
              if cmd.start < 30 then CutOutcome(0, Some(2 * BytesPerMegabyte)) else CutOutcome(1, None);
            var req := CutRequest(Some(videoId), Given(10), Given(5));
            var spec := CutSpec(req, files, true, run);
            && spec.response.Segmented?
            && spec.response.segmentsCount == 3
            && spec.response.segments[0].startTime == 0
            && spec.response.segments[1].startTime == 10
            && spec.response.segments[2].startTime == 20
            && spec.response.segments[2].fileSizeMb == 2
            && |spec.issued| == 4
  {
    var run := (cmd: CutCommand) =>
      if cmd.start < 30 then CutOutcome(0, Some(2 * BytesPerMegabyte)) else CutOutcome(1, None);
    var job := Job(videoId, 10, 5);
    var w := World(run, files);
    assert Command(job, 3).start == 30;
    forall j | 0 <= j < 3 ensures Kept(StepAt(job, w, j)) {
      assert Command(job, j).start < 30;
    }
    StopsAtFirstFailure(job, w, 3);
  }
}
