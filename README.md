# YouTube-to-TikTok automation API: a Dafny model of its decisions

The API fetches a video by URL with yt-dlp into the shared scratch
directory `/tmp`, refuses videos shorter than 5 s or longer than 600 s, and
then has ffmpeg cut the file into fixed-length segments. This project models
the decisions it makes around those two tools:

- **Duration gate and title** of `POST /download`. A missing duration counts
  as 0. "Too long" (over 600) is tested before "too short" (under 5). The
  title is cut to its first 50 characters, and a missing title becomes
  `"Video"`.
- **Pre-download sweep**. Every `/download` request that carries a `url`
  first deletes every `.mp4` in the directory whose removal succeeds. This
  includes segment files from earlier cuts, and it happens before the probe, so a rejected video
  has already cleared them.
- **Segment-planning loop** of `POST /cut`. For `i` in
  `0 .. max_segments-1`, ffmpeg cuts `[i*d, i*d + d)` into
  `{video_id}_segment_{i:02d}.mp4`. The loop `break`s at the first cut that
  exits non-zero or leaves no output file. An output of more than 1024
  bytes becomes a record. A smaller output is skipped and the loop goes on.
  No record at all means `500 "Aucun segment créé"`.
- **Error order** of `/cut`: a missing `video_id` (400), then a parameter
  `int()` refuses (500), then a missing input video (404), then ffmpeg not
  runnable (500), then no segment (500).
- **Cleanup sweep** of `POST /cleanup`. It removes every name ending in
  `.mp4` and leaves every other name alone. A removal that fails is
  swallowed. The count is the number of successful removals.
- **Derived values**: two-digit zero-padded segment names, and whole
  mebibytes (`// (1024*1024)`) and gibibytes (`// 1024**3`).

The external tools become inputs:

- yt-dlp becomes a `Probe` (raises, or reports id, title and duration) and
  a `Fetch` (raises, or returns having written `{id}.mp4` of some size or
  nothing).
- ffmpeg becomes the `Ffmpeg` class. It has an availability flag (the
  `ffmpeg -version` check) and a function from each cut command to its exit
  code and the output file it wrote, if any. It keeps a log of the cuts it
  ran.
- `/tmp` becomes the `ScratchDir` class. It holds a map from file name to
  size and the set of names whose `os.remove` raises.

The loop tests `returncode == 0 and os.path.exists(output)`. The output file
is read from the directory after the cut. So a cut that exits 0 without
writing is read as a file of the same name left there by an earlier
request, exactly as the code reads it.

In two places the code does something one might not assume; the model
follows the code:

- A successful cut whose output is 1024 bytes or smaller does not stop the
  loop. It is skipped and the next index is cut (main.py:136).
- The pre-download sweep deletes segment files too, not only earlier full
  videos (main.py:42-47).

Modules: `Api` (optional fields, error answers and their HTTP status),
`Units`, `FileNames`, `ScratchStore` (the directory class, the sweep and
`/cleanup`), `Download` (`/download`) and `SegmentPlanner` (ffmpeg,
the loop and `/cut`).

## Model

| member | source | states |
|---|---|---|
| Api.ApiError.Status | main.py:36-159 | 400 exactly for a missing `url`, a duration out of range or a missing `video_id`; 404 exactly for a missing input video; 500 for every other error |
| Api.ApiError.Message | main.py:36-159 | the `error` text starts with "Erreur de " exactly for the two caught exceptions |
| Api.MessageIdentifiesError | main.py:36-159 | two errors with the same `error` text are the same error, exception text included |
| Units.Megabytes | main.py:82 | `size // (1024*1024)` is the largest whole number of mebibytes not above `size` |
| Units.Gigabytes | main.py:183 | `free // 1024**3` is the largest whole number of gibibytes not above `free` |
| FileNames.Pad2 | main.py:122 | `{i:02d}` is all digits, at least two characters, exactly two below 100, with no leading zero from 10 on |
| FileNames.Pad2Value | main.py:122 | the padded index reads back as the index, so padding loses nothing |
| FileNames.Digits | main.py:122 | `str(n)` is all digits, one character exactly below 10, with no leading zero from 1 on |
| FileNames.DigitsValue | main.py:122 | the decimal digits of `n` read back as `n` |
| FileNames.VideoFileName | main.py:77 | `{video_id}.mp4` starts with the id, ends with `.mp4` and is 4 characters longer |
| FileNames.SegmentFileName | main.py:122 | a segment name starts with the id and ends with `.mp4`, so sweeps remove it; it is never the video's own file name |
| FileNames.SegmentIndexPart | main.py:122 | a segment name is exactly the id, then `_segment_`, then the padded index, then `.mp4` |
| FileNames.SegmentFileNameInjective | main.py:122 | within one video, distinct indices give distinct segment names |
| ScratchStore.Swept | main.py:173-179 | after a sweep a name remains iff it was there and either does not end in `.mp4` or could not be removed; remaining files keep their size |
| ScratchStore.SweptCountsVanished | main.py:172-179 | the count a sweep reports equals the number of names that disappeared |
| ScratchStore.SecondSweepRemovesNothing | main.py:172-179 | a second sweep with nothing new in between leaves the directory as it is and counts 0 |
| ScratchStore.ScratchDir.Write | main.py:76 | a tool's output replaces or adds exactly that one name with its size |
| ScratchStore.ScratchDir.Remove | main.py:175-179 | `os.remove` succeeds iff the name exists and is removable, and then removes exactly that name |
| ScratchStore.ScratchDir.SweepMp4 | main.py:172-179 | the listing loop leaves the swept directory and returns the number of removable `.mp4` names |
| ScratchStore.Cleanup | main.py:170-184 | `/cleanup` sweeps and reports that count and the free space in whole gibibytes |
| ScratchStore.CleanupTwice | main.py:170-184 | two `/cleanup` calls in a row: the second reports `files_cleaned == 0` |
| Download.CheckDuration | main.py:66-70 | accepted iff `5 <= d <= 600`; too long iff `d > 600`; too short iff `d < 5` |
| Download.EffectiveDuration | main.py:66 | `info.get('duration', 0)`: the probed duration when present, otherwise 0 |
| Download.MissingDurationTooShort | main.py:66-70 | a missing duration defaults to 0 and is rejected as too short |
| Download.Title | main.py:72 | the title is a prefix of the source title (or of `"Video"`) of length `min(len, 50)` |
| Download.DownloadVideo | main.py:31-95 | no `url` gives 400 with the directory untouched; otherwise the sweep runs first, then probe, gate, fetch and the existence check, as in `AfterSweep` |
| Download.DownloadedMeaning | main.py:72-92 | a successful download passed the gate, reports the probed id and duration, a title prefix of at most 50 characters, and the size in MB of a file that exists |
| Download.RejectedBeforeFetch | main.py:65-76 | an out-of-range duration gives 400 (too long iff over 600) before the fetch, and nothing is written |
| Download.DownloadClearsSegments | main.py:41-47 | after a `/download` request with a `url`, no removable segment file remains, whatever the outcome, unless yt-dlp wrote that very name |
| SegmentPlanner.Ffmpeg.Cut | main.py:124-132 | one ffmpeg run is logged; its outcome is the oracle's; the output it wrote, if any, lands in the directory |
| SegmentPlanner.ParseInt | main.py:106-107 | `int(data.get(key, default))` fails exactly on a value `int` refuses, with that conversion's error text; otherwise it is the given value, or the default when absent |
| SegmentPlanner.ParseJob | main.py:106-107 | the job parses iff neither parameter is malformed; the error text is the `duration` conversion's when it fails, otherwise the `max_segments` conversion's; defaults 60 and 5 |
| SegmentPlanner.StepAtMeaning | main.py:132-135 | a cut counts as done iff it exits 0 and its output name exists afterwards, and then its size is the size found there |
| SegmentPlanner.Commands | main.py:120-131 | the `k`-th cut command has start `k * duration`, length `duration`, and the `k`-th segment name as its output |
| SegmentPlanner.Attempts | main.py:120-146 | the number of cuts run is at most `max_segments`; only the last cut run can fail; stopping early means it failed |
| SegmentPlanner.OutputsElsewhere | main.py:122-132 | cuts of earlier indices never touch a later index's output name |
| SegmentPlanner.RecordsSound | main.py:134-144 | each record is a kept (over 1024 bytes) output of an index below `n`, with `start_time = index * duration` and `duration`, in strictly increasing index order |
| SegmentPlanner.RecordsComplete | main.py:134-144 | every kept output below `n` has a record |
| SegmentPlanner.RecordsMeaning | main.py:134-144 | one record per kept (over 1024 bytes) output, in strictly increasing index order, each with `start_time = index * duration` and `duration` |
| SegmentPlanner.PlanSegments | main.py:119-146 | the loop returns the records of the cuts it ran, runs exactly the commands for indices below `Attempts`, and leaves their outputs in the directory |
| SegmentPlanner.CutVideo | main.py:98-159 | `/cut` answers, logs cuts and changes the directory as `CutSpec` says |
| SegmentPlanner.CutRefusals | main.py:101-117 | error order: missing `video_id` 400, bad parameter 500 carrying that conversion's error text, missing input 404, no ffmpeg 500; none of them runs a cut |
| SegmentPlanner.SegmentedMeaning | main.py:148-156 | a success has `segments_count == len(segments)`, between 1 and `max_segments`, with records in increasing index order below `max_segments` |
| SegmentPlanner.NoSegmentsMeaning | main.py:119-149 | "Aucun segment créé" iff no cut run kept an output; with `max_segments <= 0` no cut is run |
| SegmentPlanner.RecordsAllKept | main.py:134-144 | when every cut keeps its output, the `k`-th record is index `k` |
| SegmentPlanner.AllCutsKept | main.py:119-146 | when every cut keeps its output, exactly `max_segments` records, indices `0..max-1`, starts `k * duration` |
| SegmentPlanner.StopsAtFirstFailure | main.py:132-146 | a failure at index `k` after kept outputs: exactly `k + 1` cuts run, none later, and the `k` records before it are kept |
| SegmentPlanner.SmallOutputSkipped | main.py:134-137 | an output of at most 1024 bytes adds no record, but the next index is still cut |
| SegmentPlanner.ThirtySecondScenario | main.py:119-156 | a 30 s video cut in 10 s pieces, at most 5: 3 segments at 0, 10 and 20 s, 2 MB each, and 4 cuts run |

## Left out

- Flask plumbing: routing, `request.get_json`, `jsonify`, `send_file`, the
  `/` and `/health` answers, and the `download_url` fields built from
  `request.url_root`. The model's answers carry every other field.
- `GET /file/<filename>` only tests existence and sends the file. It does
  no path check, and the model does not invent one.
- yt-dlp is a foreign library. Its probe and its download are the inputs
  `Probe` and `Fetch`. The format, cookie and user-agent options have no
  effect in the model.
- ffmpeg is an external process. It is an availability flag plus a
  per-command outcome. An exception raised by `subprocess.run` during a cut
  (answered 500 by the catch-all handler) is not modelled.
- `shutil.disk_usage`, `datetime.now` and `PORT` are OS queries. Free space
  is an input of `Cleanup`.
- Concurrent requests racing on `/tmp` are not modelled: each handler runs
  alone.
- ScratchStore.ScratchDir.Remove: a removal that fails is assumed to fail
  again later (a fixed set of undeletable names). A transient failure that
  a later sweep could overcome is not modelled.
- Metadata fields that are present but `None` are not modelled. In the code
  such a duration or title raises inside the handler (answered 500), and an
  id of `None` becomes the name `None.mp4`. A fractional duration is not
  modelled either: durations are integers.
- A `url` that is not a string (so `.strip()` raises) and the log line
  printing it are not modelled. Only the presence of `url` matters.
- A `video_id` in `/cut` that is not a string is not modelled. The model
  takes it as text.
- Names in the directory are flat: paths are never resolved. A `video_id`
  containing `/` (such as `../tmp/abc` or `sub/x`) names a file in another
  directory in the code, and that is not modelled.
