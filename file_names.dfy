/** The names the API gives to files in its scratch directory: the full video
    `{video_id}.mp4` and the segments `{video_id}_segment_{i:02d}.mp4`. */
module FileNames {

  /** The suffix every sweep matches and every generated name carries. */
  const Mp4 := ".mp4"

  /** The directory every name lives in; the JSON answers report `ScratchRoot + name`. */
  const ScratchRoot := "/tmp/"

  /** Python's `str.endswith`. */
  predicate EndsWith(s: string, suffix: string) {
    |suffix| <= |s| && s[|s| - |suffix|..] == suffix
  }

  predicate IsDigit(c: char) {
    '0' <= c <= '9'
  }

  function DigitChar(d: nat): char
    requires d < 10
  {
    ('0' as int + d) as char
  }

  /** The value of one decimal digit (0 for any other character). */
  function DigitValue(c: char): nat {
    if IsDigit(c) then c as int - '0' as int else 0
  }

  /** `str(n)` for a non-negative integer: decimal, no leading zero. */
  function Digits(n: nat): (s: string)
    ensures 1 <= |s|
    ensures n < 10 <==> |s| == 1
    ensures forall k :: 0 <= k < |s| ==> IsDigit(s[k])
    ensures n >= 1 ==> s[0] != '0'
    decreases n
  {
    if n < 10 then [DigitChar(n)] else Digits(n / 10) + [DigitChar(n % 10)]
  }

  /** `f"{n:02d}"`: decimal, left-padded with zeros to at least two characters. */
  function Pad2(n: nat): (s: string)
    ensures |s| >= 2
    ensures n < 100 ==> |s| == 2
    ensures forall k :: 0 <= k < |s| ==> IsDigit(s[k])
    ensures n >= 10 ==> s[0] != '0'
  {
    if n < 10 then ['0', DigitChar(n)] else Digits(n)
  }

  /** The number a string of decimal digits denotes; the reading that
      recovers `n` from `Digits(n)` and `Pad2(n)`. */
  ghost function DecimalValue(s: string): nat
    decreases |s|
  {
    if s == [] then 0 else DecimalValue(s[..|s| - 1]) * 10 + DigitValue(s[|s| - 1])
  }

  lemma {:induction false} DigitsValue(n: nat)
    ensures DecimalValue(Digits(n)) == n
    decreases n
  {
    var s := Digits(n);
    if n < 10 {
      assert s[..|s| - 1] == [];
    } else {
      assert s[..|s| - 1] == Digits(n / 10);
      DigitsValue(n / 10);
    }
  }

  /** Reading the padded index back gives the index: padding loses nothing. */
  lemma {:induction false} Pad2Value(n: nat)
    ensures DecimalValue(Pad2(n)) == n
  {
    if n < 10 {
      var s := Pad2(n);
      assert s[..|s| - 1] == ['0'];
      assert ['0'][..0] == [];
      assert DecimalValue(['0']) == 0;
    } else {
      DigitsValue(n);
    }
  }

  /** `/tmp/{video_id}.mp4` without its directory: the downloaded video. */
  function VideoFileName(videoId: string): (name: string)
    ensures EndsWith(name, Mp4) && videoId <= name
    ensures |name| == |videoId| + 4
  {
    videoId + Mp4
  }

  /** `/tmp/{video_id}_segment_{i:02d}.mp4` without its directory. */
  function SegmentFileName(videoId: string, i: nat): (name: string)
    ensures EndsWith(name, Mp4) && videoId <= name
    ensures name != VideoFileName(videoId)
    ensures i < 100 ==> |name| == |videoId| + 15
  {
    videoId + "_segment_" + Pad2(i) + Mp4
  }

  /** The name is the id, then `_segment_`, then the padded index, then `.mp4`. */
  lemma SegmentIndexPart(videoId: string, i: nat)
    ensures var name := SegmentFileName(videoId, i);
            && name[..|videoId|] == videoId
            && name[|videoId|..|videoId| + 9] == "_segment_"
            && name[|videoId| + 9..|name| - 4] == Pad2(i)
            && name[|name| - 4..] == Mp4
  {
    var prefix := videoId + "_segment_";
    assert SegmentFileName(videoId, i) == prefix + Pad2(i) + Mp4;
  }

  /** Within one video, distinct indices give distinct segment names, so no
      cut overwrites the output of another index of the same request. */
  lemma SegmentFileNameInjective(videoId: string, i: nat, j: nat)
    ensures SegmentFileName(videoId, i) == SegmentFileName(videoId, j) ==> i == j
  {
    if SegmentFileName(videoId, i) == SegmentFileName(videoId, j) {
      SegmentIndexPart(videoId, i);
      SegmentIndexPart(videoId, j);
      Pad2Value(i);
      Pad2Value(j);
    }
  }
}
