/**
 * Frame sampling of backend/app/services/video_processing.py: `extract_frames`
 * reads frames until the first failed read and keeps every frame whose index
 * is a multiple of the sampling interval. Decoding and writing images are
 * foreign: the capture is the sequence of read outcomes.
 */
module VideoProcessing {
  import opened Wrappers
  import opened Text

  /** Python's `int()` on a float: truncation toward zero. */
  function Truncate(x: real): int {
    if x >= 0.0 then x.Floor else -((-x).Floor)
  }

  /** `int(fps * frame_rate)` when the reported fps is positive, otherwise 1. */
  function FrameInterval(fps: real, frameRate: real): (interval: int)
    ensures fps > 0.0 && frameRate >= 0.0 ==>
      0 <= interval && interval as real <= fps * frameRate < interval as real + 1.0
    ensures fps <= 0.0 ==> interval == 1
  {
    if fps > 0.0 then Truncate(fps * frameRate) else 1
  }

  /** An interval truncates to zero exactly when less than one frame fits in the sampling period. */
  lemma FrameIntervalZero(fps: real, frameRate: real)
    requires fps > 0.0 && frameRate >= 0.0
    ensures FrameInterval(fps, frameRate) == 0 <==> fps * frameRate < 1.0
  {
  }

  /** The file name written for frame `i`. */
  function FrameFileName(i: nat): string {
    "frame_" + NatToString(i) + ".jpg"
  }

  /** A frame's timestamp in seconds, before rounding. */
  function FrameTime(i: nat, fps: real): real {
    if fps > 0.0 then i as real / fps else 0.0
  }

  datatype SavedFrame = SavedFrame(index: nat, fileName: string, time: real)

  function Saved(i: nat, fps: real): SavedFrame {
    SavedFrame(i, FrameFileName(i), FrameTime(i, fps))
  }

  /** The exception `frame_count % frame_interval` raises when the interval is 0. */
  datatype ExtractError = ZeroDivision

  /** The number of successful reads before the first failed one (reads past the end fail). */
  function ReadableFrames(outcomes: seq<bool>): (n: nat)
    ensures n <= |outcomes|
    ensures forall k :: 0 <= k < n ==> outcomes[k]
    ensures n < |outcomes| ==> !outcomes[n]
  {
    if |outcomes| == 0 || !outcomes[0] then 0 else 1 + ReadableFrames(outcomes[1..])
  }

  /** The frames kept among the first `n`: the indices `i < n` with `i % interval == 0`, ascending. */
  function SampledFrames(interval: int, fps: real, n: nat): (saved: seq<SavedFrame>)
    requires interval != 0
    ensures |saved| <= n
    ensures forall j :: 0 <= j < |saved| ==> saved[j].index < n
  {
    if n == 0 then []
    else SampledFrames(interval, fps, n - 1) + (if (n - 1) % interval == 0 then [Saved(n - 1, fps)] else [])
  }

  /**
   * What `extract_frames` returns: with a zero interval the first successful
   * read raises ZeroDivisionError; otherwise the sampled frames among the
   * frames read before the first failed read.
   */
  function ExtractedFrames(fps: real, frameRate: real, outcomes: seq<bool>): (r: Result<seq<SavedFrame>, ExtractError>)
    ensures r.Success? ==> |r.value| <= ReadableFrames(outcomes) <= |outcomes|
    ensures r.Success? ==> forall j :: 0 <= j < |r.value| ==> r.value[j].index < ReadableFrames(outcomes)
    ensures r.Failure? ==> r.error == ZeroDivision && FrameInterval(fps, frameRate) == 0
  {
    var interval := FrameInterval(fps, frameRate);
    if interval == 0 then
      (if ReadableFrames(outcomes) > 0 then Failure(ZeroDivision) else Success([]))
    else Success(SampledFrames(interval, fps, ReadableFrames(outcomes)))
  }

  /** `extract_frames`: the read loop, one frame per iteration, stopping at the first failed read. */
  method ExtractFrames(fps: real, frameRate: real, outcomes: seq<bool>) returns (r: Result<seq<SavedFrame>, ExtractError>)
    ensures r == ExtractedFrames(fps, frameRate, outcomes)
  {
    var interval := FrameInterval(fps, frameRate);
    var frameCount := 0;
    var saved := [];
    while true
      invariant frameCount <= ReadableFrames(outcomes)
      invariant interval != 0 ==> saved == SampledFrames(interval, fps, frameCount)
      invariant interval == 0 ==> frameCount == 0 && saved == []
      decreases |outcomes| - frameCount
    {
      var ret := frameCount < |outcomes| && outcomes[frameCount];
      if !ret {
        break;
      }
      if interval == 0 {
        return Failure(ZeroDivision);
      }
      if frameCount % interval == 0 {
        saved := saved + [Saved(frameCount, fps)];
      }
      frameCount := frameCount + 1;
    }
    return Success(saved);
  }

  lemma MulStrictMono(a: int, b: int, k: int)
    requires k > 0 && a < b
    ensures a * k < b * k
  {
    assert b * k - a * k == (b - a) * k;
  }

  lemma ModOfMultiple(c: int, k: int)
    requires k > 0
    ensures (c * k) % k == 0
  {
    DivFromBounds(c * k, k, c);
  }

  /** One more frame read: a multiple of the interval lands exactly at the next slot. */
  lemma CountStep(c: nat, k: int, n: nat)
    requires k >= 1 && n >= 1
    requires c * k >= n - 1 && (c == 0 || (c - 1) * k < n - 1)
    ensures (n - 1) % k == 0 ==> c * k == n - 1
    ensures (n - 1) % k != 0 ==> c * k >= n
  {
    ModOfMultiple(c, k);
    if (n - 1) % k == 0 {
      var m := (n - 1) / k;
      assert n - 1 == m * k;
      assert (c + 1) * k == c * k + k;
      MulCancelLt(m, c + 1, k);
      if c > 0 {
        MulCancelLt(c - 1, m, k);
      }
    }
  }

  /**
   * The `j`-th kept frame is frame `j * interval`, and the number kept is the
   * least `c` with `c * interval >= n`, that is, the ceiling of `n / interval`.
   */
  lemma {:induction false} SampledFramesAreMultiples(interval: int, fps: real, n: nat)
    requires interval >= 1
    ensures var s := SampledFrames(interval, fps, n);
      && (forall j :: 0 <= j < |s| ==> s[j] == Saved(j * interval, fps))
      && |s| * interval >= n
      && (|s| == 0 || (|s| - 1) * interval < n)
  {
    if n > 0 {
      SampledFramesAreMultiples(interval, fps, n - 1);
      var prev := SampledFrames(interval, fps, n - 1);
      var c := |prev|;
      CountStep(c, interval, n);
      if (n - 1) % interval == 0 {
        var s := prev + [Saved(c * interval, fps)];
        assert SampledFrames(interval, fps, n) == s;
        assert (c + 1) * interval == c * interval + interval;
        forall j | 0 <= j < |s|
          ensures s[j] == Saved(j * interval, fps)
        {
          if j < c {
            assert s[j] == prev[j];
          }
        }
      } else {
        assert SampledFrames(interval, fps, n) == prev;
      }
    }
  }

  /** Multiplying by a positive factor reflects strict order. */
  lemma MulCancelLt(x: int, y: int, k: int)
    requires k > 0 && x * k < y * k
    ensures x < y
  {
    assert (y - x) * k == y * k - x * k;
  }

  lemma DivFromBounds(a: int, k: int, c: int)
    requires k > 0 && c * k <= a < c * k + k
    ensures a / k == c
  {
    var q, r := a / k, a % k;
    assert a == q * k + r && 0 <= r < k;
    assert (c + 1) * k == c * k + k;
    assert (q + 1) * k == q * k + k;
    MulCancelLt(q, c + 1, k);
    MulCancelLt(c, q + 1, k);
  }

  lemma DivStrictMono(a: real, b: real, d: real)
    requires a < b && d > 0.0
    ensures a / d < b / d
  {
    assert b / d - a / d == (b - a) / d;
    assert (b - a) / d * d == b - a;
  }

  /** `n` frames read with interval `k` keep ceil(n / k) frames, and frame 0 whenever `n >= 1`. */
  lemma SampledFrameCount(interval: int, fps: real, n: nat)
    requires interval >= 1
    ensures |SampledFrames(interval, fps, n)| == (n + interval - 1) / interval
    ensures n >= 1 ==> |SampledFrames(interval, fps, n)| >= 1 && SampledFrames(interval, fps, n)[0].index == 0
  {
    SampledFramesAreMultiples(interval, fps, n);
    var c := |SampledFrames(interval, fps, n)|;
    if c == 0 {
      assert n == 0;
      DivFromBounds(n + interval - 1, interval, 0);
    } else {
      assert (c - 1) * interval == c * interval - interval;
      DivFromBounds(n + interval - 1, interval, c);
    }
  }

  /** A frame is kept exactly when its index is below `n` and a multiple of the interval. */
  lemma {:induction false} SampledFramesMembership(interval: int, fps: real, n: nat, i: nat)
    requires interval != 0
    ensures Saved(i, fps) in SampledFrames(interval, fps, n) <==> i < n && i % interval == 0
  {
    if n > 0 {
      SampledFramesMembership(interval, fps, n - 1, i);
    }
  }

  /** Kept frames are in ascending index order, so their file names are pairwise distinct. */
  lemma SampledFileNamesDistinct(interval: int, fps: real, n: nat, j1: nat, j2: nat)
    requires interval >= 1
    requires j1 < j2 < |SampledFrames(interval, fps, n)|
    ensures SampledFrames(interval, fps, n)[j1].index < SampledFrames(interval, fps, n)[j2].index
    ensures SampledFrames(interval, fps, n)[j1].fileName != SampledFrames(interval, fps, n)[j2].fileName
  {
    SampledFramesAreMultiples(interval, fps, n);
    MulStrictMono(j1, j2, interval);
    var a, b := j1 * interval, j2 * interval;
    if FrameFileName(a) == FrameFileName(b) {
      NumberedNameInjective("frame_", ".jpg", a, b);
    }
  }

  /** With a positive fps the kept frames' timestamps strictly increase; otherwise all are 0. */
  lemma SampledTimesAscending(interval: int, fps: real, n: nat, j1: nat, j2: nat)
    requires interval >= 1
    requires j1 < j2 < |SampledFrames(interval, fps, n)|
    ensures fps > 0.0 ==> SampledFrames(interval, fps, n)[j1].time < SampledFrames(interval, fps, n)[j2].time
    ensures fps <= 0.0 ==> SampledFrames(interval, fps, n)[j1].time == SampledFrames(interval, fps, n)[j2].time == 0.0
  {
    var s := SampledFrames(interval, fps, n);
    SampledFileNamesDistinct(interval, fps, n, j1, j2);
    SampledFramesAreMultiples(interval, fps, n);
    assert s[j1] == Saved(s[j1].index, fps) && s[j2] == Saved(s[j2].index, fps);
    if fps > 0.0 {
      DivStrictMono(s[j1].index as real, s[j2].index as real, fps);
    }
  }
}
