/** Reading frames of an encoded video: the frames asked for are cut into intervals of keyframes that can
be read and decoded in one go. */
module Video {
  import opened Rows

  /** Decode from keyframe number `start` up to before keyframe number `end`, and keep `frames`. */
  datatype VideoInterval = VideoInterval(start: nat, end: nat, frames: seq<int>)

  /** Keyframe positions, with the number of frames as the last one. */
  ghost predicate KeyframesOk(keyframes: seq<int>, offsets: seq<int>, sizes: seq<int>) {
    && |keyframes| >= 2 && keyframes[0] == 0 && Ascending(keyframes)
    && |offsets| == |sizes| == keyframes[|keyframes| - 1]
  }

  /** The frame before keyframe `j` ends where keyframe `j` begins. */
  predicate AdjacentAt(keyframes: seq<int>, offsets: seq<int>, sizes: seq<int>, j: nat)
    requires j < |keyframes| && 0 < keyframes[j] < |offsets| && |sizes| == |offsets|
  {
    offsets[keyframes[j] - 1] + sizes[keyframes[j] - 1] == offsets[keyframes[j]]
  }

  /** The keyframes inside an interval are adjacent to what comes before them. */
  ghost predicate Contiguous(keyframes: seq<int>, offsets: seq<int>, sizes: seq<int>, start: nat, end: nat)
    requires KeyframesOk(keyframes, offsets, sizes)
  {
    && start < end < |keyframes|
    && forall j | start < j < end :: 0 < keyframes[j] < |offsets| && AdjacentAt(keyframes, offsets, sizes, j)
  }

  ghost predicate IntervalOk(keyframes: seq<int>, offsets: seq<int>, sizes: seq<int>, v: VideoInterval)
    requires KeyframesOk(keyframes, offsets, sizes)
  {
    && Contiguous(keyframes, offsets, sizes, v.start, v.end)
    && forall f | f in v.frames :: keyframes[v.start] <= f < keyframes[v.end]
  }

  function AllFrames(vs: seq<VideoInterval>, k: nat): seq<int>
    requires k <= |vs|
  {
    if k == 0 then [] else AllFrames(vs, k - 1) + vs[k - 1].frames
  }

  lemma {:induction false} AllFramesFrame(a: seq<VideoInterval>, b: seq<VideoInterval>, k: nat)
    requires k <= |a| && k <= |b| && forall i | 0 <= i < k :: a[i] == b[i]
    ensures AllFrames(a, k) == AllFrames(b, k)
  {
    if k > 0 { AllFramesFrame(a, b, k - 1); }
  }

  lemma IntervalAdded(vs: seq<VideoInterval>, v: VideoInterval)
    ensures AllFrames(vs + [v], |vs| + 1) == AllFrames(vs, |vs|) + v.frames
  {
    AllFramesFrame(vs + [v], vs, |vs|);
  }

  lemma KeyframeInside(keyframes: seq<int>, offsets: seq<int>, sizes: seq<int>, j: nat)
    requires KeyframesOk(keyframes, offsets, sizes) && 0 < j < |keyframes| - 1
    ensures 0 < keyframes[j] < |offsets|
  {
    assert keyframes[0] < keyframes[j] < keyframes[|keyframes| - 1];
  }

  /** Finds the keyframe interval of a row from keyframe number `from` on. */
  method SkipKeyframes(keyframes: seq<int>, from: nat, row: int) returns (end: nat)
    requires Ascending(keyframes) && 0 < from < |keyframes| && keyframes[from - 1] <= row < keyframes[|keyframes| - 1]
    ensures from <= end < |keyframes| && keyframes[end - 1] <= row < keyframes[end]
  {
    end := from;
    while row >= keyframes[end]
      invariant from <= end < |keyframes| && keyframes[end - 1] <= row
      decreases |keyframes| - end
    {
      end := end + 1;
    }
  }

  /** Opens or extends the interval for `row`, which lies at or behind keyframe number `open.end`. */
  method NextInterval(keyframes: seq<int>, offsets: seq<int>, sizes: seq<int>, vs: seq<VideoInterval>,
                      open: VideoInterval, row: int)
    returns (vs': seq<VideoInterval>, open': VideoInterval)
    requires KeyframesOk(keyframes, offsets, sizes) && IntervalOk(keyframes, offsets, sizes, open)
    requires keyframes[open.end] <= row < keyframes[|keyframes| - 1]
    ensures IntervalOk(keyframes, offsets, sizes, open') && keyframes[open'.end - 1] <= row < keyframes[open'.end]
    ensures keyframes[open'.start] <= row
    ensures (vs' == vs && open'.frames == open.frames) || (vs' == vs + [open] && open'.frames == [])
  {
    vs', open' := vs, open;
    KeyframeInside(keyframes, offsets, sizes, open.end);
    var adjacent := AdjacentAt(keyframes, offsets, sizes, open.end);
    var end := open.end + 1;
    if row >= keyframes[end] || !adjacent {
      if open.frames != [] {
        vs' := vs + [open];
      }
      end := SkipKeyframes(keyframes, end, row);
      open' := VideoInterval(end - 1, end, []);
    } else {
      assert forall f | f in open.frames :: f < keyframes[open.end] < keyframes[end];
      open' := open.(end := end);
      assert keyframes[open.start] <= keyframes[open.end];
    }
  }

  /** The closed intervals and the open one hold the first `k` rows. */
  ghost predicate Gathered(keyframes: seq<int>, offsets: seq<int>, sizes: seq<int>, rows: seq<int>, k: nat,
                           vs: seq<VideoInterval>, open: VideoInterval)
    requires KeyframesOk(keyframes, offsets, sizes)
  {
    && k <= |rows| && IntervalOk(keyframes, offsets, sizes, open)
    && (forall i | 0 <= i < |vs| :: IntervalOk(keyframes, offsets, sizes, vs[i]))
    && AllFrames(vs, |vs|) + open.frames == rows[..k]
  }

  lemma FrameAdded(keyframes: seq<int>, offsets: seq<int>, sizes: seq<int>, rows: seq<int>, k: nat,
                   vs: seq<VideoInterval>, open: VideoInterval, bigger: VideoInterval)
    requires KeyframesOk(keyframes, offsets, sizes) && Gathered(keyframes, offsets, sizes, rows, k, vs, open) &&
             k < |rows|
    requires keyframes[open.start] <= rows[k] < keyframes[open.end] &&
             bigger == open.(frames := open.frames + [rows[k]])
    ensures Gathered(keyframes, offsets, sizes, rows, k + 1, vs, bigger)
  {
    assert rows[..k + 1] == rows[..k] + [rows[k]];
    assert AllFrames(vs, |vs|) + (open.frames + [rows[k]]) == (AllFrames(vs, |vs|) + open.frames) + [rows[k]];
  }

  lemma IntervalClosed(keyframes: seq<int>, offsets: seq<int>, sizes: seq<int>, rows: seq<int>, k: nat,
                       vs: seq<VideoInterval>, open: VideoInterval, vs': seq<VideoInterval>, open': VideoInterval)
    requires KeyframesOk(keyframes, offsets, sizes) && Gathered(keyframes, offsets, sizes, rows, k, vs, open)
    requires IntervalOk(keyframes, offsets, sizes, open')
    requires (vs' == vs && open'.frames == open.frames) || (vs' == vs + [open] && open'.frames == [])
    ensures Gathered(keyframes, offsets, sizes, rows, k, vs', open')
  {
    IntervalAdded(vs, open);
  }

  /** `slice_into_video_intervals`: for ascending rows, the frames of the intervals are the rows asked for,
  in order, every frame lies between the keyframes of its interval, and every keyframe inside an interval
  is adjacent in the file to the frame before it. */
  method SliceVideo(keyframes: seq<int>, offsets: seq<int>, sizes: seq<int>, rows: seq<int>)
    returns (vs: seq<VideoInterval>)
    requires KeyframesOk(keyframes, offsets, sizes) && Ascending(rows)
    requires forall i | 0 <= i < |rows| :: 0 <= rows[i] < keyframes[|keyframes| - 1]
    ensures forall i | 0 <= i < |vs| :: IntervalOk(keyframes, offsets, sizes, vs[i])
    ensures AllFrames(vs, |vs|) == rows
  {
    vs := [];
    var open := VideoInterval(0, 1, []);
    for k := 0 to |rows|
      invariant Gathered(keyframes, offsets, sizes, rows, k, vs, open)
      invariant forall i | k <= i < |rows| :: keyframes[open.start] <= rows[i]
    {
      if rows[k] >= keyframes[open.end] {
        var vs', open' := NextInterval(keyframes, offsets, sizes, vs, open, rows[k]);
        IntervalClosed(keyframes, offsets, sizes, rows, k, vs, open, vs', open');
        vs, open := vs', open';
      }
      FrameAdded(keyframes, offsets, sizes, rows, k, vs, open, open.(frames := open.frames + [rows[k]]));
      open := open.(frames := open.frames + [rows[k]]);
    }
    IntervalAdded(vs, open);
    vs := vs + [open];
    assert rows[..|rows|] == rows;
  }
}
