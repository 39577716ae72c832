/**
 * Orientation of an uploaded video from its probed dimensions (`getVideoAspectRatio`).
 *
 * The source computes `float64(width) / float64(height)` and compares it with 16/9 and then
 * 9/16 under an absolute tolerance of 0.01. Here the same test is written over integers, in exact
 * arithmetic, and a lemma shows it is the real-number band test. A zero height gives `other`:
 * in floating point the quotient is an infinity or NaN and every comparison with it is false.
 */
module AspectRatio {

  /** One entry of ffprobe's `streams` array; a stream without dimensions decodes as width and height 0. */
  datatype Stream = Stream(width: int, height: int)

  /** What running ffprobe and decoding its JSON output produced. */
  datatype ProbeOutput =
    | CommandFailed                     // ffprobe could not be run or exited with an error
    | UnmarshalFailed                   // its output was not the expected JSON
    | Decoded(streams: seq<Stream>)

  /** The outcome of `getVideoAspectRatio`. */
  datatype Probe =
    | Orientation(name: string)
    | ProbeError                        // an error returned to the caller
    | NoStreams                         // the stream list was empty: the source indexes it and panics

  const Landscape: string := "landscape"
  const Portrait: string := "portrait"
  const Other: string := "other"

  function Abs(x: int): nat
  {
    if x < 0 then -x else x
  }

  /** |w/h - 16/9| < 1/100, multiplied through by 900|h|. */
  predicate NearSixteenByNine(w: int, h: int)
  {
    h != 0 && Abs(900 * w - 1600 * h) < 9 * Abs(h)
  }

  /** |w/h - 9/16| < 1/100, multiplied through by 1600|h|. */
  predicate NearNineBySixteen(w: int, h: int)
  {
    h != 0 && Abs(1600 * w - 900 * h) < 16 * Abs(h)
  }

  /** The classification, in the order the source tests: 16/9 first, then 9/16. */
  function Classify(w: int, h: int): (r: string)
    ensures r == Landscape || r == Portrait || r == Other
    ensures r == Landscape <==> NearSixteenByNine(w, h)
    ensures r == Portrait <==> NearNineBySixteen(w, h)
  {
    BandsDisjoint(w, h);
    if NearSixteenByNine(w, h) then Landscape
    else if NearNineBySixteen(w, h) then Portrait
    else Other
  }

  /** No width and height are within tolerance of both ratios. */
  lemma BandsDisjoint(w: int, h: int)
    ensures !(NearSixteenByNine(w, h) && NearNineBySixteen(w, h))
  {
  }

  /** The same classification with the two bands checked in the other order. */
  function ClassifyPortraitFirst(w: int, h: int): string
  {
    if NearNineBySixteen(w, h) then Portrait
    else if NearSixteenByNine(w, h) then Landscape
    else Other
  }

  /** Because the bands are disjoint, the order of the two tests does not matter. */
  lemma TestOrderIrrelevant(w: int, h: int)
    ensures Classify(w, h) == ClassifyPortraitFirst(w, h)
  {
    BandsDisjoint(w, h);
  }

  function RealAbs(x: real): real
  {
    if x < 0.0 then -x else x
  }

  /** The tolerance test on the exact quotient: |w/h - target| < 0.01. */
  ghost predicate WithinTolerance(w: int, h: int, target: real)
  {
    h != 0 && RealAbs(w as real / h as real - target) < 0.01
  }

  /** |x / d| < c exactly when |x| < c |d|, for d not zero. */
  lemma QuotientBound(x: real, d: real, c: real)
    requires d != 0.0
    ensures RealAbs(x / d) < c <==> RealAbs(x) < c * RealAbs(d)
  {
    var q := x / d;
    assert x == q * d;
    assert RealAbs(x) == RealAbs(q) * RealAbs(d);
    if RealAbs(q) < c {
      assert RealAbs(q) * RealAbs(d) < c * RealAbs(d);
    }
    if RealAbs(x) < c * RealAbs(d) {
      assert RealAbs(q) * RealAbs(d) < c * RealAbs(d);
    }
  }

  lemma Unscale(y: real, x: real, d: real)
    requires d != 0.0 && y * d == x
    ensures y == x / d
  {
  }

  /** The integer landscape test is the source's tolerance test on the exact ratio. */
  lemma LandscapeIsRatioBand(w: int, h: int)
    ensures NearSixteenByNine(w, h) <==> WithinTolerance(w, h, 16.0 / 9.0)
  {
    if h != 0 {
      var d := 900.0 * h as real;
      var x := (900 * w - 1600 * h) as real;
      var ratio := w as real / h as real;
      assert ratio * h as real == w as real;
      assert (ratio - 16.0 / 9.0) * d == x;
      Unscale(ratio - 16.0 / 9.0, x, d);
      QuotientBound(x, d, 0.01);
      assert RealAbs(d) == 900.0 * (Abs(h) as real);
      assert RealAbs(x) == Abs(900 * w - 1600 * h) as real;
    }
  }

  /** The integer portrait test is the source's tolerance test on the exact ratio. */
  lemma PortraitIsRatioBand(w: int, h: int)
    ensures NearNineBySixteen(w, h) <==> WithinTolerance(w, h, 9.0 / 16.0)
  {
    if h != 0 {
      var d := 1600.0 * h as real;
      var x := (1600 * w - 900 * h) as real;
      var ratio := w as real / h as real;
      assert ratio * h as real == w as real;
      assert (ratio - 9.0 / 16.0) * d == x;
      Unscale(ratio - 9.0 / 16.0, x, d);
      QuotientBound(x, d, 0.01);
      assert RealAbs(d) == 1600.0 * (Abs(h) as real);
      assert RealAbs(x) == Abs(1600 * w - 900 * h) as real;
    }
  }

  /** The classification stated on exact ratios. */
  lemma ClassifyByRatio(w: int, h: int)
    ensures Classify(w, h) == Landscape <==> WithinTolerance(w, h, 16.0 / 9.0)
    ensures Classify(w, h) == Portrait <==> WithinTolerance(w, h, 9.0 / 16.0)
    ensures Classify(w, h) == Other <==> !WithinTolerance(w, h, 16.0 / 9.0) && !WithinTolerance(w, h, 9.0 / 16.0)
  {
    LandscapeIsRatioBand(w, h);
    PortraitIsRatioBand(w, h);
  }

  /** `getVideoAspectRatio` after ffprobe: only the first stream's dimensions are used. */
  function VideoAspectRatio(p: ProbeOutput): (r: Probe)
    ensures r.Orientation? <==> p.Decoded? && |p.streams| > 0
    ensures r.Orientation? ==> r.name == Classify(p.streams[0].width, p.streams[0].height)
    ensures r.NoStreams? <==> p == Decoded([])
  {
    match p
    case CommandFailed => ProbeError
    case UnmarshalFailed => ProbeError
    case Decoded(streams) =>
      if |streams| == 0 then NoStreams
      else Orientation(Classify(streams[0].width, streams[0].height))
  }

  /** Streams after the first never change the result. */
  lemma LaterStreamsIgnored(first: Stream, rest: seq<Stream>, more: seq<Stream>)
    ensures VideoAspectRatio(Decoded([first] + rest + more)) == VideoAspectRatio(Decoded([first]))
  {
  }

  /** The examples: 1920x1080 is landscape, 1080x1920 portrait, 1000x1000 other, height 0 other. */
  lemma Examples()
    ensures Classify(1920, 1080) == Landscape
    ensures Classify(1080, 1920) == Portrait
    ensures Classify(1000, 1000) == Other
    ensures Classify(1920, 0) == Other && Classify(0, 0) == Other
  {
  }
}
