/** Pixels, the colour quantiser, and the pixel-level meaning of a trace. */
module Raster {
  import opened Options

  datatype Rgb = Rgb(red: int, green: int, blue: int)
  datatype Point = Point(x: int, y: int)

  const HALO_LUMINANCE_FLOOR := 195
  const HALO_MAX_CHANNEL_SPREAD := 20
  const WHITE := Rgb(255, 255, 255)

  function Min(a: int, b: int): int { if a < b then a else b }
  function Max(a: int, b: int): int { if a < b then b else a }

  predicate Channel(c: int) { 0 <= c <= 255 }

  /** Rounds a channel to one of the levels 0, 32, ..., 224, 255. */
  function NearestLevel(channel: int): int {
    Min(255, (channel + 16) / 32 * 32)
  }

  /** _vector_trace_color; the luminance average is compared without dividing. */
  function TraceColor(value: Rgb): Option<Rgb> {
    var low := Min(value.red, Min(value.green, value.blue));
    var high := Max(value.red, Max(value.green, value.blue));
    if low >= 248 then None
    else if high - low <= HALO_MAX_CHANNEL_SPREAD
         && value.red + value.green + value.blue >= 3 * HALO_LUMINANCE_FLOOR then None
    else Some(Rgb(NearestLevel(value.red), NearestLevel(value.green), NearestLevel(value.blue)))
  }

  predicate Level(c: int) { c == 255 || (0 <= c <= 224 && c % 32 == 0) }

  function Distance(a: int, b: int): nat { if a < b then b - a else a - b }

  /** The quantiser picks a closest level, the brighter one on a tie, and leaves levels alone. */
  lemma NearestLevelIsClosest(c: int, other: int)
    requires Channel(c) && Level(other)
    ensures Level(NearestLevel(c))
    ensures Distance(c, NearestLevel(c)) <= Distance(c, other)
    ensures Distance(c, NearestLevel(c)) == Distance(c, other) ==> other <= NearestLevel(c)
    ensures Level(c) ==> NearestLevel(c) == c
  {
    assert 0 <= (c + 16) / 32 <= 8;
    if other != 255 {
      var k := other / 32;
      assert other == 32 * k;
    }
  }

  predicate IsPixel(value: Rgb) { Channel(value.red) && Channel(value.green) && Channel(value.blue) }

  /** A pixel that leaves no trace: all but white, or bright with hardly any colour. */
  predicate Suppressed(value: Rgb) {
    || (value.red >= 248 && value.green >= 248 && value.blue >= 248)
    || (Distance(value.red, value.green) <= 20 && Distance(value.green, value.blue) <= 20
        && Distance(value.red, value.blue) <= 20 && value.red + value.green + value.blue >= 585)
  }

  /** `shown` is a level, none is closer to `channel`, and no brighter one is as close. */
  ghost predicate ClosestLevel(channel: int, shown: int) {
    Level(shown) && forall other :: Level(other) ==>
      Distance(channel, shown) <= Distance(channel, other)
      && (Distance(channel, shown) == Distance(channel, other) ==> other <= shown)
  }

  /** Each channel of `shown` stands for the same channel of `value`. */
  ghost predicate Stands(value: Rgb, shown: Rgb) {
    ClosestLevel(value.red, shown.red) && ClosestLevel(value.green, shown.green) && ClosestLevel(value.blue, shown.blue)
  }

  lemma LevelIsClosest(c: int)
    requires Channel(c)
    ensures ClosestLevel(c, NearestLevel(c))
  {
    NearestLevelIsClosest(c, 0);
    forall other | Level(other)
      ensures Distance(c, NearestLevel(c)) <= Distance(c, other)
      ensures Distance(c, NearestLevel(c)) == Distance(c, other) ==> other <= NearestLevel(c)
    {
      NearestLevelIsClosest(c, other);
    }
  }

  lemma SpreadIsPairwise(a: int, b: int, c: int)
    ensures Max(a, Max(b, c)) - Min(a, Min(b, c)) <= 20 <==>
      Distance(a, b) <= 20 && Distance(b, c) <= 20 && Distance(a, c) <= 20
    ensures Min(a, Min(b, c)) >= 248 <==> a >= 248 && b >= 248 && c >= 248
  {
  }

  /** What becomes of a pixel, whichever way it is computed. */
  lemma TraceColorIsExact(value: Rgb)
    requires IsPixel(value)
    ensures TraceColor(value).None? <==> Suppressed(value)
    ensures TraceColor(value).Some? ==> Stands(value, TraceColor(value).value)
  {
    hide ClosestLevel, NearestLevel, Min, Max, Distance, Channel;
    SpreadIsPairwise(value.red, value.green, value.blue);
    LevelIsClosest(value.red);
    LevelIsClosest(value.green);
    LevelIsClosest(value.blue);
  }

  /** An image after compositing and scaling: `height` rows of `width` pixels. */
  datatype Image = Image(width: nat, height: nat, rows: seq<seq<Rgb>>) {
    ghost predicate Valid() {
      |rows| == height && forall y :: 0 <= y < height ==> |rows[y]| == width
    }

    ghost predicate In(x: int, y: int) { 0 <= x < width && 0 <= y < height }

    function At(x: int, y: int): Option<Rgb>
      requires Valid() && In(x, y)
    {
      TraceColor(rows[y][x])
    }

    ghost predicate Traceable(p: Point)
      requires Valid()
    {
      In(p.x, p.y) && At(p.x, p.y).Some?
    }

    /** What the raster looks like after quantisation, on a white page. */
    function Quantised(x: int, y: int): Rgb
      requires Valid() && In(x, y)
    {
      match At(x, y) case Some(c) => c case None => WHITE
    }
  }

  /** Two traceable pixels belong together when at most one pixel separates them sideways, in one row or the next. */
  ghost function PixelStep(img: Image): (Point, Point) -> bool
    requires img.Valid()
  {
    (p: Point, q: Point) =>
      img.Valid() && img.Traceable(p) && img.Traceable(q) && -2 <= p.x - q.x <= 2 && -1 <= p.y - q.y <= 1
  }
}
