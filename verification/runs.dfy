/** Horizontal runs, when two of them are neighbours, and what run connectivity says about pixels. */
module Runs {
  import opened Options
  import opened Links
  import opened Raster

  /** One run: row, first column, column past the last, quantised colour. */
  datatype Run = Run(y: nat, start: nat, end: nat, color: Rgb)

  ghost predicate Covers(r: Run, x: int, y: int) { r.y == y && r.start <= x < r.end }

  ghost predicate Before(a: Run, b: Run) { a.y < b.y || (a.y == b.y && a.end <= b.start) }

  ghost predicate Ordered(runs: seq<Run>) {
    forall i, j :: 0 <= i < j < |runs| ==> Before(runs[i], runs[j])
  }

  /** Non-empty runs in raster order. */
  ghost predicate Shaped(runs: seq<Run>) {
    Ordered(runs) && forall k :: 0 <= k < |runs| ==> runs[k].start < runs[k].end
  }

  /** A non-empty stretch of pixels of the run's own colour. */
  ghost predicate Exact(img: Image, r: Run)
    requires img.Valid()
  {
    && r.y < img.height && r.start < r.end <= img.width
    && forall x :: r.start <= x < r.end ==> img.At(x, r.y) == Some(r.color)
  }

  /** Touching runs of one row differ in colour, so no run could have been longer. */
  ghost predicate Maximal(runs: seq<Run>) {
    forall i, j :: 0 <= i < j < |runs| && runs[i].y == runs[j].y && runs[i].end == runs[j].start
      ==> runs[i].color != runs[j].color
  }

  ghost predicate Passed(x: int, y: int, atX: nat, atY: nat) { y < atY || (y == atY && x < atX) }

  ghost predicate CoveredBefore(img: Image, runs: seq<Run>, atX: nat, atY: nat)
    requires img.Valid()
  {
    forall x, y :: img.In(x, y) && Passed(x, y, atX, atY) && img.At(x, y).Some?
      ==> exists i :: 0 <= i < |runs| && Covers(runs[i], x, y)
  }

  /** No run ending at the cursor could be continued by the pixel under the cursor. */
  ghost predicate Closed(img: Image, runs: seq<Run>, atX: nat, atY: nat)
    requires img.Valid()
  {
    forall i :: 0 <= i < |runs| && runs[i].y == atY && runs[i].end == atX && img.In(atX, atY)
      ==> img.At(atX, atY) != Some(runs[i].color)
  }

  /** `runs` is the run-length encoding of all pixels in front of the raster position (atX, atY). */
  ghost predicate Encodes(img: Image, runs: seq<Run>, atX: nat, atY: nat)
    requires img.Valid()
  {
    && (forall i :: 0 <= i < |runs| ==>
         Exact(img, runs[i]) && (runs[i].y < atY || (runs[i].y == atY && runs[i].end <= atX)))
    && Ordered(runs)
    && Maximal(runs)
    && Closed(img, runs, atX, atY)
    && CoveredBefore(img, runs, atX, atY)
  }

  lemma NextRow(img: Image, runs: seq<Run>, y: nat)
    requires img.Valid() && y < img.height && Encodes(img, runs, img.width, y)
    ensures Encodes(img, runs, 0, y + 1)
  {
  }

  /** A suppressed pixel moves the cursor on and changes nothing. */
  lemma SkipPixel(img: Image, runs: seq<Run>, x: nat, y: nat)
    requires img.Valid() && img.In(x, y) && Encodes(img, runs, x, y) && img.At(x, y).None?
    ensures Encodes(img, runs, x + 1, y)
  {
  }

  lemma AddRun(img: Image, runs: seq<Run>, start: nat, r: Run)
    requires img.Valid() && img.In(start, r.y) && Encodes(img, runs, start, r.y)
    requires r.start == start && Exact(img, r)
    requires img.In(r.end, r.y) ==> img.At(r.end, r.y) != Some(r.color)
    ensures Encodes(img, runs + [r], r.end, r.y)
  {
    var after := runs + [r];
    assert img.At(start, r.y) == Some(r.color);
    forall px, py | img.In(px, py) && Passed(px, py, r.end, r.y) && img.At(px, py).Some?
      ensures exists i :: 0 <= i < |after| && Covers(after[i], px, py)
    {
      if Passed(px, py, start, r.y) {
        var i :| 0 <= i < |runs| && Covers(runs[i], px, py);
        assert Covers(after[i], px, py);
      } else {
        assert Covers(after[|runs|], px, py);
      }
    }
  }

  /** At most one pixel of gap sideways, in the same row or in consecutive rows. */
  ghost predicate Near(a: Run, b: Run) {
    -1 <= a.y - b.y <= 1 && a.start <= b.end + 1 && b.start <= a.end + 1
  }

  ghost function RunStep(runs: seq<Run>): (nat, nat) -> bool {
    (i: nat, j: nat) => i < |runs| && j < |runs| && Near(runs[i], runs[j])
  }

  ghost predicate Joined(runs: seq<Run>, i: nat, j: nat) { Linked(RunStep(runs), i, j) }

  lemma JoinedSym(runs: seq<Run>, i: nat, j: nat)
    requires Joined(runs, i, j)
    ensures Joined(runs, j, i)
  {
    Sym(RunStep(runs), i, j);
  }

  lemma JoinedTrans(runs: seq<Run>, i: nat, j: nat, k: nat)
    requires Joined(runs, i, j) && Joined(runs, j, k)
    ensures Joined(runs, i, k)
  {
    Trans(RunStep(runs), i, j, k);
  }

  /** More runs never cut a chain. */
  lemma JoinedGrows(runs: seq<Run>, more: seq<Run>, i: nat, j: nat)
    requires Joined(runs, i, j)
    ensures Joined(runs + more, i, j)
  {
    var after := runs + more;
    forall a, b | RunStep(runs)(a, b) ensures Linked(RunStep(after), a, b) {
      One(RunStep(after), a, b);
    }
    var p :| Walk(RunStep(runs), i, p, j);
    MapWalk(RunStep(runs), RunStep(after), (k: nat) => k, i, p, j);
  }

  /** Every run between two runs of a row takes at least one column. */
  lemma {:induction false} Spread(runs: seq<Run>, i: nat, j: nat)
    requires Shaped(runs) && i < j < |runs| && runs[i].y == runs[j].y
    ensures runs[j].start - runs[i].end >= j - i - 1
    ensures forall k :: i <= k <= j ==> runs[k].y == runs[i].y
    decreases j - i
  {
    if i + 1 < j {
      assert Before(runs[i], runs[j - 1]) && Before(runs[j - 1], runs[j]);
      Spread(runs, i, j - 1);
    }
  }

  /** In a row, runs that are near but not consecutive are bridged by a one-pixel run between them. */
  lemma GapIsBridged(runs: seq<Run>, i: nat, j: nat)
    requires Shaped(runs) && i + 1 < j < |runs| && runs[i].y == runs[j].y && Near(runs[i], runs[j])
    ensures j == i + 2 && runs[i + 1].y == runs[i].y && Near(runs[i], runs[i + 1]) && Near(runs[i + 1], runs[j])
  {
    Spread(runs, i, j);
    assert Before(runs[i], runs[i + 1]) && Before(runs[i + 1], runs[j]);
  }

  // ----- Runs and pixels

  lemma {:induction false} AlongRun(img: Image, r: Run, a: nat, b: nat)
    requires img.Valid() && Exact(img, r) && r.start <= a <= b < r.end
    ensures Linked(PixelStep(img), Point(a, r.y), Point(b, r.y))
    decreases b - a
  {
    if a == b {
      Refl(PixelStep(img), Point(a, r.y));
    } else {
      AlongRun(img, r, a + 1, b);
      assert img.Traceable(Point(a, r.y)) && img.Traceable(Point(a + 1, r.y));
      One(PixelStep(img), Point(a, r.y), Point(a + 1, r.y));
      Trans(PixelStep(img), Point(a, r.y), Point(a + 1, r.y), Point(b, r.y));
    }
  }

  lemma PixelSym(img: Image, p: Point, q: Point)
    requires img.Valid() && Linked(PixelStep(img), p, q)
    ensures Linked(PixelStep(img), q, p)
  {
    Sym(PixelStep(img), p, q);
  }

  lemma WithinRun(img: Image, r: Run, p: Point, q: Point)
    requires img.Valid() && Exact(img, r) && Covers(r, p.x, p.y) && Covers(r, q.x, q.y)
    ensures Linked(PixelStep(img), p, q)
  {
    if p.x <= q.x {
      AlongRun(img, r, p.x, q.x);
    } else {
      AlongRun(img, r, q.x, p.x);
      PixelSym(img, q, p);
    }
  }

  /** A pixel of one run and a pixel of the other are within the gap that the tracer bridges. */
  ghost predicate Touch(img: Image, a: Run, b: Run)
    requires img.Valid()
  {
    exists p: Point, q: Point :: Covers(a, p.x, p.y) && Covers(b, q.x, q.y) && PixelStep(img)(p, q)
  }

  /** The interval tests on two runs ask for such a pair of pixels. */
  lemma NearIsTouching(img: Image, a: Run, b: Run)
    requires img.Valid() && Exact(img, a) && Exact(img, b)
    ensures Near(a, b) <==> Touch(img, a, b)
  {
    if Near(a, b) {
      var x := if a.end <= b.start then a.end - 1 else if b.start < a.start then a.start else b.start;
      var z := if x < b.start then b.start else if b.end <= x then b.end - 1 else x;
      var p, q := Point(x, a.y), Point(z, b.y);
      assert img.Traceable(p) && img.Traceable(q) && PixelStep(img)(p, q);
    }
  }

  /** Neighbouring runs hold neighbouring pixels. */
  lemma NearRunsTouch(img: Image, a: Run, b: Run)
    requires img.Valid() && Exact(img, a) && Exact(img, b) && Near(a, b)
    ensures Linked(PixelStep(img), Point(a.start, a.y), Point(b.start, b.y))
  {
    NearIsTouching(img, a, b);
    var q: Point, s: Point :| Covers(a, q.x, q.y) && Covers(b, s.x, s.y) && PixelStep(img)(q, s);
    var p, t := Point(a.start, a.y), Point(b.start, b.y);
    WithinRun(img, a, p, q);
    One(PixelStep(img), q, s);
    WithinRun(img, b, s, t);
    Trans(PixelStep(img), p, q, s);
    Trans(PixelStep(img), p, s, t);
  }

  /** The complete encoding of an image. */
  ghost predicate EncodesAll(img: Image, runs: seq<Run>)
    requires img.Valid()
  {
    Encodes(img, runs, 0, img.height)
  }

  lemma RunOf(img: Image, runs: seq<Run>, p: Point) returns (i: nat)
    requires img.Valid() && EncodesAll(img, runs) && img.Traceable(p)
    ensures i < |runs| && Covers(runs[i], p.x, p.y)
  {
    assert Passed(p.x, p.y, 0, img.height);
    i :| 0 <= i < |runs| && Covers(runs[i], p.x, p.y);
  }

  lemma OneRunPerPixel(runs: seq<Run>, i: nat, j: nat, x: int, y: int)
    requires Ordered(runs) && i < |runs| && j < |runs|
    requires Covers(runs[i], x, y) && Covers(runs[j], x, y)
    ensures i == j
  {
  }

  lemma {:induction false} PixelWalkToRuns(img: Image, runs: seq<Run>, p: Point, path: seq<Point>, q: Point, i: nat,
      j: nat)
    requires img.Valid() && EncodesAll(img, runs) && Walk(PixelStep(img), p, path, q)
    requires i < |runs| && Covers(runs[i], p.x, p.y) && j < |runs| && Covers(runs[j], q.x, q.y)
    ensures Joined(runs, i, j)
    decreases |path|
  {
    if path == [] {
      OneRunPerPixel(runs, i, j, p.x, p.y);
      Refl(RunStep(runs), i);
    } else {
      var k := RunOf(img, runs, path[0]);
      PixelWalkToRuns(img, runs, path[0], path[1..], q, k, j);
      assert Near(runs[i], runs[k]);
      One(RunStep(runs), i, k);
      JoinedTrans(runs, i, k, j);
    }
  }

  lemma {:induction false} RunWalkToPixels(img: Image, runs: seq<Run>, i: nat, path: seq<nat>, j: nat)
    requires img.Valid() && EncodesAll(img, runs) && Walk(RunStep(runs), i, path, j)
    requires i < |runs| && j < |runs|
    ensures Linked(PixelStep(img), Point(runs[i].start, runs[i].y), Point(runs[j].start, runs[j].y))
    decreases |path|
  {
    var a, b := Point(runs[i].start, runs[i].y), Point(runs[j].start, runs[j].y);
    if path == [] {
      Refl(PixelStep(img), a);
    } else {
      var k := path[0];
      NearRunsTouch(img, runs[i], runs[k]);
      RunWalkToPixels(img, runs, k, path[1..], j);
      Trans(PixelStep(img), a, Point(runs[k].start, runs[k].y), b);
    }
  }

  /** Run connectivity is pixel connectivity: the run graph is only a faster way to walk the raster. */
  lemma JoinedIsPixelLinked(img: Image, runs: seq<Run>, i: nat, j: nat, p: Point, q: Point)
    requires img.Valid() && EncodesAll(img, runs)
    requires i < |runs| && Covers(runs[i], p.x, p.y) && j < |runs| && Covers(runs[j], q.x, q.y)
    ensures Joined(runs, i, j) <==> Linked(PixelStep(img), p, q)
  {
    if Joined(runs, i, j) {
      var path :| Walk(RunStep(runs), i, path, j);
      RunWalkToPixels(img, runs, i, path, j);
      var a, b := Point(runs[i].start, runs[i].y), Point(runs[j].start, runs[j].y);
      WithinRun(img, runs[i], p, a);
      WithinRun(img, runs[j], b, q);
      Trans(PixelStep(img), p, a, b);
      Trans(PixelStep(img), p, b, q);
    }
    if Linked(PixelStep(img), p, q) {
      var path :| Walk(PixelStep(img), p, path, q);
      PixelWalkToRuns(img, runs, p, path, q, i, j);
    }
  }
}
