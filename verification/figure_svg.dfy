/** build_full_vector_svg as a whole: the emitted objects are the coloured connected components of the raster. */
module FigureSvg {
  import opened Options
  import opened Links
  import opened Raster
  import opened UnionFind
  import opened Runs
  import opened Tracing
  import opened Svg

  // ----- The promise, in terms of pixels only

  ghost predicate IsPath(objects: seq<TraceObject>, t: int, a: int) {
    0 <= t < |objects| && 0 <= a < |PathsOf(objects[t])|
  }

  ghost function WindingAt(objects: seq<TraceObject>, t: int, a: int, p: Point): int
    requires IsPath(objects, t, a)
  {
    WindingOf(PathsOf(objects[t])[a], p.x, p.y)
  }

  /** Object `t` fills the pixel `p`. */
  ghost predicate Fills(objects: seq<TraceObject>, t: int, p: Point) {
    0 <= t < |objects| && exists a :: IsPath(objects, t, a) && WindingAt(objects, t, a, p) != 0
  }

  ghost predicate FilledBy(objects: seq<TraceObject>, t: int, a: int, p: Point, c: Rgb) {
    && IsPath(objects, t, a) && WindingAt(objects, t, a, p) == 1 && PathsOf(objects[t])[a].color == c
    && forall u, b :: IsPath(objects, u, b) && (u != t || b != a) ==> WindingAt(objects, u, b, p) == 0
  }

  /** Exactly one path winds around `p`, once, and it has colour `c`. */
  ghost predicate FilledOnce(objects: seq<TraceObject>, p: Point, c: Rgb) {
    exists t, a :: FilledBy(objects, t, a, p, c)
  }

  ghost predicate NotFilled(objects: seq<TraceObject>, p: Point) {
    forall u, b :: IsPath(objects, u, b) ==> WindingAt(objects, u, b, p) == 0
  }

  /** Every traceable pixel lies in one rectangle of its own colour, every other pixel in none. */
  ghost predicate ExactCover(img: Image, objects: seq<TraceObject>)
    requires img.Valid()
  {
    forall p: Point :: img.In(p.x, p.y) ==>
      if img.Traceable(p) then FilledOnce(objects, p, img.At(p.x, p.y).value) else NotFilled(objects, p)
  }

  /** Two traceable pixels are in one object exactly when a chain of neighbouring traceable pixels links them. */
  ghost predicate ObjectsAreComponents(img: Image, objects: seq<TraceObject>)
    requires img.Valid()
  {
    forall p, q, t, u :: img.Traceable(p) && img.Traceable(q) && Fills(objects, t, p) && Fills(objects, u, q)
      ==> (t == u <==> Linked(PixelStep(img), p, q))
  }

  ghost predicate RasterBefore(p: Point, q: Point) { p.y < q.y || (p.y == q.y && p.x < q.x) }

  /** Object `t` has a pixel in front of every pixel of object `u`. */
  ghost predicate BeginsBefore(img: Image, objects: seq<TraceObject>, t: int, u: int)
    requires img.Valid()
  {
    forall q :: img.Traceable(q) && Fills(objects, u, q)
      ==> exists p :: img.Traceable(p) && Fills(objects, t, p) && RasterBefore(p, q)
  }

  /** Objects are listed by their first pixels in raster order. */
  ghost predicate OrderedByFirstPixel(img: Image, objects: seq<TraceObject>)
    requires img.Valid()
  {
    forall t, u :: 0 <= t < u < |objects| ==> BeginsBefore(img, objects, t, u)
  }

  ghost predicate FillsSome(img: Image, objects: seq<TraceObject>, t: int)
    requires img.Valid()
  {
    exists p :: img.Traceable(p) && Fills(objects, t, p)
  }

  ghost predicate Blank(img: Image)
    requires img.Valid()
  {
    forall p :: !img.Traceable(p)
  }

  /** The empty placeholder stands for a blank raster; otherwise every object shows something. */
  ghost predicate NothingEmpty(img: Image, objects: seq<TraceObject>)
    requires img.Valid()
  {
    if Blank(img) then objects == [TraceEmpty] else forall t :: 0 <= t < |objects| ==> FillsSome(img, objects, t)
  }

  // ----- Grouping

  /** components[root].setdefault(color, []).append(...): colours keep their first position. */
  function AddTo(paths: seq<Path>, color: Rgb, commands: seq<Command>): seq<Path> {
    if paths == [] then [Path(color, commands)]
    else if paths[0].color == color then [Path(color, paths[0].commands + commands)] + paths[1..]
    else [paths[0]] + AddTo(paths[1..], color, commands)
  }

  ghost predicate HasColor(paths: seq<Path>, color: Rgb) { exists a :: 0 <= a < |paths| && paths[a].color == color }

  lemma {:induction false} AddToCases(paths: seq<Path>, color: Rgb, commands: seq<Command>) returns (at: nat)
    ensures HasColor(paths, color) ==> (
      && at < |paths| && paths[at].color == color
      && AddTo(paths, color, commands) == paths[at := Path(color, paths[at].commands + commands)])
    ensures !HasColor(paths, color) ==> AddTo(paths, color, commands) == paths + [Path(color, commands)]
  {
    at := 0;
    if paths != [] && paths[0].color != color {
      var k := AddToCases(paths[1..], color, commands);
      at := k + 1;
      if HasColor(paths, color) {
        var a :| 0 <= a < |paths| && paths[a].color == color;
        assert paths[1..][a - 1].color == color;
        assert paths[at := Path(color, paths[at].commands + commands)]
            == [paths[0]] + paths[1..][k := Path(color, paths[at].commands + commands)];
      } else {
        assert paths == [paths[0]] + paths[1..];
      }
    }
  }

  /** The paths of one component: one path per colour, holding the data of all its runs below `n`. */
  ghost predicate GroupOk(runs: seq<Run>, reps: seq<nat>, root: nat, paths: seq<Path>, n: nat)
    requires |reps| == |runs| && n <= |runs|
  {
    && (forall a, b :: 0 <= a < b < |paths| ==> paths[a].color != paths[b].color)
    && (forall a :: 0 <= a < |paths| ==> paths[a].commands == CommandsOf(runs, reps, root, paths[a].color, n))
    && (forall i :: 0 <= i < n && reps[i] == root ==> HasColor(paths, runs[i].color))
  }

  lemma {:induction false} NoRunNoCommands(runs: seq<Run>, reps: seq<nat>, root: nat, color: Rgb, n: nat)
    requires |reps| == |runs| && n <= |runs|
    requires forall i :: 0 <= i < n ==> reps[i] != root || runs[i].color != color
    ensures CommandsOf(runs, reps, root, color, n) == []
  {
    if n > 0 {
      NoRunNoCommands(runs, reps, root, color, n - 1);
    }
  }

  lemma AddKeepsGroup(runs: seq<Run>, reps: seq<nat>, paths: seq<Path>, n: nat)
    requires |reps| == |runs| && n < |runs| && GroupOk(runs, reps, reps[n], paths, n)
    ensures GroupOk(runs, reps, reps[n], AddTo(paths, runs[n].color, RunCommands(runs[n])), n + 1)
  {
    hide HasColor, AddTo;
    var color, root := runs[n].color, reps[n];
    var after := AddTo(paths, color, RunCommands(runs[n]));
    AddKeepsColors(paths, color, RunCommands(runs[n]));
    var at := AddToCases(paths, color, RunCommands(runs[n]));
    if !HasColor(paths, color) {
      NoRunNoCommands(runs, reps, root, color, n);
      assert forall a :: 0 <= a < |paths| ==> paths[a].color != color by { NotHad(paths, color); }
    }
  }

  lemma NotHad(paths: seq<Path>, color: Rgb)
    requires !HasColor(paths, color)
    ensures forall a :: 0 <= a < |paths| ==> paths[a].color != color
  {
  }

  /** Adding keeps the colours, and brings the one that is added. */
  lemma AddKeepsColors(paths: seq<Path>, color: Rgb, commands: seq<Command>)
    ensures forall other :: HasColor(paths, other) ==> HasColor(AddTo(paths, color, commands), other)
    ensures HasColor(AddTo(paths, color, commands), color)
  {
    var after := AddTo(paths, color, commands);
    var at := AddToCases(paths, color, commands);
    assert HasColor(paths, color) ==> after[at].color == color;
    assert !HasColor(paths, color) ==> after[|paths|].color == color;
    ColorsStay(paths, after, color);
  }

  lemma ColorsStay(paths: seq<Path>, after: seq<Path>, color: Rgb)
    requires |paths| <= |after| && forall a :: 0 <= a < |paths| ==> after[a].color == paths[a].color
    ensures forall other :: HasColor(paths, other) ==> HasColor(after, other)
  {
    forall other | HasColor(paths, other) ensures HasColor(after, other) {
      var a :| 0 <= a < |paths| && paths[a].color == other;
      assert after[a].color == other;
    }
  }

  /** `objects` are the groups of the components listed in `order`. */
  ghost predicate Grouped(runs: seq<Run>, reps: seq<nat>, order: seq<nat>, objects: seq<TraceObject>) {
    && |reps| == |runs| && |objects| == |order|
    && (forall t, u :: 0 <= t < u < |order| ==> order[t] < order[u])
    && (forall t :: 0 <= t < |order| ==> order[t] < |runs| && reps[order[t]] == order[t])
    && (forall i :: 0 <= i < |runs| ==> reps[i] in order)
    && (forall t :: 0 <= t < |objects| ==>
         objects[t].TraceObject? && GroupOk(runs, reps, order[t], objects[t].paths, |runs|))
  }

  // ----- From groups to pixels

  lemma PathWinding(runs: seq<Run>, reps: seq<nat>, order: seq<nat>, objects: seq<TraceObject>, t: nat, a: nat,
      p: Point)
    requires Shaped(runs) && Grouped(runs, reps, order, objects) && IsPath(objects, t, a)
    ensures forall i :: 0 <= i < |runs| && Covers(runs[i], p.x, p.y) ==>
      WindingAt(objects, t, a, p) == Bit(reps[i] == order[t] && runs[i].color == objects[t].paths[a].color)
    ensures (forall i :: 0 <= i < |runs| ==> !Covers(runs[i], p.x, p.y)) ==> WindingAt(objects, t, a, p) == 0
  {
    var color := objects[t].paths[a].color;
    CommandsSplit(runs, reps, order[t], color, 0, |runs|);
    assert objects[t].paths[a].commands == CommandsFrom(runs, reps, order[t], color, 0, |runs|);
    WindingCounts(runs, reps, order[t], color, 0, 0, 0, p.x, p.y);
    if i :| 0 <= i < |runs| && Covers(runs[i], p.x, p.y) {
      HitsOnce(runs, reps, order[t], color, 0, i, p.x, p.y);
      forall j | 0 <= j < |runs| && Covers(runs[j], p.x, p.y) ensures j == i {
        OneRunPerPixel(runs, i, j, p.x, p.y);
      }
    } else {
      HitsNone(runs, reps, order[t], color, 0, p.x, p.y);
    }
  }

  /** The one path that fills a pixel of run `i`. */
  lemma PathOfRun(runs: seq<Run>, reps: seq<nat>, order: seq<nat>, objects: seq<TraceObject>, i: nat, p: Point)
    returns (t: nat, a: nat)
    requires Shaped(runs) && Grouped(runs, reps, order, objects) && i < |runs| && Covers(runs[i], p.x, p.y)
    ensures t < |order| && order[t] == reps[i] && FilledBy(objects, t, a, p, runs[i].color)
  {
    t :| 0 <= t < |order| && order[t] == reps[i];
    assert HasColor(objects[t].paths, runs[i].color);
    a :| 0 <= a < |objects[t].paths| && objects[t].paths[a].color == runs[i].color;
    assert IsPath(objects, t, a);
    forall u: nat, b: nat | IsPath(objects, u, b)
      ensures WindingAt(objects, u, b, p) == Bit(u == t && b == a)
    {
      PathWinding(runs, reps, order, objects, u, b, p);
    }
  }

  /** An object fills a run's pixel exactly when it is the object of the run's component. */
  lemma FillsIsOwner(runs: seq<Run>, reps: seq<nat>, order: seq<nat>, objects: seq<TraceObject>, i: nat, u: int,
      p: Point)
    requires Shaped(runs) && Grouped(runs, reps, order, objects) && i < |runs| && Covers(runs[i], p.x, p.y)
    ensures Fills(objects, u, p) <==> 0 <= u < |order| && order[u] == reps[i]
  {
    var t, a := PathOfRun(runs, reps, order, objects, i, p);
    assert Fills(objects, t, p);
  }

  lemma GroupedCovers(img: Image, runs: seq<Run>, reps: seq<nat>, order: seq<nat>, objects: seq<TraceObject>)
    requires img.Valid() && EncodesAll(img, runs) && Grouped(runs, reps, order, objects)
    ensures ExactCover(img, objects)
  {
    forall p: Point | img.In(p.x, p.y)
      ensures if img.Traceable(p) then FilledOnce(objects, p, img.At(p.x, p.y).value) else NotFilled(objects, p)
    {
      if img.Traceable(p) {
        var i := RunOf(img, runs, p);
        var t, a := PathOfRun(runs, reps, order, objects, i, p);
      } else {
        forall u: nat, b: nat | IsPath(objects, u, b) ensures WindingAt(objects, u, b, p) == 0 {
          PathWinding(runs, reps, order, objects, u, b, p);
        }
      }
    }
  }

  lemma GroupedComponents(img: Image, runs: seq<Run>, parents: seq<nat>, reps: seq<nat>, order: seq<nat>,
      objects: seq<TraceObject>)
    requires img.Valid() && EncodesAll(img, runs) && Grouped(runs, reps, order, objects) && Components(runs, parents)
    requires forall i: nat :: i < |runs| ==> reps[i] == Root(parents, i)
    ensures ObjectsAreComponents(img, objects)
  {
    forall p, q, t, u | img.Traceable(p) && img.Traceable(q) && Fills(objects, t, p) && Fills(objects, u, q)
      ensures t == u <==> Linked(PixelStep(img), p, q)
    {
      var i := RunOf(img, runs, p);
      var j := RunOf(img, runs, q);
      FillsIsOwner(runs, reps, order, objects, i, t, p);
      FillsIsOwner(runs, reps, order, objects, j, u, q);
      JoinedIsPixelLinked(img, runs, i, j, p, q);
    }
  }

  /** The first pixel of a component's smallest run precedes all pixels of later objects. */
  lemma FirstPixelOf(img: Image, runs: seq<Run>, reps: seq<nat>, order: seq<nat>, objects: seq<TraceObject>, t: nat,
      u: nat, q: Point)
    returns (p: Point)
    requires img.Valid() && EncodesAll(img, runs) && Grouped(runs, reps, order, objects)
    requires forall i: nat :: i < |runs| ==> reps[i] <= i
    requires t < u < |objects| && img.Traceable(q) && Fills(objects, u, q)
    ensures img.Traceable(p) && Fills(objects, t, p) && RasterBefore(p, q)
  {
    var i := order[t];
    p := Point(runs[i].start, runs[i].y);
    var j := RunOf(img, runs, q);
    FillsIsOwner(runs, reps, order, objects, i, t, p);
    FillsIsOwner(runs, reps, order, objects, j, u, q);
    assert Before(runs[i], runs[j]);
    assert img.At(p.x, p.y).Some?;
  }

  lemma GroupedOrder(img: Image, runs: seq<Run>, reps: seq<nat>, order: seq<nat>, objects: seq<TraceObject>)
    requires img.Valid() && EncodesAll(img, runs) && Grouped(runs, reps, order, objects)
    requires forall i: nat :: i < |runs| ==> reps[i] <= i
    ensures OrderedByFirstPixel(img, objects)
  {
    forall t, u | 0 <= t < u < |objects| ensures BeginsBefore(img, objects, t, u) {
      forall q | img.Traceable(q) && Fills(objects, u, q)
        ensures exists p :: img.Traceable(p) && Fills(objects, t, p) && RasterBefore(p, q)
      {
        var p := FirstPixelOf(img, runs, reps, order, objects, t, u, q);
      }
    }
  }

  lemma GroupsAreVisible(img: Image, runs: seq<Run>, reps: seq<nat>, order: seq<nat>, objects: seq<TraceObject>)
    requires img.Valid() && EncodesAll(img, runs) && Grouped(runs, reps, order, objects)
    ensures forall t :: 0 <= t < |objects| ==> FillsSome(img, objects, t)
    ensures objects == [] <==> Blank(img)
  {
    forall t | 0 <= t < |objects| ensures FillsSome(img, objects, t) {
      var i := order[t];
      var p := Point(runs[i].start, runs[i].y);
      FillsIsOwner(runs, reps, order, objects, i, t, p);
      assert img.At(p.x, p.y).Some? && img.Traceable(p);
    }
    assert objects != [] ==> FillsSome(img, objects, 0);
    if !Blank(img) {
      var p :| img.Traceable(p);
      var i := RunOf(img, runs, p);
      assert reps[i] in order;
    }
  }

  /** Whatever order the paths are painted in, the page shows the colour of the only path that fills the pixel. */
  lemma {:induction false} PaintFinds(paths: seq<Path>, a: int, px: int, py: int, under: Rgb)
    requires forall b :: 0 <= b < |paths| && b != a ==> WindingOf(paths[b], px, py) == 0
    requires 0 <= a < |paths| ==> WindingOf(paths[a], px, py) == 1
    ensures PaintPaths(paths, px, py, under) == if 0 <= a < |paths| then paths[a].color else under
    decreases |paths|
  {
    if paths != [] && a != |paths| - 1 {
      PaintFinds(paths[..|paths| - 1], a, px, py, under);
    }
  }

  lemma {:induction false} RenderFinds(objects: seq<TraceObject>, t: int, a: int, p: Point)
    requires forall u, b :: IsPath(objects, u, b) ==> WindingAt(objects, u, b, p) == Bit(u == t && b == a)
    requires 0 <= t < |objects| ==> IsPath(objects, t, a)
    ensures Render(objects, p.x, p.y) == if 0 <= t < |objects| then PathsOf(objects[t])[a].color else WHITE
    decreases |objects|
  {
    if objects != [] {
      var last := |objects| - 1;
      var front := objects[..last];
      forall u, b | IsPath(front, u, b) ensures WindingAt(front, u, b, p) == Bit(u == t && b == a) {
        assert IsPath(objects, u, b);
        assert WindingAt(front, u, b, p) == WindingAt(objects, u, b, p);
      }
      RenderFinds(front, t, a, p);
      var paths := PathsOf(objects[last]);
      forall b | 0 <= b < |paths| ensures WindingOf(paths[b], p.x, p.y) == Bit(last == t && b == a) {
        assert IsPath(objects, last, b);
        assert WindingAt(objects, last, b, p) == WindingOf(paths[b], p.x, p.y);
      }
      PaintFinds(paths, if last == t then a else -1, p.x, p.y, Render(front, p.x, p.y));
    }
  }

  /** An exact cover renders as the quantised image. */
  lemma CoverRenders(img: Image, objects: seq<TraceObject>, x: int, y: int)
    requires img.Valid() && ExactCover(img, objects) && img.In(x, y)
    ensures Render(objects, x, y) == img.Quantised(x, y)
  {
    var p := Point(x, y);
    if img.Traceable(p) {
      var c := img.At(x, y).value;
      assert FilledOnce(objects, p, c);
      var t, a :| FilledBy(objects, t, a, p, c);
      RenderFinds(objects, t, a, p);
    } else {
      assert NotFilled(objects, p);
      RenderFinds(objects, -1, 0, p);
    }
  }

  /** The components met in the first `n` runs, in the order of their first runs. */
  ghost predicate InOrder(reps: seq<nat>, met: set<nat>, order: seq<nat>, n: nat) {
    && n <= |reps|
    && (forall root :: root in met <==> root in order)
    && (forall t, u :: 0 <= t < u < |order| ==> order[t] < order[u])
    && (forall t :: 0 <= t < |order| ==> IsRoot(reps, order[t], n))
    && (forall i :: 0 <= i < n ==> reps[i] in met)
  }

  ghost predicate IsRoot(reps: seq<nat>, root: nat, n: nat) { root < n && n <= |reps| && reps[root] == root }

  /** The grouping after the first `n` runs. */
  ghost predicate Collected(runs: seq<Run>, reps: seq<nat>, components: map<nat, seq<Path>>, order: seq<nat>, n: nat) {
    && |reps| == |runs| && InOrder(reps, components.Keys, order, n)
    && (forall root :: root in components ==> GroupOk(runs, reps, root, components[root], n))
  }

  /** The root of the next run is known, or it is the run itself. */
  lemma NextRoot(reps: seq<nat>, met: set<nat>, order: seq<nat>, n: nat)
    requires InOrder(reps, met, order, n) && n < |reps| && reps[n] <= n && reps[reps[n]] == reps[n]
    ensures reps[n] !in met ==> reps[n] == n && forall i :: 0 <= i < n ==> reps[i] != n
  {
    hide IsRoot;
  }

  lemma OrderGrows(reps: seq<nat>, met: set<nat>, order: seq<nat>, n: nat)
    requires InOrder(reps, met, order, n) && n < |reps| && reps[n] <= n && reps[reps[n]] == reps[n]
    ensures InOrder(reps, met + {reps[n]}, if reps[n] in met then order else order + [reps[n]], n + 1)
  {
    NextRoot(reps, met, order, n);
    assert IsRoot(reps, reps[n], n + 1);
    forall t | 0 <= t < |order| ensures order[t] < n && IsRoot(reps, order[t], n + 1) {
      assert IsRoot(reps, order[t], n);
    }
    hide IsRoot;
  }

  lemma OtherGroupKept(runs: seq<Run>, reps: seq<nat>, root: nat, paths: seq<Path>, n: nat)
    requires |reps| == |runs| && n < |runs| && reps[n] != root && GroupOk(runs, reps, root, paths, n)
    ensures GroupOk(runs, reps, root, paths, n + 1)
  {
  }

  lemma NewGroup(runs: seq<Run>, reps: seq<nat>, root: nat, n: nat)
    requires |reps| == |runs| && n < |runs| && forall i :: 0 <= i < n ==> reps[i] != root
    ensures GroupOk(runs, reps, root, [], n)
  {
  }

  lemma CollectRun(runs: seq<Run>, reps: seq<nat>, components: map<nat, seq<Path>>, order: seq<nat>, n: nat,
                   known: map<nat, seq<Path>>, knownOrder: seq<nat>)
    requires Collected(runs, reps, components, order, n) && n < |runs|
    requires reps[n] <= n && reps[reps[n]] == reps[n]
    requires known == if reps[n] in components then components else components[reps[n] := []]
    requires knownOrder == if reps[n] in components then order else order + [reps[n]]
    ensures reps[n] in known
    ensures Collected(runs, reps, known[reps[n] := AddTo(known[reps[n]], runs[n].color, RunCommands(runs[n]))],
      knownOrder, n + 1)
  {
    hide GroupOk, InOrder;
    var root := reps[n];
    NextRoot(reps, components.Keys, order, n);
    OrderGrows(reps, components.Keys, order, n);
    if root !in components {
      NewGroup(runs, reps, root, n);
    }
    AddKeepsGroup(runs, reps, known[root], n);
    var after := known[root := AddTo(known[root], runs[n].color, RunCommands(runs[n]))];
    assert after.Keys == components.Keys + {root};
    forall r | r in after ensures GroupOk(runs, reps, r, after[r], n + 1) {
      if r != root {
        OtherGroupKept(runs, reps, r, components[r], n);
      }
    }
  }

  /** The component dictionary and its insertion order. */
  method CollectRuns(runs: seq<Run>, forest: Parents, ghost reps: seq<nat>)
    returns (components: map<nat, seq<Path>>, componentOrder: seq<nat>)
    requires |forest.parents| == |runs| == |reps| && Forest(forest.parents)
    requires forall i: nat :: i < |runs| ==> reps[i] == Root(forest.parents, i)
    modifies forest
    ensures Collected(runs, reps, components, componentOrder, |runs|)
  {
    hide GroupOk;
    components, componentOrder := map[], [];
    for index := 0 to |runs|
      invariant SameRoots(old(forest.parents), forest.parents)
      invariant Collected(runs, reps, components, componentOrder, index)
    {
      var root := forest.Find(index);
      ghost var before, beforeOrder := components, componentOrder;
      if root !in components {
        components := components[root := []];
        componentOrder := componentOrder + [root];
      }
      CollectRun(runs, reps, before, beforeOrder, index, components, componentOrder);
      components := components[root := AddTo(components[root], runs[index].color, RunCommands(runs[index]))];
    }
  }

  /** One object per component, in insertion order. */
  method EmitObjects(ghost runs: seq<Run>, ghost reps: seq<nat>, components: map<nat, seq<Path>>,
      componentOrder: seq<nat>)
    returns (objects: seq<TraceObject>)
    requires Collected(runs, reps, components, componentOrder, |runs|)
    ensures Grouped(runs, reps, componentOrder, objects)
  {
    hide GroupOk;
    objects := [];
    for t := 0 to |componentOrder|
      invariant |objects| == t
      invariant forall k :: 0 <= k < t ==>
        componentOrder[k] in components && objects[k] == TraceObject(components[componentOrder[k]])
    {
      assert componentOrder[t] in components;
      objects := objects + [TraceObject(components[componentOrder[t]])];
    }
  }

  /** The document for an image. Rasterising it gives back the quantised image, and its objects are the
      connected components of the traceable pixels. */
  method BuildFullVectorSvg(img: Image) returns (objects: seq<TraceObject>)
    requires img.Valid()
    ensures forall x, y :: img.In(x, y) ==> Render(objects, x, y) == img.Quantised(x, y)
    ensures forall x, y :: img.In(x, y) && IsPixel(img.rows[y][x]) ==> ShownFor(img.rows[y][x], Render(objects, x, y))
    ensures ExactCover(img, objects)
    ensures ObjectsAreComponents(img, objects)
    ensures OrderedByFirstPixel(img, objects)
    ensures NothingEmpty(img, objects)
  {
    var tracer := new Tracer();
    tracer.Scan(img);
    var runs := tracer.runs;
    ghost var parents := tracer.forest.parents;
    ghost var reps: seq<nat> := seq(|runs|, (i: nat) requires i < |parents| && Forest(parents) => Root(parents, i));
    var components, order := CollectRuns(runs, tracer.forest, reps);
    objects := EmitObjects(runs, reps, components, order);
    GroupedCovers(img, runs, reps, order, objects);
    GroupedComponents(img, runs, parents, reps, order, objects);
    GroupedOrder(img, runs, reps, order, objects);
    GroupsAreVisible(img, runs, reps, order, objects);
    if objects == [] {
      objects := [TraceEmpty];
      assert forall u, b :: !IsPath(objects, u, b);
    }
    forall x, y | img.In(x, y) ensures Render(objects, x, y) == img.Quantised(x, y) {
      CoverRenders(img, objects, x, y);
    }
    forall x, y | img.In(x, y) && IsPixel(img.rows[y][x]) ensures ShownFor(img.rows[y][x], Render(objects, x, y)) {
      PixelIsShown(img, x, y);
    }
  }

  /** The page is white over a suppressed pixel and shows the closest colour of any other one. */
  ghost predicate ShownFor(value: Rgb, shown: Rgb) {
    if Suppressed(value) then shown == WHITE else Stands(value, shown)
  }

  lemma PixelIsShown(img: Image, x: int, y: int)
    requires img.Valid() && img.In(x, y) && IsPixel(img.rows[y][x])
    ensures ShownFor(img.rows[y][x], img.Quantised(x, y))
    ensures img.Traceable(Point(x, y)) <==> !Suppressed(img.rows[y][x])
  {
    hide Suppressed, Stands;
    TraceColorIsExact(img.rows[y][x]);
  }
}
