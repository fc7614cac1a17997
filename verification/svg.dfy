/** Path data, what it fills (SVG 1.1, sections 8.3 and 11.3), and the grouping of runs into trace objects. */
module Svg {
  import opened Raster
  import opened Runs

  /** Path commands: absolute moveto, relative horizontal and vertical lineto, closepath. */
  datatype Command = MoveTo(x: int, y: int) | Horizontal(dx: int) | Vertical(dy: int) | ClosePath

  datatype Path = Path(color: Rgb, commands: seq<Command>)

  /** One <g> element; the blank raster has a single object without paths. */
  datatype TraceObject = TraceObject(paths: seq<Path>) | TraceEmpty

  /** The path data written for a run. */
  function RunCommands(r: Run): seq<Command> {
    [MoveTo(r.start, r.y), Horizontal(r.end - r.start), Vertical(1), Horizontal(-(r.end - r.start)), ClosePath]
  }

  // ----- Meaning of path data

  /** Signed crossing of an edge with the ray that leaves the centre of pixel (px, py) to the right. */
  ghost function Crossing(x0: int, y0: int, x1: int, y1: int, px: int, py: int): int {
    if y0 <= py < y1 then (if RightOf(x0, y0, x1, y1, px, py) then 1 else 0)
    else if y1 <= py < y0 then (if RightOf(x0, y0, x1, y1, px, py) then -1 else 0)
    else 0
  }

  /** The edge meets the height py + 1/2 to the right of px + 1/2. */
  ghost predicate RightOf(x0: int, y0: int, x1: int, y1: int, px: int, py: int)
    requires y0 != y1
  {
    if x0 == x1 then x0 as real > px as real + 0.5
    else x0 as real + (x1 - x0) as real * (py as real + 0.5 - y0 as real) / (y1 - y0) as real > px as real + 0.5
  }

  /** Winding number around the centre of pixel (px, py) of the commands that follow a pen at (x, y) whose
      subpath began at (sx, sy); an open subpath is closed by a straight line. */
  ghost function WindingFrom(commands: seq<Command>, x: int, y: int, sx: int, sy: int, px: int, py: int): int
    decreases |commands|
  {
    if commands == [] then Crossing(x, y, sx, sy, px, py)
    else
      var rest := commands[1..];
      match commands[0]
      case MoveTo(mx, my) => Crossing(x, y, sx, sy, px, py) + WindingFrom(rest, mx, my, mx, my, px, py)
      case Horizontal(dx) => Crossing(x, y, x + dx, y, px, py) + WindingFrom(rest, x + dx, y, sx, sy, px, py)
      case Vertical(dy) => Crossing(x, y, x, y + dy, px, py) + WindingFrom(rest, x, y + dy, sx, sy, px, py)
      case ClosePath => Crossing(x, y, sx, sy, px, py) + WindingFrom(rest, sx, sy, sx, sy, px, py)
  }

  ghost function Winding(commands: seq<Command>, px: int, py: int): int {
    WindingFrom(commands, 0, 0, 0, 0, px, py)
  }

  ghost function WindingOf(path: Path, px: int, py: int): int { Winding(path.commands, px, py) }

  /** Painting the paths of a list in order over `under`, with the non-zero fill rule. */
  ghost function PaintPaths(paths: seq<Path>, px: int, py: int, under: Rgb): Rgb
    decreases |paths|
  {
    if paths == [] then under
    else
      var below := PaintPaths(paths[..|paths| - 1], px, py, under);
      var top := paths[|paths| - 1];
      if WindingOf(top, px, py) != 0 then top.color else below
  }

  ghost function PathsOf(traced: TraceObject): seq<Path> {
    match traced case TraceObject(paths) => paths case TraceEmpty => []
  }

  /** The page: a white background rectangle and the objects in document order. */
  ghost function Render(objects: seq<TraceObject>, px: int, py: int): Rgb
    decreases |objects|
  {
    if objects == [] then WHITE
    else PaintPaths(PathsOf(objects[|objects| - 1]), px, py, Render(objects[..|objects| - 1], px, py))
  }

  // ----- What the emitted rectangles cover

  ghost function Bit(b: bool): int { if b then 1 else 0 }

  /** A run's rectangle winds once around each of its pixels and never around another one. */
  lemma RunWinding(r: Run, tail: seq<Command>, x: int, y: int, px: int, py: int)
    requires r.start < r.end
    ensures WindingFrom(RunCommands(r) + tail, x, y, x, y, px, py)
         == Bit(Covers(r, px, py)) + WindingFrom(tail, r.start, r.y, r.start, r.y, px, py)
  {
    var c := RunCommands(r);
    var all := c + tail;
    assert all[1..] == c[1..] + tail;
    assert all[1..][1..] == c[2..] + tail;
    assert all[1..][1..][1..] == c[3..] + tail;
    assert all[1..][1..][1..][1..] == c[4..] + tail;
    assert all[1..][1..][1..][1..][1..] == tail;
    var s, e: int := r.start, r.end;
    assert s + (e - s) == e && e + -(e - s) == s;
    calc {
      WindingFrom(all, x, y, x, y, px, py);
      WindingFrom(all[1..], s, r.y, s, r.y, px, py);
      WindingFrom(all[1..][1..], e, r.y, s, r.y, px, py);
      Crossing(e, r.y, e, r.y + 1, px, py) + WindingFrom(all[1..][1..][1..], e, r.y + 1, s, r.y, px, py);
      Crossing(e, r.y, e, r.y + 1, px, py) + WindingFrom(all[1..][1..][1..][1..], s, r.y + 1, s, r.y, px, py);
      Crossing(e, r.y, e, r.y + 1, px, py) + Crossing(s, r.y + 1, s, r.y, px, py)
        + WindingFrom(tail, s, r.y, s, r.y, px, py);
    }
  }

  /** The path data of all runs below `n` of one component and colour, in raster order. */
  ghost function CommandsOf(runs: seq<Run>, reps: seq<nat>, root: nat, color: Rgb, n: nat): seq<Command>
    requires |reps| == |runs| && n <= |runs|
  {
    if n == 0 then []
    else
      var before := CommandsOf(runs, reps, root, color, n - 1);
      if reps[n - 1] == root && runs[n - 1].color == color then before + RunCommands(runs[n - 1]) else before
  }

  /** The same list read from run `k` on, the order in which a renderer meets it. */
  ghost function CommandsFrom(runs: seq<Run>, reps: seq<nat>, root: nat, color: Rgb, k: nat, n: nat): seq<Command>
    requires |reps| == |runs| && k <= n <= |runs|
    decreases n - k
  {
    if k == n then []
    else if reps[k] == root && runs[k].color == color
    then RunCommands(runs[k]) + CommandsFrom(runs, reps, root, color, k + 1, n)
    else CommandsFrom(runs, reps, root, color, k + 1, n)
  }

  lemma {:induction false} CommandsSplit(runs: seq<Run>, reps: seq<nat>, root: nat, color: Rgb, k: nat, n: nat)
    requires |reps| == |runs| && k <= n <= |runs|
    ensures CommandsOf(runs, reps, root, color, n)
      == CommandsOf(runs, reps, root, color, k) + CommandsFrom(runs, reps, root, color, k, n)
    decreases n - k
  {
    if k < n {
      CommandsSplit(runs, reps, root, color, k + 1, n);
    }
  }

  /** Number of runs from `k` to `n` of one component and colour that cover a pixel. */
  ghost function Hits(runs: seq<Run>, reps: seq<nat>, root: nat, color: Rgb, k: nat, n: nat, px: int, py: int): int
    requires |reps| == |runs| && k <= n <= |runs|
    decreases n - k
  {
    if k == n then 0
    else
      Bit(reps[k] == root && runs[k].color == color && Covers(runs[k], px, py))
      + Hits(runs, reps, root, color, k + 1, n, px, py)
  }

  lemma {:induction false} WindingCounts(runs: seq<Run>, reps: seq<nat>, root: nat, color: Rgb, k: nat, x: int, y: int,
      px: int, py: int)
    requires |reps| == |runs| && k <= |runs| && Shaped(runs)
    ensures WindingFrom(CommandsFrom(runs, reps, root, color, k, |runs|), x, y, x, y, px, py)
         == Hits(runs, reps, root, color, k, |runs|, px, py)
    decreases |runs| - k
  {
    if k < |runs| {
      var rest := CommandsFrom(runs, reps, root, color, k + 1, |runs|);
      if reps[k] == root && runs[k].color == color {
        RunWinding(runs[k], rest, x, y, px, py);
        WindingCounts(runs, reps, root, color, k + 1, runs[k].start, runs[k].y, px, py);
      } else {
        WindingCounts(runs, reps, root, color, k + 1, x, y, px, py);
      }
    }
  }

  /** With at most one run over a pixel, the count is 1 exactly for the component and colour of that run. */
  lemma {:induction false} HitsOnce(runs: seq<Run>, reps: seq<nat>, root: nat, color: Rgb, k: nat, i: nat, px: int,
      py: int)
    requires |reps| == |runs| && k <= |runs| && Ordered(runs)
    requires i < |runs| && Covers(runs[i], px, py)
    ensures Hits(runs, reps, root, color, k, |runs|, px, py) == Bit(k <= i && reps[i] == root && runs[i].color == color)
    decreases |runs| - k
  {
    if k < |runs| {
      HitsOnce(runs, reps, root, color, k + 1, i, px, py);
    }
  }

  lemma {:induction false} HitsNone(runs: seq<Run>, reps: seq<nat>, root: nat, color: Rgb, k: nat, px: int, py: int)
    requires |reps| == |runs| && k <= |runs|
    requires forall i :: 0 <= i < |runs| ==> !Covers(runs[i], px, py)
    ensures Hits(runs, reps, root, color, k, |runs|, px, py) == 0
    decreases |runs| - k
  {
    if k < |runs| {
      HitsNone(runs, reps, root, color, k + 1, px, py);
    }
  }
}
