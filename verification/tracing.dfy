/** The scan of build_full_vector_svg: run-length encoding, the two-cursor sweep, and the components they leave. */
module Tracing {
  import opened Options
  import opened Links
  import opened Raster
  import opened UnionFind
  import opened Runs

  /** Every run is chained to its representative. */
  ghost predicate Sound(runs: seq<Run>, parents: seq<nat>) {
    && |runs| == |parents| && Forest(parents)
    && forall i: nat :: i < |runs| ==> Joined(runs, i, Root(parents, i))
  }

  /** Consecutive runs of a row that are near have been united, up to index `bound`. */
  ghost predicate RowsMerged(runs: seq<Run>, parents: seq<nat>, bound: nat)
    requires |runs| == |parents| && Forest(parents) && bound <= |runs|
  {
    forall i, j :: 0 <= i && j == i + 1 && j < bound && runs[i].y == runs[j].y && Near(runs[i], runs[j])
      ==> Root(parents, i) == Root(parents, j)
  }

  /** Runs below `bound` have been united with all their neighbours of the row above. */
  ghost predicate CrossMerged(runs: seq<Run>, parents: seq<nat>, bound: nat)
    requires |runs| == |parents| && Forest(parents) && bound <= |runs|
  {
    forall i, j :: 0 <= i < j < bound && runs[i].y + 1 == runs[j].y && Near(runs[i], runs[j])
      ==> Root(parents, i) == Root(parents, j)
  }

  /** The state of the scan: all same-row links below `rows` and all links to the row above below `cross`. */
  ghost predicate Progress(runs: seq<Run>, parents: seq<nat>, rows: nat, cross: nat) {
    && Sound(runs, parents) && rows <= |runs| && cross <= |runs|
    && RowsMerged(runs, parents, rows) && CrossMerged(runs, parents, cross)
  }

  ghost predicate Components(runs: seq<Run>, parents: seq<nat>) {
    && |runs| == |parents| && Forest(parents)
    && forall i: nat, j: nat :: i < |runs| && j < |runs| ==>
      (Root(parents, i) == Root(parents, j) <==> Joined(runs, i, j))
  }

  lemma UnionKeepsProgress(runs: seq<Run>, before: seq<nat>, after: seq<nat>, left: nat, right: nat, rows: nat,
      cross: nat)
    requires Progress(runs, before, rows, cross) && left < |runs| && right < |runs| && Near(runs[left], runs[right])
    requires Merged(before, after, left, right)
    ensures Progress(runs, after, rows, cross)
    ensures Root(after, left) == Root(after, right)
  {
    var l, r := Root(before, left), Root(before, right);
    One(RunStep(runs), left, right);
    JoinedSym(runs, left, l);
    JoinedTrans(runs, l, left, right);
    JoinedTrans(runs, l, right, r);
    JoinedSym(runs, l, r);
    forall i: nat | i < |runs| ensures Joined(runs, i, Root(after, i)) {
      if Root(after, i) != Root(before, i) {
        JoinedTrans(runs, i, Root(before, i), Root(after, i));
      }
    }
  }

  lemma AppendKeepsProgress(runs: seq<Run>, parents: seq<nat>, r: Run, rows: nat, cross: nat)
    requires Progress(runs, parents, rows, cross)
    ensures Progress(runs + [r], parents + [|parents|], rows, cross)
  {
    var p := parents + [|parents|];
    AppendKeepsRoot(parents, |parents|);
    forall i: nat | i < |p|
      ensures Root(p, i) == if i == |parents| then i else Root(parents, i)
      ensures Joined(runs + [r], i, Root(p, i))
    {
      AppendKeepsRoot(parents, i);
      if i < |parents| {
        JoinedGrows(runs, [r], i, Root(parents, i));
      } else {
        Refl(RunStep(runs + [r]), i);
      }
    }
  }

  /** The unions made by the scan are enough: every near pair has one representative. */
  lemma NearPairsMerged(runs: seq<Run>, parents: seq<nat>, i: nat, j: nat)
    requires Shaped(runs) && Progress(runs, parents, |runs|, |runs|)
    requires i < j < |runs| && Near(runs[i], runs[j])
    ensures Root(parents, i) == Root(parents, j)
  {
    assert Before(runs[i], runs[j]);
    if runs[i].y == runs[j].y && i + 1 < j {
      GapIsBridged(runs, i, j);
    }
  }

  /** Equal representatives are exactly the connected components of the neighbour graph. */
  lemma ScanFindsComponents(runs: seq<Run>, parents: seq<nat>)
    requires Shaped(runs) && Progress(runs, parents, |runs|, |runs|)
    ensures Components(runs, parents)
  {
    var tag := (k: nat) => if k < |parents| && Forest(parents) then Root(parents, k) else 0;
    forall a: nat, b: nat | RunStep(runs)(a, b) ensures tag(a) == tag(b) {
      if a < b { NearPairsMerged(runs, parents, a, b); }
      if b < a { NearPairsMerged(runs, parents, b, a); }
    }
    forall i: nat, j: nat | i < |runs| && j < |runs|
      ensures Root(parents, i) == Root(parents, j) <==> Joined(runs, i, j)
    {
      if Joined(runs, i, j) {
        var p :| Walk(RunStep(runs), i, p, j);
        SameLabel(RunStep(runs), tag, i, p, j);
      }
      if Root(parents, i) == Root(parents, j) {
        JoinedSym(runs, j, Root(parents, j));
        JoinedTrans(runs, i, Root(parents, i), j);
      }
    }
  }

  /** A representative is the smallest run of its component. */
  lemma RootIsSmallest(runs: seq<Run>, parents: seq<nat>, i: nat, j: nat)
    requires Components(runs, parents) && i < |runs| && j < |runs| && Joined(runs, i, j)
    ensures Root(parents, i) <= j && Joined(runs, i, Root(parents, i))
  {
  }

  /** `row` lists the consecutive run indices from `low` up to `high`. */
  ghost predicate Range(row: seq<nat>, low: nat, high: nat) {
    low <= high && |row| == high - low && forall k :: 0 <= k < |row| ==> row[k] == low + k
  }

  /** The runs of row `y` are those with an index from `low` up to `high`. */
  ghost predicate RowIs(runs: seq<Run>, y: int, low: nat, high: nat) {
    low <= high <= |runs| && forall i :: 0 <= i < |runs| ==> (runs[i].y == y <==> low <= i < high)
  }

  /** Run `j` has been united with every neighbour it has in the row above. */
  ghost predicate LinkedUp(runs: seq<Run>, parents: seq<nat>, j: nat)
    requires |runs| == |parents| && Forest(parents) && j < |runs|
  {
    forall i :: 0 <= i < j && runs[i].y + 1 == runs[j].y && Near(runs[i], runs[j]) ==>
      Root(parents, i) == Root(parents, j)
  }

  /** Runs left behind by the cursor, or cut off by the break, have no link to lose. */
  lemma SweepIsComplete(runs: seq<Run>, parents: seq<nat>, low: nat, mid: nat, j: nat, cursor: nat, candidate: nat)
    requires Shaped(runs) && |runs| == |parents| && Forest(parents)
    requires low <= cursor <= candidate <= mid <= j < |runs| && RowIs(runs, runs[j].y - 1, low, mid)
    requires forall k :: low <= k < cursor ==> runs[k].end < runs[j].start - 1
    requires forall k :: cursor <= k < candidate ==> Root(parents, k) == Root(parents, j)
    requires candidate < mid ==> runs[candidate].start > runs[j].end + 1
    ensures LinkedUp(runs, parents, j)
  {
  }

  /** Along a row, starts and ends grow. */
  lemma RowGrows(runs: seq<Run>, first: nat, later: nat)
    requires Shaped(runs) && first <= later < |runs| && runs[first].y == runs[later].y
    ensures runs[first].end <= runs[later].end && runs[first].start <= runs[later].start
  {
  }

  lemma LinkedUpIsProgress(runs: seq<Run>, parents: seq<nat>, j: nat)
    requires Progress(runs, parents, |runs|, j) && j < |runs| && LinkedUp(runs, parents, j)
    ensures Progress(runs, parents, |runs|, j + 1)
  {
    hide Joined;
  }

  lemma LastPairIsProgress(runs: seq<Run>, parents: seq<nat>, last: nat, cross: nat)
    requires Progress(runs, parents, last, cross) && last + 1 == |runs|
    requires 0 < last && runs[last - 1].y == runs[last].y && Near(runs[last - 1], runs[last])
      ==> Root(parents, last - 1) == Root(parents, last)
    ensures Progress(runs, parents, |runs|, cross)
  {
    hide Joined;
  }

  class Tracer {
    var runs: seq<Run>
    const forest: Parents

    constructor ()
      ensures runs == [] && fresh(forest) && forest.parents == []
    {
      runs := [];
      forest := new Parents();
    }

    /** Appends a run and unites it with its left neighbour in the row when they are near. */
    method PushRun(r: Run, row: seq<nat>, ghost cross: nat) returns (index: nat)
      requires Progress(runs, forest.parents, |runs|, cross)
      requires row != [] ==>
        |runs| > 0 && row[|row| - 1] == |runs| - 1 && runs[|runs| - 1].y == r.y && runs[|runs| - 1].start <= r.end
      requires row == [] && runs != [] ==> runs[|runs| - 1].y != r.y
      modifies this, forest
      ensures index == old(|runs|) && runs == old(runs) + [r]
      ensures Progress(runs, forest.parents, |runs|, cross)
    {
      hide Joined, RowsMerged, CrossMerged;
      AppendKeepsProgress(runs, forest.parents, r, |runs|, cross);
      index := |runs|;
      runs := runs + [r];
      forest.parents := forest.parents + [index];
      if row != [] && runs[row[|row| - 1]].end >= r.start - 1 {
        ghost var before := forest.parents;
        forest.Union(row[|row| - 1], index);
        UnionKeepsProgress(runs, before, forest.parents, row[|row| - 1], index, index, cross);
      }
      LastPairIsProgress(runs, forest.parents, index, cross);
    }

    /** The scan of one row. */
    method EncodeRow(img: Image, y: nat) returns (row: seq<nat>)
      requires img.Valid() && y < img.height && Encodes(img, runs, 0, y)
      requires Progress(runs, forest.parents, |runs|, |runs|)
      modifies this, forest
      ensures Encodes(img, runs, 0, y + 1)
      ensures |old(runs)| <= |runs| && old(runs) == runs[..|old(runs)|]
      ensures Progress(runs, forest.parents, |runs|, |old(runs)|)
      ensures Range(row, |old(runs)|, |runs|)
      ensures forall i :: |old(runs)| <= i < |runs| ==> runs[i].y == y
    {
      hide Joined, RowsMerged, CrossMerged, Ordered, Maximal, Closed, CoveredBefore;
      var x := 0;
      row := [];
      ghost var base := |runs|;
      while x < img.width
        invariant x <= img.width
        invariant Encodes(img, runs, x, y)
        invariant base <= |runs| && old(runs) == runs[..base]
        invariant Progress(runs, forest.parents, |runs|, base)
        invariant Range(row, base, |runs|)
        invariant forall i :: base <= i < |runs| ==> runs[i].y == y
      {
        var quantized := img.At(x, y);
        if quantized.None? {
          SkipPixel(img, runs, x, y);
          x := x + 1;
          continue;
        }
        var start := x;
        x := x + 1;
        while x < img.width
          invariant start < x <= img.width
          invariant forall k :: start <= k < x ==> img.At(k, y) == quantized
        {
          var next := img.At(x, y);
          if next.None? || next != quantized {
            break;
          }
          x := x + 1;
        }
        var r := Run(y, start, x, quantized.value);
        AddRun(img, runs, start, r);
        var index := PushRun(r, row, base);
        row := row + [index];
      }
      NextRow(img, runs, y);
    }

    /** Walks the candidates of one run from the cursor on. */
    method LinkRun(index: nat, previous: seq<nat>, previousCursor: nat, ghost low: nat, ghost mid: nat)
      requires Shaped(runs) && Progress(runs, forest.parents, |runs|, index)
      requires low <= mid <= index < |runs| && Range(previous, low, mid) && RowIs(runs, runs[index].y - 1, low, mid)
      requires previousCursor <= |previous|
      requires forall k :: low <= k < low + previousCursor ==> runs[k].end < runs[index].start - 1
      requires previousCursor < |previous| ==> runs[low + previousCursor].end >= runs[index].start - 1
      modifies forest
      ensures Progress(runs, forest.parents, |runs|, index + 1)
    {
      hide Joined, RowsMerged, CrossMerged;
      var end := runs[index].end;
      var candidate := previousCursor;
      while candidate < |previous|
        invariant previousCursor <= candidate <= |previous|
        invariant Progress(runs, forest.parents, |runs|, index)
        invariant forall k :: low + previousCursor <= k < low + candidate ==>
          Root(forest.parents, k) == Root(forest.parents, index)
      {
        var previousIndex := previous[candidate];
        if runs[previousIndex].start > end + 1 {
          break;
        }
        ghost var before := forest.parents;
        RowGrows(runs, low + previousCursor, previousIndex);
        forest.Union(index, previousIndex);
        UnionKeepsProgress(runs, before, forest.parents, index, previousIndex, |runs|, index);
        candidate := candidate + 1;
      }
      SweepIsComplete(runs, forest.parents, low, mid, index, low + previousCursor, low + candidate);
      LinkedUpIsProgress(runs, forest.parents, index);
    }

    /** The two-cursor sweep of a row against the row above it; the cursor never moves back. */
    method LinkRow(current: seq<nat>, previous: seq<nat>, ghost y: nat, ghost low: nat, ghost mid: nat)
      requires Shaped(runs) && Progress(runs, forest.parents, |runs|, mid)
      requires Range(previous, low, mid) && Range(current, mid, |runs|)
      requires RowIs(runs, y - 1, low, mid) && RowIs(runs, y, mid, |runs|)
      modifies forest
      ensures Progress(runs, forest.parents, |runs|, |runs|)
    {
      var previousCursor := 0;
      for at := 0 to |current|
        invariant previousCursor <= |previous|
        invariant Progress(runs, forest.parents, |runs|, mid + at)
        invariant at < |current| ==> forall k :: low <= k < low + previousCursor ==>
          runs[k].end < runs[mid + at].start - 1
      {
        var index := current[at];
        var start: int := runs[index].start;
        while previousCursor < |previous| && runs[previous[previousCursor]].end < start - 1
          invariant previousCursor <= |previous|
          invariant forall k :: low <= k < low + previousCursor ==> runs[k].end < start - 1
        {
          previousCursor := previousCursor + 1;
        }
        LinkRun(index, previous, previousCursor, low, mid);
        if at + 1 < |current| {
          RowGrows(runs, index, index + 1);
        }
      }
    }

    /** The whole scan. */
    method Scan(img: Image)
      requires img.Valid() && runs == [] && forest.parents == []
      modifies this, forest
      ensures EncodesAll(img, runs)
      ensures Components(runs, forest.parents)
    {
      var previousRow := [];
      ghost var low: nat := 0;
      for y := 0 to img.height
        invariant Encodes(img, runs, 0, y)
        invariant Progress(runs, forest.parents, |runs|, |runs|)
        invariant low <= |runs| && Range(previousRow, low, |runs|) && RowIs(runs, y - 1, low, |runs|)
      {
        ghost var mid: nat := |runs|;
        var currentRow := EncodeRow(img, y);
        LinkRow(currentRow, previousRow, y, low, mid);
        previousRow := currentRow;
        low := mid;
      }
      ScanFindsComponents(runs, forest.parents);
    }
  }
}
