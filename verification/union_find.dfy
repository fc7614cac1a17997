/** The parent table that `find` and `union` share in build_full_vector_svg. */
module UnionFind {

  /** Parents never point upwards, so following them ends. */
  ghost predicate Forest(parents: seq<nat>) {
    forall i :: 0 <= i < |parents| ==> parents[i] <= i
  }

  /** The representative of `i`. */
  ghost function Root(parents: seq<nat>, i: nat): (r: nat)
    requires Forest(parents) && i < |parents|
    ensures r <= i && parents[r] == r
    decreases i
  {
    if parents[i] == i then i else Root(parents, parents[i])
  }

  ghost predicate SameRoots(before: seq<nat>, after: seq<nat>) {
    && |before| == |after| && Forest(before) && Forest(after)
    && forall i :: 0 <= i < |before| ==> Root(after, i) == Root(before, i)
  }

  /** Redirecting one non-root entry to any index of its own tree below it changes no representative. */
  lemma {:induction false} ShortcutKeepsRoot(parents: seq<nat>, at: nat, to: nat, i: nat)
    requires Forest(parents) && at < |parents| && i < |parents|
    requires to <= at && (to == at ==> parents[at] == at)
    requires Root(parents, to) == Root(parents, at)
    ensures Forest(parents[at := to])
    ensures Root(parents[at := to], i) == Root(parents, i)
    decreases i
  {
    var after := parents[at := to];
    if i == at {
      if to != at { ShortcutKeepsRoot(parents, at, to, to); }
    } else if parents[i] != i {
      ShortcutKeepsRoot(parents, at, to, parents[i]);
    }
  }

  /** Hanging the root `high` under the smaller root `low` moves exactly the tree of `high`. */
  lemma {:induction false} LinkMovesTree(parents: seq<nat>, low: nat, high: nat, i: nat)
    requires Forest(parents) && low < high < |parents| && i < |parents|
    requires parents[low] == low && parents[high] == high
    ensures Forest(parents[high := low])
    ensures Root(parents[high := low], i) == if Root(parents, i) == high then low else Root(parents, i)
    decreases i
  {
    if i != high && parents[i] != i {
      LinkMovesTree(parents, low, high, parents[i]);
    }
  }

  /** A fresh index starts as its own representative and leaves the others alone. */
  lemma {:induction false} AppendKeepsRoot(parents: seq<nat>, i: nat)
    requires Forest(parents) && i <= |parents|
    ensures Forest(parents + [|parents|])
    ensures Root(parents + [|parents|], i) == if i == |parents| then i else Root(parents, i)
    decreases i
  {
    if i < |parents| && parents[i] != i {
      AppendKeepsRoot(parents, parents[i]);
    }
  }

  /** What `union` leaves: both trees answer to the smaller representative, all others are untouched. */
  ghost predicate Merged(before: seq<nat>, after: seq<nat>, left: nat, right: nat)
    requires Forest(before) && left < |before| && right < |before|
  {
    var l, r := Root(before, left), Root(before, right);
    var low, high := if l < r then l else r, if l < r then r else l;
    && |after| == |before| && Forest(after)
    && forall i :: 0 <= i < |before| ==> Root(after, i) == if Root(before, i) == high then low else Root(before, i)
  }

  class Parents {
    var parents: seq<nat>

    constructor ()
      ensures parents == []
    {
      parents := [];
    }

    /** find: path halving changes parents but no representative. */
    method Find(start: nat) returns (index: nat)
      requires Forest(parents) && start < |parents|
      modifies this
      ensures SameRoots(old(parents), parents)
      ensures index == Root(old(parents), start)
    {
      index := start;
      while parents[index] != index
        invariant index < |parents| == |old(parents)|
        invariant SameRoots(old(parents), parents)
        invariant Root(parents, index) == Root(old(parents), start)
        decreases index
      {
        var before := parents;
        parents := parents[index := parents[parents[index]]];
        forall i | 0 <= i < |before| ensures Forest(parents) && Root(parents, i) == Root(before, i) {
          ShortcutKeepsRoot(before, index, before[before[index]], i);
        }
        index := parents[index];
      }
    }

    /** union: the smaller root wins. */
    method Union(left: nat, right: nat)
      requires Forest(parents) && left < |parents| && right < |parents|
      modifies this
      ensures Merged(old(parents), parents, left, right)
    {
      var leftRoot := Find(left);
      var rightRoot := Find(right);
      if leftRoot == rightRoot {
        return;
      }
      ghost var before := parents;
      if leftRoot < rightRoot {
        parents := parents[rightRoot := leftRoot];
        forall i | 0 <= i < |before|
          ensures Forest(parents)
            && Root(parents, i) == if Root(before, i) == rightRoot then leftRoot else Root(before, i)
        {
          LinkMovesTree(before, leftRoot, rightRoot, i);
        }
      } else {
        parents := parents[leftRoot := rightRoot];
        forall i | 0 <= i < |before|
          ensures Forest(parents)
            && Root(parents, i) == if Root(before, i) == leftRoot then rightRoot else Root(before, i)
        {
          LinkMovesTree(before, rightRoot, leftRoot, i);
        }
      }
    }
  }
}
