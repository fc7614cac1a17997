/** Retry lineages: the walk from a job up to the job first submitted, and the tree of its retries. */
module Lineage {
  import opened Options

  datatype JobStatus = Queued | Running | CancelRequested | Ended

  /** A row of the job table; its index is its id. `parent` is the parent_job_id of the payload, where it is one. */
  datatype Job = Job(
    user: nat, project: Option<nat>, jobType: string, revisionMode: string, flowPolicy: string,
    parent: Option<nat>, retryOf: Option<nat>, status: JobStatus, cancelling: bool)

  // ----- Up: the walk

  predicate Alike(a: Job, b: Job) { a.user == b.user && a.project == b.project && a.jobType == b.jobType }

  /** `n` retries lead from `at` up to `root`, past jobs like `base` only. */
  ghost predicate Leads(jobs: seq<Job>, base: Job, at: nat, root: nat, n: nat)
    decreases n
  {
    at < |jobs| &&
    if n == 0 then at == root && jobs[at].retryOf == None
    else
      && jobs[at].retryOf.Some? && jobs[at].retryOf.value < |jobs| && Alike(jobs[jobs[at].retryOf.value], base)
      && Leads(jobs, base, jobs[at].retryOf.value, root, n - 1)
  }

  ghost predicate LeadsTo(jobs: seq<Job>, base: Job, at: nat, root: nat) {
    exists n: nat :: Leads(jobs, base, at, root, n)
  }

  /** The job that the retries of `start` go back to, if they go back to one. */
  ghost predicate IsRoot(jobs: seq<Job>, start: nat, root: nat) {
    start < |jobs| && LeadsTo(jobs, jobs[start], start, root)
  }

  ghost predicate HasRoot(jobs: seq<Job>, start: nat) { exists root: nat :: IsRoot(jobs, start, root) }

  ghost function RootOf(jobs: seq<Job>, start: nat): (r: Option<nat>)
    ensures r.None? <==> !HasRoot(jobs, start)
    ensures r.Some? ==> IsRoot(jobs, start, r.value)
  {
    if HasRoot(jobs, start) then var root: nat :| IsRoot(jobs, start, root); Some(root) else None
  }

  lemma {:induction false} LeadsOnce(jobs: seq<Job>, base: Job, at: nat, r: nat, n: nat, s: nat, m: nat)
    requires Leads(jobs, base, at, r, n) && Leads(jobs, base, at, s, m)
    ensures r == s && n == m
    decreases n
  {
    if n > 0 && m > 0 {
      LeadsOnce(jobs, base, jobs[at].retryOf.value, r, n - 1, s, m - 1);
    }
  }

  lemma RootIsUnique(jobs: seq<Job>, start: nat, root: nat)
    requires IsRoot(jobs, start, root)
    ensures RootOf(jobs, start) == Some(root)
  {
    var other := RootOf(jobs, start).value;
    var n: nat :| Leads(jobs, jobs[start], start, root, n);
    var m: nat :| Leads(jobs, jobs[start], start, other, m);
    LeadsOnce(jobs, jobs[start], start, root, n, other, m);
  }

  lemma {:induction false} LeadsToRoot(jobs: seq<Job>, base: Job, at: nat, root: nat, n: nat)
    requires Leads(jobs, base, at, root, n)
    ensures root < |jobs| && jobs[root].retryOf == None
    ensures at < |jobs| && (Alike(jobs[at], base) ==> Alike(jobs[root], base))
    decreases n
  {
    if n > 0 {
      LeadsToRoot(jobs, base, jobs[at].retryOf.value, root, n - 1);
    }
  }

  /** A root was itself no retry, and belongs to the same user, project and kind of work. */
  lemma RootIsAlike(jobs: seq<Job>, start: nat, root: nat)
    requires IsRoot(jobs, start, root)
    ensures root < |jobs| && jobs[root].retryOf == None && Alike(jobs[root], jobs[start])
    ensures jobs[root].user == jobs[start].user && jobs[root].project == jobs[start].project
    ensures jobs[root].jobType == jobs[start].jobType
  {
    var n: nat :| Leads(jobs, jobs[start], start, root, n);
    LeadsToRoot(jobs, jobs[start], start, root, n);
  }

  /** Jobs that only lead to one another lead nowhere. */
  lemma {:induction false} CycleLeadsNowhere(jobs: seq<Job>, base: Job, seen: set<nat>, at: nat, root: nat, n: nat)
    requires forall x :: x in seen ==> x < |jobs| && jobs[x].retryOf.Some? && jobs[x].retryOf.value in seen
    requires at in seen
    ensures !Leads(jobs, base, at, root, n)
    decreases n
  {
    if n > 0 {
      CycleLeadsNowhere(jobs, base, seen, jobs[at].retryOf.value, root, n - 1);
    }
  }

  lemma StepUp(jobs: seq<Job>, base: Job, at: nat, root: nat)
    requires at < |jobs| && jobs[at].retryOf.Some?
    ensures LeadsTo(jobs, base, at, root) <==>
      && jobs[at].retryOf.value < |jobs| && Alike(jobs[jobs[at].retryOf.value], base)
      && LeadsTo(jobs, base, jobs[at].retryOf.value, root)
  {
    if LeadsTo(jobs, base, at, root) {
      var n: nat :| Leads(jobs, base, at, root, n);
      assert Leads(jobs, base, jobs[at].retryOf.value, root, n - 1);
    }
    if LeadsTo(jobs, base, jobs[at].retryOf.value, root) && Alike(jobs[jobs[at].retryOf.value], base) {
      var n: nat :| Leads(jobs, base, jobs[at].retryOf.value, root, n);
      assert Leads(jobs, base, at, root, n + 1);
    }
  }

  lemma {:induction false} IndexSetSize(s: set<nat>, n: nat)
    requires forall x :: x in s ==> x < n
    ensures |s| <= n
  {
    if n == 0 {
      assert s == {};
    } else {
      IndexSetSize(s - {n - 1}, n - 1);
      assert s <= s - {n - 1} + {n - 1};
    }
  }

  /** The jobs seen lead to one another, up to the last one, and the walk from there is the walk from the start. */
  ghost predicate Walked(jobs: seq<Job>, base: Job, start: nat, seen: set<nat>, at: nat) {
    && at < |jobs| && at in seen && (forall x :: x in seen ==> x < |jobs|)
    && (forall x :: x in seen && x != at ==> jobs[x].retryOf.Some? && jobs[x].retryOf.value in seen)
    && forall s: nat :: LeadsTo(jobs, base, start, s) <==> LeadsTo(jobs, base, at, s)
  }

  lemma WalkGoesOn(jobs: seq<Job>, base: Job, start: nat, seen: set<nat>, at: nat, parent: nat)
    requires Walked(jobs, base, start, seen, at) && jobs[at].retryOf == Some(parent)
    ensures parent < |jobs| && parent !in seen && Alike(jobs[parent], base) ==>
      Walked(jobs, base, start, seen + {parent}, parent)
    ensures parent >= |jobs| || parent in seen || !Alike(jobs[parent], base) ==>
      forall s: nat :: !LeadsTo(jobs, base, start, s)
  {
    hide Leads;
    forall s: nat ensures parent in seen ==> !LeadsTo(jobs, base, start, s) {
      StepUp(jobs, base, at, s);
      forall n: nat ensures parent in seen ==> !Leads(jobs, base, at, s, n) {
        if parent in seen { CycleLeadsNowhere(jobs, base, seen, at, s, n); }
      }
    }
    forall s: nat { StepUp(jobs, base, at, s); }
  }

  /** The walk of _reserve_text_attempt, over any table: the jobs seen so far catch every cycle and nothing else. */
  method FindRoot(jobs: seq<Job>, start: nat) returns (r: Option<nat>)
    requires start < |jobs|
    ensures r == RootOf(jobs, start)
    ensures r.None? <==> forall root: nat :: !IsRoot(jobs, start, root)
  {
    hide LeadsTo, Walked;
    var base := jobs[start];
    var root: nat, seen: set<nat> := start, {start};
    assert Walked(jobs, base, start, seen, root) by { StartOfWalk(jobs, base, start); }
    while jobs[root].retryOf.Some?
      invariant root < |jobs| && Walked(jobs, base, start, seen, root) && forall x :: x in seen ==> x < |jobs|
      decreases |jobs| - |seen|
    {
      var parent := jobs[root].retryOf.value;
      WalkGoesOn(jobs, base, start, seen, root, parent);
      if parent >= |jobs| || parent in seen || !Alike(jobs[parent], base) {
        return None;
      }
      seen := seen + {parent};
      IndexSetSize(seen, |jobs|);
      root := parent;
    }
    EndOfWalk(jobs, start, seen, root);
    return Some(root);
  }

  lemma StartOfWalk(jobs: seq<Job>, base: Job, start: nat)
    requires start < |jobs|
    ensures Walked(jobs, base, start, {start}, start)
  {
  }

  lemma EndOfWalk(jobs: seq<Job>, start: nat, seen: set<nat>, at: nat)
    requires start < |jobs| && at < |jobs| && Walked(jobs, jobs[start], start, seen, at) && jobs[at].retryOf == None
    ensures RootOf(jobs, start) == Some(at)
  {
    assert Leads(jobs, jobs[start], at, at, 0);
    RootIsUnique(jobs, start, at);
  }

  // ----- Down: the recursive query

  /** `j` is `n` retries below `root`, past jobs of the same user and kind. */
  ghost predicate Below(jobs: seq<Job>, base: Job, root: nat, j: nat, n: nat)
    decreases n
  {
    j < |jobs| &&
    if n == 0 then j == root
    else
      && jobs[j].user == base.user && jobs[j].jobType == base.jobType
      && jobs[j].retryOf.Some? && Below(jobs, base, root, jobs[j].retryOf.value, n - 1)
  }

  ghost predicate InTree(jobs: seq<Job>, base: Job, root: nat, j: nat) {
    exists n: nat :: Below(jobs, base, root, j, n)
  }

  lemma {:induction false} OneLevel(jobs: seq<Job>, base: Job, root: nat, j: nat, n: nat, m: nat)
    requires root < |jobs| && jobs[root].retryOf == None && Below(jobs, base, root, j, n)
      && Below(jobs, base, root, j, m)
    ensures n == m
    decreases n
  {
    if n > 0 && m > 0 {
      OneLevel(jobs, base, root, jobs[j].retryOf.value, n - 1, m - 1);
    }
  }

  lemma {:induction false} EmptyLevelEnds(jobs: seq<Job>, base: Job, root: nat, n: nat, j: nat, m: nat)
    requires forall k: nat :: !Below(jobs, base, root, k, n)
    requires n <= m
    ensures !Below(jobs, base, root, j, m)
    decreases m
  {
    if n < m && j < |jobs| && jobs[j].retryOf.Some? {
      EmptyLevelEnds(jobs, base, root, n, jobs[j].retryOf.value, m - 1);
    }
  }

  ghost predicate IsLevel(jobs: seq<Job>, base: Job, root: nat, level: set<nat>, n: nat) {
    forall j: nat :: j in level <==> Below(jobs, base, root, j, n)
  }

  ghost predicate IsUpTo(jobs: seq<Job>, base: Job, root: nat, tree: set<nat>, n: nat) {
    forall j: nat :: j in tree <==> BelowLess(jobs, base, root, j, n)
  }

  /** The recursive query, level by level; it ends on any table, since no cycle hangs below a job that is no retry. */
  method RetryTree(jobs: seq<Job>, base: Job, root: nat) returns (tree: set<nat>)
    requires root < |jobs| && jobs[root].retryOf == None
    ensures forall j: nat :: j in tree <==> InTree(jobs, base, root, j)
  {
    hide Below, InTree, IsLevel, IsUpTo;
    tree := {};
    var level: set<nat> := {root};
    ghost var n := 0;
    assert IsLevel(jobs, base, root, level, 0) && IsUpTo(jobs, base, root, tree, 0) by { FirstLevel(jobs, base, root); }
    while level != {}
      invariant IsLevel(jobs, base, root, level, n) && IsUpTo(jobs, base, root, tree, n)
      decreases |jobs| - |tree|
    {
      NextLevel(jobs, base, root, tree, level, n);
      tree := tree + level;
      level := Children(jobs, base, level);
      n := n + 1;
    }
    LastLevel(jobs, base, root, tree, n);
  }

  lemma FirstLevel(jobs: seq<Job>, base: Job, root: nat)
    requires root < |jobs|
    ensures IsLevel(jobs, base, root, {root}, 0) && IsUpTo(jobs, base, root, {}, 0)
  {
  }

  function Children(jobs: seq<Job>, base: Job, level: set<nat>): set<nat> {
    set j: nat | j < |jobs| && jobs[j].user == base.user && jobs[j].jobType == base.jobType
      && jobs[j].retryOf.Some? && jobs[j].retryOf.value in level
  }

  lemma NextLevel(jobs: seq<Job>, base: Job, root: nat, tree: set<nat>, level: set<nat>, n: nat)
    requires root < |jobs| && jobs[root].retryOf == None
    requires IsLevel(jobs, base, root, level, n) && IsUpTo(jobs, base, root, tree, n)
    ensures IsLevel(jobs, base, root, Children(jobs, base, level), n + 1)
      && IsUpTo(jobs, base, root, tree + level, n + 1)
    ensures tree !! level && |tree + level| <= |jobs|
  {
    LevelIsNew(jobs, base, root, tree, level, n);
    forall j: nat
      ensures BelowLess(jobs, base, root, j, n + 1) <==>
        BelowLess(jobs, base, root, j, n) || Below(jobs, base, root, j, n)
    {
      if BelowLess(jobs, base, root, j, n) {
        var m: nat :| m < n && Below(jobs, base, root, j, m);
        assert m < n + 1;
      }
    }
    IndexSetSize(tree + level, |jobs|);
  }

  lemma LastLevel(jobs: seq<Job>, base: Job, root: nat, tree: set<nat>, n: nat)
    requires IsLevel(jobs, base, root, {}, n) && IsUpTo(jobs, base, root, tree, n)
    ensures forall j: nat :: j in tree <==> InTree(jobs, base, root, j)
  {
    forall j: nat | InTree(jobs, base, root, j) ensures j in tree {
      var m: nat :| Below(jobs, base, root, j, m);
      if n <= m { EmptyLevelEnds(jobs, base, root, n, j, m); }
    }
  }

  ghost predicate BelowLess(jobs: seq<Job>, base: Job, root: nat, j: nat, n: nat) {
    exists m: nat :: m < n && Below(jobs, base, root, j, m)
  }

  lemma LevelIsNew(jobs: seq<Job>, base: Job, root: nat, tree: set<nat>, level: set<nat>, n: nat)
    requires root < |jobs| && jobs[root].retryOf == None
    requires forall j: nat :: j in level ==> Below(jobs, base, root, j, n)
    requires forall j: nat :: j in tree ==> BelowLess(jobs, base, root, j, n)
    ensures tree !! level
  {
    forall j | j in tree ensures j !in level {
      var m: nat :| m < n && Below(jobs, base, root, j, m);
      if j in level { OneLevel(jobs, base, root, j, m, n); }
    }
  }

  // ----- Both ways

  lemma {:induction false} LeadsIsBelow(jobs: seq<Job>, base: Job, at: nat, root: nat, n: nat)
    requires Leads(jobs, base, at, root, n) && Alike(jobs[at], base)
    ensures Below(jobs, base, root, at, n)
    decreases n
  {
    if n > 0 {
      LeadsIsBelow(jobs, base, jobs[at].retryOf.value, root, n - 1);
    }
  }

  lemma {:induction false} BelowLikeBase(jobs: seq<Job>, base: Job, other: Job, root: nat, j: nat, n: nat)
    requires Below(jobs, base, root, j, n) && base.user == other.user && base.jobType == other.jobType
    ensures Below(jobs, other, root, j, n)
    decreases n
  {
    if n > 0 {
      BelowLikeBase(jobs, base, other, root, jobs[j].retryOf.value, n - 1);
    }
  }

  /** The query asks with the job at hand; asking with the root gives the same tree. */
  lemma SameTree(jobs: seq<Job>, base: Job, other: Job, root: nat, j: nat)
    requires base.user == other.user && base.jobType == other.jobType
    ensures InTree(jobs, base, root, j) <==> InTree(jobs, other, root, j)
  {
    if InTree(jobs, base, root, j) {
      var n: nat :| Below(jobs, base, root, j, n);
      BelowLikeBase(jobs, base, other, root, j, n);
    }
    if InTree(jobs, other, root, j) {
      var n: nat :| Below(jobs, other, root, j, n);
      BelowLikeBase(jobs, other, base, root, j, n);
    }
  }

  /** On any table, the query finds every job that walks up to the root. */
  lemma WalkersAreInTree(jobs: seq<Job>, root: nat, j: nat)
    requires IsRoot(jobs, j, root)
    ensures InTree(jobs, jobs[j], root, j)
  {
    var n: nat :| Leads(jobs, jobs[j], j, root, n);
    LeadsIsBelow(jobs, jobs[j], j, root, n);
  }

  /** What job creation guarantees: a retry names an earlier job of the same user, project and kind. */
  ghost predicate WellFormed(jobs: seq<Job>) {
    forall j :: 0 <= j < |jobs| && jobs[j].retryOf.Some? ==>
      jobs[j].retryOf.value < j && Alike(jobs[jobs[j].retryOf.value], jobs[j])
  }

  lemma {:induction false} LeadsSomewhere(jobs: seq<Job>, base: Job, at: nat) returns (root: nat, n: nat)
    requires WellFormed(jobs) && at < |jobs| && Alike(jobs[at], base)
    ensures Leads(jobs, base, at, root, n)
  {
    if jobs[at].retryOf == None {
      root, n := at, 0;
    } else {
      var m;
      root, m := LeadsSomewhere(jobs, base, jobs[at].retryOf.value);
      n := m + 1;
    }
  }

  /** On the tables that job creation makes, the walk never fails. */
  lemma EveryJobHasRoot(jobs: seq<Job>, j: nat)
    requires WellFormed(jobs) && j < |jobs|
    ensures RootOf(jobs, j).Some?
  {
    var root, n := LeadsSomewhere(jobs, jobs[j], j);
    assert IsRoot(jobs, j, root);
  }

  lemma {:induction false} BelowIsLeads(jobs: seq<Job>, base: Job, root: nat, j: nat, n: nat)
    requires WellFormed(jobs) && Below(jobs, base, root, j, n) && root < |jobs| && jobs[root].retryOf == None
    ensures Leads(jobs, jobs[j], j, root, n)
    decreases n
  {
    if n > 0 {
      var up := jobs[j].retryOf.value;
      BelowIsLeads(jobs, base, root, up, n - 1);
      LeadsLikeBase(jobs, jobs[up], jobs[j], up, root, n - 1);
    }
  }

  lemma {:induction false} LeadsLikeBase(jobs: seq<Job>, base: Job, other: Job, at: nat, root: nat, n: nat)
    requires Leads(jobs, base, at, root, n) && Alike(base, other)
    ensures Leads(jobs, other, at, root, n)
    decreases n
  {
    if n > 0 {
      LeadsLikeBase(jobs, base, other, jobs[at].retryOf.value, root, n - 1);
    }
  }

  /** The tree of a root is the set of jobs that walk up to it. */
  lemma TreeIsLineage(jobs: seq<Job>, root: nat, j: nat)
    requires WellFormed(jobs) && root < |jobs| && jobs[root].retryOf == None
    ensures InTree(jobs, jobs[root], root, j) <==> RootOf(jobs, j) == Some(root)
  {
    if InTree(jobs, jobs[root], root, j) {
      var n: nat :| Below(jobs, jobs[root], root, j, n);
      BelowIsLeads(jobs, jobs[root], root, j, n);
      RootIsUnique(jobs, j, root);
    }
    if RootOf(jobs, j) == Some(root) {
      WalkersAreInTree(jobs, root, j);
      RootIsAlike(jobs, j, root);
      SameTree(jobs, jobs[j], jobs[root], root, j);
    }
  }

  // ----- Later tables

  /** A table with more jobs, and the old ones as they were but for their status. */
  ghost predicate Extends(earlier: seq<Job>, jobs: seq<Job>) {
    |earlier| <= |jobs| && forall j :: 0 <= j < |earlier| ==>
      jobs[j].(status := earlier[j].status, cancelling := earlier[j].cancelling) == earlier[j]
  }

  lemma {:induction false} LeadsLater(a: seq<Job>, b: seq<Job>, base: Job, at: nat, root: nat, n: nat)
    requires Extends(a, b) && Leads(a, base, at, root, n)
    ensures Leads(b, base, at, root, n)
    decreases n
  {
    if n > 0 {
      LeadsLater(a, b, base, a[at].retryOf.value, root, n - 1);
    }
  }

  /** A root, once found, is found ever after. */
  lemma RootStays(a: seq<Job>, b: seq<Job>, j: nat)
    requires Extends(a, b) && RootOf(a, j).Some?
    ensures RootOf(b, j) == RootOf(a, j)
  {
    var root := RootOf(a, j).value;
    var n: nat :| Leads(a, a[j], j, root, n);
    LeadsLater(a, b, a[j], j, root, n);
    LeadsLikeBase(b, a[j], b[j], j, root, n);
    RootIsUnique(b, j, root);
  }
}
