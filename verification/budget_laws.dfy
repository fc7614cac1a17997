/** What every run keeps of the request tables. */
module BudgetLaws {
  import opened Options
  import opened Lineage
  import opened Budget

  // ----- Sums of shares

  lemma {:induction false} SameShares(a: seq<Job>, b: seq<Job>, base: Job, other: Job, root: nat, x: seq<Request>,
      y: seq<Request>, n: nat)
    requires n <= |x| && n <= |y|
    requires forall k :: 0 <= k < n ==> Share(a, base, root, x[k]) == Share(b, other, root, y[k])
    ensures SpentTo(a, base, root, x, n) == SpentTo(b, other, root, y, n)
  {
    hide Share;
    if n > 0 {
      SameShares(a, b, base, other, root, x, y, n - 1);
    }
  }

  ghost predicate SameBut(jobs: seq<Job>, base: Job, root: nat, x: seq<Request>, y: seq<Request>, i: nat) {
    |x| == |y| && forall k :: 0 <= k < |x| && k != i ==> Share(jobs, base, root, x[k]) == Share(jobs, base, root, y[k])
  }

  lemma {:induction false} OneShareRaised(jobs: seq<Job>, base: Job, root: nat, x: seq<Request>, y: seq<Request>,
      i: nat, d: Counters, n: nat)
    requires i < n <= |x| == |y|
    ensures SameBut(jobs, base, root, x, y, i)
      && Share(jobs, base, root, y[i]) == Plus(Share(jobs, base, root, x[i]), d)
      ==> SpentTo(jobs, base, root, y, n) == Plus(SpentTo(jobs, base, root, x, n), d)
  {
    hide Share, Plus;
    if !SameBut(jobs, base, root, x, y, i) {
    } else if n == i + 1 {
      SameShares(jobs, jobs, base, base, root, x, y, i);
      Regroup(SpentTo(jobs, base, root, x, i), Share(jobs, base, root, x[i]), d);
    } else {
      OneShareRaised(jobs, base, root, x, y, i, d, n - 1);
      Swap(SpentTo(jobs, base, root, x, n - 1), d, Share(jobs, base, root, x[n - 1]));
    }
  }

  lemma Regroup(a: Counters, b: Counters, c: Counters)
    ensures Plus(a, Plus(b, c)) == Plus(Plus(a, b), c) && Plus(a, Zero) == a
  {
  }

  lemma Swap(a: Counters, b: Counters, c: Counters)
    ensures Plus(Plus(a, b), c) == Plus(Plus(a, c), b)
  {
  }

  lemma {:induction false} NoShares(jobs: seq<Job>, base: Job, root: nat, x: seq<Request>, n: nat)
    requires n <= |x| && forall k :: 0 <= k < n ==> Share(jobs, base, root, x[k]) == Zero
    ensures SpentTo(jobs, base, root, x, n) == Zero
  {
    hide Share;
    if n > 0 {
      NoShares(jobs, base, root, x, n - 1);
    }
  }

  // ----- The invariant

  /** The root that pays for calls of `job`, whoever may make calls now. */
  ghost function Owner(jobs: seq<Job>, job: nat): Option<nat>
    requires job < |jobs|
  {
    if jobs[job].jobType != Dispatch then RootOf(jobs, job)
    else if jobs[job].parent.Some? && jobs[job].parent.value < |jobs| then RootOf(jobs, jobs[job].parent.value)
    else None
  }

  /** A delegated request that spent anything is marked with the root that pays; nothing else is marked. */
  ghost predicate RowOk(jobs: seq<Job>, q: Request) {
    && q.job < |jobs|
    && (q.budgetRoot.Some? ==> jobs[q.job].jobType == Dispatch && Owner(jobs, q.job) == q.budgetRoot)
    && (q.budgetRoot.None? && jobs[q.job].jobType == Dispatch ==> q.counters == Zero)
  }

  ghost predicate RowsOk(g: Gateway) { forall i :: 0 <= i < |g.requests| ==> RowOk(g.jobs, g.requests[i]) }

  ghost predicate JobEnded(g: Gateway, id: nat) {
    id < |g.requests| && g.requests[id].job < |g.jobs| && g.jobs[g.requests[id].job].status == Ended
  }

  /** A call's last counters are those of its row, and the row is in flight as long as the job has not ended. */
  ghost predicate CallOk(g: Gateway, c: LiveCall) {
    && c.request < |g.requests|
    && (c.metering.Some? ==> c.metering.value == g.requests[c.request].counters)
    && (g.requests[c.request].status == InFlight || JobEnded(g, c.request))
  }

  /** Only for an ended job can one request have two calls under way. */
  ghost predicate CallsOk(g: Gateway) {
    && (forall a :: a in g.calls ==> CallOk(g, g.calls[a]))
    && forall a, b :: a in g.calls && b in g.calls && a != b && g.calls[a].request == g.calls[b].request ==>
         JobEnded(g, g.calls[a].request)
  }

  /** A job that is no retry, and no delegated call, has a budget. */
  predicate IsBudget(jobs: seq<Job>, root: nat) {
    root < |jobs| && jobs[root].retryOf == None && jobs[root].jobType != Dispatch
  }

  ghost function Total(g: Gateway, root: nat): Counters {
    if IsBudget(g.jobs, root) then Spent(g.jobs, g.jobs[root], root, g.requests) else Zero
  }

  ghost predicate Within(g: Gateway, root: nat) {
    Total(g, root).attempts <= g.maxAttempts && Total(g, root).chars <= g.maxChars
  }

  ghost predicate TablesOk(g: Gateway) { WellFormed(g.jobs) && RowsOk(g) && CallsOk(g) }

  ghost predicate Inv(g: Gateway) { TablesOk(g) && forall root: nat :: Within(g, root) }

  // ----- Who pays

  /** For a budget root, being found by the query is being owned, up to requests that spent nothing. */
  lemma FoundIsOwned(jobs: seq<Job>, root: nat, q: Request)
    requires WellFormed(jobs) && RowOk(jobs, q) && IsBudget(jobs, root)
    ensures Share(jobs, jobs[root], root, q) == if Owner(jobs, q.job) == Some(root) then q.counters else Zero
  {
    TreeIsLineage(jobs, root, q.job);
    if jobs[q.job].jobType == Dispatch && RootOf(jobs, q.job) == Some(root) {
      RootIsAlike(jobs, q.job, root);
      assert false;
    }
  }

  /** Once a root pays for a job it always will; only delegated jobs can be without one. */
  lemma OwnerStays(a: seq<Job>, b: seq<Job>, job: nat)
    requires Extends(a, b) && WellFormed(a) && job < |a|
    ensures Owner(a, job).Some? ==> Owner(b, job) == Owner(a, job) && Owner(a, job).value < |a|
    ensures Owner(a, job).None? ==> a[job].jobType == Dispatch
  {
    if a[job].jobType != Dispatch {
      EveryJobHasRoot(a, job);
      RootStays(a, b, job);
      RootIsAlike(a, job, RootOf(a, job).value);
    } else if a[job].parent.Some? && a[job].parent.value < |a| {
      EveryJobHasRoot(a, a[job].parent.value);
      RootStays(a, b, a[job].parent.value);
      RootIsAlike(a, a[job].parent.value, RootOf(a, a[job].parent.value).value);
    }
  }

  // ----- Steps on the job table

  lemma RowStays(a: seq<Job>, b: seq<Job>, q: Request)
    requires Extends(a, b) && WellFormed(a) && RowOk(a, q)
    ensures RowOk(b, q)
  {
    OwnerStays(a, b, q.job);
  }

  lemma ShareStays(a: seq<Job>, b: seq<Job>, root: nat, q: Request)
    requires Extends(a, b) && WellFormed(a) && WellFormed(b) && RowOk(a, q) && IsBudget(b, root)
    ensures Share(b, b[root], root, q) == if root < |a| then Share(a, a[root], root, q) else Zero
  {
    hide WellFormed, Share;
    OwnerStays(a, b, q.job);
    RowStays(a, b, q);
    FoundIsOwned(b, root, q);
    if root < |a| {
      FoundIsOwned(a, root, q);
    }
  }

  /** Later job tables charge the same rows to the same roots. */
  lemma TotalStays(g: Gateway, h: Gateway, root: nat)
    requires TablesOk(g) && Extends(g.jobs, h.jobs) && WellFormed(h.jobs) && h.requests == g.requests
    ensures Total(h, root) == Total(g, root)
  {
    hide Share, RowOk, WellFormed;
    if IsBudget(h.jobs, root) {
      forall k | 0 <= k < |g.requests|
        ensures Share(h.jobs, h.jobs[root], root, g.requests[k])
          == if root < |g.jobs| then Share(g.jobs, g.jobs[root], root, g.requests[k]) else Zero
      {
        ShareStays(g.jobs, h.jobs, root, g.requests[k]);
      }
      if root < |g.jobs| {
        SameShares(g.jobs, h.jobs, g.jobs[root], h.jobs[root], root, g.requests, h.requests, |g.requests|);
      } else {
        NoShares(h.jobs, h.jobs[root], root, h.requests, |h.requests|);
      }
    }
  }

  ghost predicate EndedStay(a: seq<Job>, b: seq<Job>) {
    |a| <= |b| && forall j :: 0 <= j < |a| && a[j].status == Ended ==> b[j].status == Ended
  }

  lemma ExtendedCalls(g: Gateway, h: Gateway)
    requires CallsOk(g) && EndedStay(g.jobs, h.jobs) && h.requests == g.requests && h.calls == g.calls
    ensures CallsOk(h)
  {
    assert forall id :: JobEnded(g, id) ==> JobEnded(h, id);
    assert forall a :: a in g.calls ==> CallOk(g, g.calls[a]);
    hide JobEnded;
  }

  lemma ExtendedTables(g: Gateway, h: Gateway)
    requires TablesOk(g) && Extends(g.jobs, h.jobs) && EndedStay(g.jobs, h.jobs) && WellFormed(h.jobs)
    requires h.requests == g.requests && h.calls == g.calls
    ensures TablesOk(h)
  {
    hide RowOk, WellFormed, CallsOk;
    ExtendedCalls(g, h);
    forall i | 0 <= i < |g.requests| ensures RowOk(h.jobs, h.requests[i]) { RowStays(g.jobs, h.jobs, g.requests[i]); }
  }

  lemma CreateExtends(g: Gateway, job: Job)
    requires WellFormed(g.jobs)
    ensures Extends(g.jobs, Create(g, job).jobs) && WellFormed(Create(g, job).jobs)
      && EndedStay(g.jobs, Create(g, job).jobs)
  {
  }

  lemma UpdateExtends(g: Gateway, at: nat, status: JobStatus, cancelling: bool)
    requires WellFormed(g.jobs)
    ensures var jobs := Update(g, at, status, cancelling).jobs;
      Extends(g.jobs, jobs) && WellFormed(jobs) && EndedStay(g.jobs, jobs)
  {
  }

  // ----- Steps on the request table

  lemma SpentRaised(jobs: seq<Job>, base: Job, root: nat, x: seq<Request>, i: nat, row: Request, e: Counters)
    requires i < |x|
    ensures Share(jobs, base, root, row) == Plus(Share(jobs, base, root, x[i]), e)
      ==> Spent(jobs, base, root, x[i := row]) == Plus(Spent(jobs, base, root, x), e)
  {
    hide Share, Plus, SpentTo;
    OneShareRaised(jobs, base, root, x, x[i := row], i, e, |x|);
  }

  lemma ShareRaised(jobs: seq<Job>, root: nat, q: Request, row: Request, d: Counters)
    requires WellFormed(jobs) && IsBudget(jobs, root) && RowOk(jobs, q) && RowOk(jobs, row)
    requires row.job == q.job
    ensures row.counters == Plus(q.counters, d) ==>
      Share(jobs, jobs[root], root, row)
        == Plus(Share(jobs, jobs[root], root, q), if Owner(jobs, q.job) == Some(root) then d else Zero)
  {
    hide Share, RowOk, WellFormed, Owner, Plus;
    Regroup(Zero, Zero, Zero);
    FoundIsOwned(jobs, root, q);
    FoundIsOwned(jobs, root, row);
  }

  /** One row spends `d` more: so does the budget that pays for it, and no other. */
  lemma TotalRaised(g: Gateway, i: nat, row: Request, d: Counters, root: nat)
    requires TablesOk(g) && i < |g.requests| && RowOk(g.jobs, row)
    requires row.job == g.requests[i].job
    ensures row.counters == Plus(g.requests[i].counters, d) ==>
      var e := if IsBudget(g.jobs, root) && Owner(g.jobs, row.job) == Some(root) then d else Zero;
      Total(g.(requests := g.requests[i := row]), root) == Plus(Total(g, root), e)
  {
    Regroup(Total(g, root), Zero, Zero);
    if IsBudget(g.jobs, root) && row.counters == Plus(g.requests[i].counters, d) {
      hide Share, RowOk, WellFormed, Owner, Spent, Plus;
      var e := if Owner(g.jobs, row.job) == Some(root) then d else Zero;
      ShareRaised(g.jobs, root, g.requests[i], row, d);
      SpentRaised(g.jobs, g.jobs[root], root, g.requests, i, row, e);
    }
  }

  lemma SpentAppended(jobs: seq<Job>, base: Job, root: nat, x: seq<Request>, row: Request)
    ensures Spent(jobs, base, root, x + [row]) == Plus(Spent(jobs, base, root, x), Share(jobs, base, root, row))
  {
    hide Share, Plus;
    SameShares(jobs, jobs, base, base, root, x, x + [row], |x|);
  }

  /** A new row that spent nothing changes no total. */
  lemma TotalAppended(g: Gateway, row: Request, root: nat)
    requires row.counters == Zero
    ensures Total(g.(requests := g.requests + [row]), root) == Total(g, root)
  {
    hide Found, Plus, Spent;
    if IsBudget(g.jobs, root) {
      SpentAppended(g.jobs, g.jobs[root], root, g.requests, row);
      Regroup(Spent(g.jobs, g.jobs[root], root, g.requests), Zero, Zero);
    }
  }

  lemma RowKept(jobs: seq<Job>, q: Request, row: Request)
    requires RowOk(jobs, q) && row.job == q.job && row.counters == q.counters && row.budgetRoot == q.budgetRoot
    ensures RowOk(jobs, row)
  {
  }

  lemma RowsWith(g: Gateway, i: nat, row: Request)
    requires RowsOk(g) && i < |g.requests| && RowOk(g.jobs, row)
    ensures RowsOk(g.(requests := g.requests[i := row]))
  {
  }

  /** What beginning does to the rows that live calls refer to. */
  lemma BegunRow(g: Gateway, call: CallId, job: nat, key: string, digest: nat, id: nat)
    requires id < |g.requests|
    ensures var h := Begin(g, call, job, key, digest);
      && h.jobs == g.jobs && id < |h.requests|
      && h.requests[id].job == g.requests[id].job && h.requests[id].counters == g.requests[id].counters
      && (g.requests[id].status == InFlight ==> h.requests[id].status == InFlight)
  {
    hide FindRequest;
  }

  /** A new call belongs to a row that was not in flight before, and is now. */
  lemma BegunCall(g: Gateway, call: CallId, job: nat, key: string, digest: nat)
    ensures var h := Begin(g, call, job, key, digest);
      h == g || (
        && call !in g.calls && call in h.calls && h.calls == g.calls[call := h.calls[call]]
        && h.calls[call].metering == None && h.calls[call].request < |h.requests|
        && h.requests[h.calls[call].request].status == InFlight
        && (h.calls[call].request < |g.requests| ==> g.requests[h.calls[call].request].status != InFlight))
  {
    hide FindRequest;
  }

  /** A request that begins anew has no call under way, unless its job has ended. */
  lemma BeginCalls(g: Gateway, call: CallId, job: nat, key: string, digest: nat)
    requires CallsOk(g)
    ensures CallsOk(Begin(g, call, job, key, digest))
  {
    hide Begin;
    var h := Begin(g, call, job, key, digest);
    BegunCall(g, call, job, key, digest);
    forall a | a in g.calls
      ensures CallOk(g, g.calls[a]) && CallOk(h, g.calls[a])
      ensures JobEnded(g, g.calls[a].request) <==> JobEnded(h, g.calls[a].request)
    {
      BegunRow(g, call, job, key, digest, g.calls[a].request);
    }
    hide JobEnded;
  }

  lemma BeginSpends(g: Gateway, call: CallId, job: nat, key: string, digest: nat, root: nat)
    requires TablesOk(g)
    ensures Total(Begin(g, call, job, key, digest), root) == Total(g, root)
  {
    var h := Begin(g, call, job, key, digest);
    hide WellFormed, RowOk, CallsOk, Plus, Spent;
    if h != g {
      var id := BeginAnswer(g, job, key, digest).id;
      if id < |g.requests| {
        RowKept(g.jobs, g.requests[id], h.requests[id]);
        hide FindRequest;
        SameCounters(g, id, h.requests[id], root);
      } else {
        hide FindRequest;
        TotalAppended(g, h.requests[id], root);
      }
    }
  }

  /** Rewriting a row without touching its counters changes no total. */
  lemma SameCounters(g: Gateway, i: nat, row: Request, root: nat)
    requires TablesOk(g) && i < |g.requests| && RowOk(g.jobs, row)
    requires row.job == g.requests[i].job && row.counters == g.requests[i].counters
    ensures Total(g.(requests := g.requests[i := row]), root) == Total(g, root)
  {
    hide TablesOk, RowOk, Plus, Owner, Total;
    Regroup(row.counters, Zero, Zero);
    Regroup(Total(g, root), Zero, Zero);
    TotalRaised(g, i, row, Zero, root);
  }

  lemma SucceedTables(g: Gateway, call: nat, root: nat)
    requires TablesOk(g)
    ensures TablesOk(Succeed(g, call)) && Total(Succeed(g, call), root) == Total(g, root)
  {
    var h := Succeed(g, call);
    assert call in g.calls ==> CallOk(g, g.calls[call]);
    hide WellFormed, RowOk, Spent, CallsOk;
    if h != g {
      var id := g.calls[call].request;
      RowKept(g.jobs, g.requests[id], h.requests[id]);
      RowsWith(g, id, h.requests[id]);
      SameCounters(g, id, h.requests[id], root);
    }
  }

  lemma FailCalls(g: Gateway, call: nat)
    requires CallsOk(g)
    ensures CallsOk(Fail(g, call))
  {
    var h := Fail(g, call);
    forall a | a in h.calls ensures CallOk(h, h.calls[a]) {
      assert CallOk(g, g.calls[a]);
    }
  }

  lemma FailTables(g: Gateway, call: nat, root: nat)
    requires TablesOk(g)
    ensures TablesOk(Fail(g, call)) && Total(Fail(g, call), root) == Total(g, root)
  {
    var h := Fail(g, call);
    FailCalls(g, call);
    hide WellFormed, RowOk, Spent, CallsOk;
    if h != g {
      var id := g.calls[call].request;
      RowKept(g.jobs, g.requests[id], h.requests[id]);
      RowsWith(g, id, h.requests[id]);
      SameCounters(g, id, h.requests[id], root);
    }
  }

  lemma SweepRequestCalls(g: Gateway, at: nat)
    requires CallsOk(g)
    ensures CallsOk(SweepRequest(g, at))
  {
    var h := SweepRequest(g, at);
    forall a | a in h.calls ensures CallOk(h, h.calls[a]) {
      assert CallOk(g, g.calls[a]);
    }
  }

  lemma SweepRequestTables(g: Gateway, at: nat, root: nat)
    requires TablesOk(g)
    ensures TablesOk(SweepRequest(g, at)) && Total(SweepRequest(g, at), root) == Total(g, root)
  {
    var h := SweepRequest(g, at);
    SweepRequestCalls(g, at);
    hide WellFormed, RowOk, Spent, CallsOk;
    if h != g {
      var id := at;
      RowKept(g.jobs, g.requests[id], h.requests[id]);
      RowsWith(g, id, h.requests[id]);
      SameCounters(g, id, h.requests[id], root);
    }
  }

  // ----- An attempt

  /** The root an attempt is judged by is a budget, and owns the request's job. */
  lemma RootForOwns(g: Gateway, id: nat)
    requires WellFormed(g.jobs) && id < |g.requests| && RootFor(g, id).Some?
    ensures IsBudget(g.jobs, RootFor(g, id).value) && Owner(g.jobs, g.requests[id].job) == RootFor(g, id)
    ensures var base := g.jobs[BudgetJob(g.jobs, g.requests[id].job).value];
      Alike(g.jobs[RootFor(g, id).value], base)
  {
    RootIsAlike(g.jobs, BudgetJob(g.jobs, g.requests[id].job).value, RootFor(g, id).value);
    hide WellFormed, IsRoot, Delegates;
  }

  lemma SpentLikeRoot(jobs: seq<Job>, base: Job, other: Job, root: nat, requests: seq<Request>)
    requires Alike(other, base)
    ensures Spent(jobs, base, root, requests) == Spent(jobs, other, root, requests)
  {
    forall k | 0 <= k < |requests|
      ensures Share(jobs, base, root, requests[k]) == Share(jobs, other, root, requests[k])
    {
      SameTree(jobs, base, other, root, requests[k].job);
    }
    SameShares(jobs, jobs, base, other, root, requests, requests, |requests|);
  }

  /** What the query adds up is all that the lineage spent. */
  lemma QueryIsTotal(g: Gateway, id: nat)
    requires TablesOk(g) && id < |g.requests| && RootFor(g, id).Some?
    ensures var base := g.jobs[BudgetJob(g.jobs, g.requests[id].job).value];
      Spent(g.jobs, base, RootFor(g, id).value, Marked(g, id)) == Total(g, RootFor(g, id).value)
  {
    var root := RootFor(g, id).value;
    var base := g.jobs[BudgetJob(g.jobs, g.requests[id].job).value];
    RootForOwns(g, id);
    hide WellFormed, RowOk, Spent, RootFor, BudgetJob, Marked, Owner;
    SpentLikeRoot(g.jobs, base, g.jobs[root], root, Marked(g, id));
    SameCounters(g, id, Marked(g, id)[id], root);
  }

  /** What an event lets `root` spend: one attempt with its characters, where one is granted on its behalf. */
  ghost function Grant(g: Gateway, e: Event, root: nat): Counters {
    if e.DoReserve? && Grants(g, e.call, e.chars) && RootFor(g, g.calls[e.call].request) == Some(root)
    then Counters(1, e.chars) else Zero
  }

  /** The call's next attempt is granted. */
  ghost predicate Grants(g: Gateway, call: CallId, chars: nat)
    ensures Grants(g, call, chars) ==> Live(g, call) && RootFor(g, g.calls[call].request).Some?
  {
    call in g.calls && Judge(g, g.calls[call].request, chars) == Granted
  }

  /** The row after a granted attempt. */
  lemma ReservedRow(g: Gateway, call: CallId, chars: nat) returns (row: Request)
    requires WellFormed(g.jobs) && RowsOk(g) && Grants(g, call, chars)
    ensures var id := g.calls[call].request;
      && RowOk(g.jobs, row) && row.job == g.requests[id].job && row.status == g.requests[id].status
      && row.counters == Plus(g.requests[id].counters, Counters(1, chars))
      && Reserve(g, call, chars)
         == g.(requests := g.requests[id := row], calls := g.calls[call := LiveCall(id, Some(row.counters))])
  {
    var id := g.calls[call].request;
    row := Marked(g, id)[id].(counters := Plus(g.requests[id].counters, Counters(1, chars)));
    hide WellFormed, Judge, Marked, Plus, RootFor, Owner;
  }

  lemma GrantedSpends(g: Gateway, call: CallId, chars: nat, root: nat)
    requires TablesOk(g) && Grants(g, call, chars)
    ensures Total(Reserve(g, call, chars), root) == Plus(Total(g, root), Grant(g, DoReserve(call, chars), root))
  {
    hide WellFormed, RowsOk, RowOk, Spent, RootFor, Owner, Plus, Grants, Marked, IsBudget, Reserve, CallsOk;
    var row := ReservedRow(g, call, chars);
    var id := g.calls[call].request;
    RootForOwns(g, id);
    TotalRaised(g, id, row, Counters(1, chars), root);
    assert Total(Reserve(g, call, chars), root) == Total(g.(requests := g.requests[id := row]), root);
  }

  lemma NothingReserved(g: Gateway, call: CallId, chars: nat)
    requires !Grants(g, call, chars)
    ensures Reserve(g, call, chars) == g
  {
  }

  lemma ReserveSpends(g: Gateway, call: CallId, chars: nat, root: nat)
    requires TablesOk(g)
    ensures Total(Reserve(g, call, chars), root) == Plus(Total(g, root), Grant(g, DoReserve(call, chars), root))
  {
    hide TablesOk, Total, Grants, Plus, RootFor, Reserve;
    if Grants(g, call, chars) {
      GrantedSpends(g, call, chars, root);
    } else {
      NothingReserved(g, call, chars);
      Regroup(Total(g, root), Zero, Zero);
    }
  }

  lemma GrantedIsActive(g: Gateway, call: CallId, chars: nat)
    requires Grants(g, call, chars)
    ensures !JobEnded(g, g.calls[call].request)
  {
  }

  /** A job whose calls are granted attempts has not ended, so no other call is left holding old counters. */
  lemma ReserveCalls(g: Gateway, call: CallId, chars: nat)
    requires WellFormed(g.jobs) && RowsOk(g) && CallsOk(g) && Grants(g, call, chars)
    ensures CallsOk(Reserve(g, call, chars))
  {
    hide WellFormed, RowsOk, RowOk, Grants, Reserve, Plus;
    var row := ReservedRow(g, call, chars);
    GrantedIsActive(g, call, chars);
    var h := Reserve(g, call, chars);
    assert forall id :: JobEnded(h, id) <==> JobEnded(g, id);
    forall a | a in h.calls ensures CallOk(h, h.calls[a]) {
      assert CallOk(g, g.calls[a]);
      hide JobEnded;
    }
    hide JobEnded, CallOk;
  }

  lemma ReserveTables(g: Gateway, call: CallId, chars: nat)
    requires TablesOk(g)
    ensures TablesOk(Reserve(g, call, chars))
  {
    hide WellFormed, RowsOk, RowOk, CallsOk, Grants, Plus, Reserve;
    if Grants(g, call, chars) {
      var row := ReservedRow(g, call, chars);
      ReserveCalls(g, call, chars);
      RowsWith(g, g.calls[call].request, row);
      SameRows(g.(requests := g.requests[g.calls[call].request := row]), Reserve(g, call, chars));
    } else {
      NothingReserved(g, call, chars);
    }
  }

  lemma SameRows(g: Gateway, h: Gateway)
    requires RowsOk(g) && h.jobs == g.jobs && h.requests == g.requests
    ensures RowsOk(h)
  {
  }

  lemma GrantedHasRoom(g: Gateway, id: nat, chars: nat)
    requires TablesOk(g) && Judge(g, id, chars) == Granted
    ensures var root := RootFor(g, id);
      root.Some? && Total(g, root.value).attempts + 1 <= g.maxAttempts
        && Total(g, root.value).chars + chars <= g.maxChars
  {
    hide TablesOk, Total, RootFor, Spent, Marked;
    QueryIsTotal(g, id);
  }

  lemma ReserveKeepsLimits(g: Gateway, call: CallId, chars: nat)
    ensures Reserve(g, call, chars).maxAttempts == g.maxAttempts && Reserve(g, call, chars).maxChars == g.maxChars
  {
    hide Judge, Marked;
  }

  /** A granted attempt still fits its budget. */
  lemma ReserveFits(g: Gateway, call: CallId, chars: nat, root: nat)
    requires TablesOk(g) && Within(g, root)
    ensures Within(Reserve(g, call, chars), root)
  {
    hide TablesOk, Total, Judge, RootFor, Reserve;
    ReserveSpends(g, call, chars, root);
    ReserveKeepsLimits(g, call, chars);
    if Grants(g, call, chars) {
      GrantedHasRoom(g, g.calls[call].request, chars);
    }
  }

  // ----- Every step

  lemma CreateTables(g: Gateway, job: Job, root: nat)
    requires TablesOk(g)
    ensures TablesOk(Create(g, job)) && Total(Create(g, job), root) == Total(g, root)
  {
    hide RowsOk, CallsOk, WellFormed, Extends, EndedStay, Total;
    CreateExtends(g, job);
    ExtendedTables(g, Create(g, job));
    TotalStays(g, Create(g, job), root);
  }

  lemma UpdateTables(g: Gateway, at: nat, status: JobStatus, cancelling: bool, root: nat)
    requires TablesOk(g)
    ensures TablesOk(Update(g, at, status, cancelling))
      && Total(Update(g, at, status, cancelling), root) == Total(g, root)
  {
    hide RowsOk, CallsOk, WellFormed, Extends, EndedStay, Total;
    UpdateExtends(g, at, status, cancelling);
    ExtendedTables(g, Update(g, at, status, cancelling));
    TotalStays(g, Update(g, at, status, cancelling), root);
  }

  lemma BeginTables(g: Gateway, call: CallId, job: nat, key: string, digest: nat, root: nat)
    requires TablesOk(g)
    ensures TablesOk(Begin(g, call, job, key, digest))
      && Total(Begin(g, call, job, key, digest), root) == Total(g, root)
  {
    BeginCalls(g, call, job, key, digest);
    BeginSpends(g, call, job, key, digest, root);
    hide RowsOk, CallsOk, WellFormed, Total, BeginAnswer;
  }

  lemma RestartTables(g: Gateway, root: nat)
    requires TablesOk(g)
    ensures TablesOk(g.(calls := map[])) && Total(g.(calls := map[]), root) == Total(g, root)
  {
  }

  lemma StepKeepsTables(g: Gateway, e: Event)
    requires TablesOk(g)
    ensures TablesOk(Step(g, e))
  {
    hide TablesOk, Total, Create, Update, Begin, Reserve, Succeed, Fail, SweepRequest;
    match e
    case CreateJob(job) => CreateTables(g, job, 0);
    case UpdateJob(at, status, cancelling) => UpdateTables(g, at, status, cancelling, 0);
    case DoBegin(call, job, key, digest) => BeginTables(g, call, job, key, digest, 0);
    case DoReserve(call, chars) => ReserveTables(g, call, chars);
    case DoSucceed(call) => SucceedTables(g, call, 0);
    case DoFail(call) => FailTables(g, call, 0);
    case DoSweep(id) => SweepRequestTables(g, id, 0);
    case Restart => RestartTables(g, 0);
  }

  /** Conservation, step by step: a budget's total grows by what the step grants on its behalf. */
  lemma StepSpends(g: Gateway, e: Event, root: nat)
    requires TablesOk(g)
    ensures Total(Step(g, e), root) == Plus(Total(g, root), Grant(g, e, root))
  {
    hide TablesOk, Total, Create, Update, Begin, Reserve, Succeed, Fail, SweepRequest, Plus;
    Regroup(Total(g, root), Zero, Zero);
    match e
    case CreateJob(job) => CreateTables(g, job, root);
    case UpdateJob(at, status, cancelling) => UpdateTables(g, at, status, cancelling, root);
    case DoBegin(call, job, key, digest) => BeginTables(g, call, job, key, digest, root);
    case DoReserve(call, chars) => ReserveSpends(g, call, chars, root);
    case DoSucceed(call) => SucceedTables(g, call, root);
    case DoFail(call) => FailTables(g, call, root);
    case DoSweep(id) => SweepRequestTables(g, id, root);
    case Restart => RestartTables(g, root);
  }

  lemma SameTotalFits(g: Gateway, h: Gateway, root: nat)
    requires Within(g, root) && Total(h, root) == Total(g, root) && h.maxAttempts == g.maxAttempts
      && h.maxChars == g.maxChars
    ensures Within(h, root)
  {
  }

  lemma StepFits(g: Gateway, e: Event, root: nat)
    requires TablesOk(g) && Within(g, root)
    ensures Within(Step(g, e), root)
  {
    hide TablesOk, Within, Create, Update, Begin, Reserve, Succeed, Fail, SweepRequest, Total, Plus;
    if e.DoReserve? {
      ReserveFits(g, e.call, e.chars, root);
    } else {
      StepKeepsLimits(g, e);
      StepSpends(g, e, root);
      Regroup(Total(g, root), Zero, Zero);
      SameTotalFits(g, Step(g, e), root);
    }
  }

  lemma StepKeepsLimits(g: Gateway, e: Event)
    ensures Step(g, e).maxAttempts == g.maxAttempts && Step(g, e).maxChars == g.maxChars
  {
  }

  lemma StepKeepsInv(g: Gateway, e: Event)
    requires Inv(g)
    ensures Inv(Step(g, e))
  {
    hide TablesOk, Within, Step;
    StepKeepsTables(g, e);
    forall root: nat ensures Within(Step(g, e), root) { StepFits(g, e, root); }
  }

  lemma {:induction false} RunKeepsInv(g: Gateway, events: seq<Event>)
    requires Inv(g)
    ensures Inv(Run(g, events)) && Run(g, events).maxAttempts == g.maxAttempts && Run(g, events).maxChars == g.maxChars
  {
    hide Inv, Step;
    if events != [] {
      RunKeepsInv(g, events[..|events| - 1]);
      StepKeepsInv(Run(g, events[..|events| - 1]), events[|events| - 1]);
      StepKeepsLimits(Run(g, events[..|events| - 1]), events[|events| - 1]);
    }
  }

}
