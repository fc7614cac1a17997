/** When an attempt is refused, exceeded or granted, and what beginning a request answers, in the fields of the tables.
    */
module BudgetVerdicts {
  import opened Options
  import opened Lineage
  import opened Budget
  import opened BudgetLaws

  // ----- Who may call

  /** A job of these kinds lets calls be made on its behalf. */
  predicate LendsItsBudget(job: Job) {
    || job.jobType == "sections.generate" || job.jobType == "matrix.enrich"
    || (job.jobType == "draft.optimize" && job.flowPolicy == "review-revision/2"
        && (job.revisionMode == "peer_review" || job.revisionMode == "peer_review_recommendation"))
  }

  /** `payer` is the job itself, or, for a delegated call, the parent it names, which must be able to lend its budget.
      */
  predicate Pays(jobs: seq<Job>, job: nat, payer: nat) {
    && job < |jobs| && payer < |jobs|
    && if jobs[job].jobType == "model.dispatch" then
         && jobs[job].parent == Some(payer)
         && jobs[payer].user == jobs[job].user && jobs[payer].project == jobs[job].project
         && LendsItsBudget(jobs[payer])
         && (jobs[payer].status == Queued || jobs[payer].status == Running) && !jobs[payer].cancelling
       else
         payer == job
  }

  /** The request's job is running and not being cancelled, and the job that pays for it has a retry lineage. */
  ghost predicate MayCall(g: Gateway, id: nat, payer: nat, root: nat) {
    && id < |g.requests| && g.requests[id].job < |g.jobs|
    && g.jobs[g.requests[id].job].status == Running && !g.jobs[g.requests[id].job].cancelling
    && Pays(g.jobs, g.requests[id].job, payer) && IsRoot(g.jobs, payer, root)
  }

  lemma PayerIsBudgetJob(jobs: seq<Job>, job: nat, payer: nat)
    requires job < |jobs|
    ensures Pays(jobs, job, payer) <==> BudgetJob(jobs, job) == Some(payer)
  {
  }

  lemma RootForIsRoot(g: Gateway, id: nat, payer: nat, root: nat)
    requires MayCall(g, id, payer, root)
    ensures RootFor(g, id) == Some(root) && BudgetJob(g.jobs, g.requests[id].job) == Some(payer)
  {
    hide Pays, IsRoot, RootOf;
    PayerIsBudgetJob(g.jobs, g.requests[id].job, payer);
    RootIsUnique(g.jobs, payer, root);
  }

  lemma RootForMayCall(g: Gateway, id: nat) returns (payer: nat, root: nat)
    requires id < |g.requests| && RootFor(g, id).Some?
    ensures MayCall(g, id, payer, root)
  {
    payer := BudgetJob(g.jobs, g.requests[id].job).value;
    root := RootFor(g, id).value;
    hide Pays, IsRoot;
    PayerIsBudgetJob(g.jobs, g.requests[id].job, payer);
  }

  /** Refused exactly where no call may be made: for want of a request, of a running job, of a payer or of a lineage. */
  lemma RefusedIsExact(g: Gateway, id: nat, chars: nat)
    ensures Judge(g, id, chars) == Refused <==> forall payer: nat, root: nat :: !MayCall(g, id, payer, root)
  {
    hide RootFor, MayCall, Spent, Marked;
    forall payer: nat, root: nat | MayCall(g, id, payer, root) ensures Judge(g, id, chars) != Refused {
      assert id < |g.requests| by { HasRequest(g, id, payer, root); }
      RootForIsRoot(g, id, payer, root);
    }
    if id < |g.requests| && RootFor(g, id).Some? {
      var payer, root := RootForMayCall(g, id);
    }
  }

  lemma HasRequest(g: Gateway, id: nat, payer: nat, root: nat)
    requires MayCall(g, id, payer, root)
    ensures id < |g.requests|
  {
  }

  /** Where a call may be made, the verdict is a matter of the lineage's total alone. */
  lemma GrantedIsExact(g: Gateway, id: nat, chars: nat, payer: nat, root: nat)
    requires TablesOk(g) && MayCall(g, id, payer, root)
    ensures Judge(g, id, chars) == Granted <==>
      Total(g, root).attempts + 1 <= g.maxAttempts && Total(g, root).chars + chars <= g.maxChars
    ensures Judge(g, id, chars) == Granted || Judge(g, id, chars) == Exceeded
  {
    RootForIsRoot(g, id, payer, root);
    hide TablesOk, MayCall, RootFor, Total, Spent, Marked;
    QueryIsTotal(g, id);
  }

  /** A granted attempt was asked for by a running job that nobody is cancelling. */
  lemma GrantedIsActive(g: Gateway, id: nat, chars: nat)
    requires Judge(g, id, chars) == Granted
    ensures id < |g.requests| && g.requests[id].job < |g.jobs|
    ensures g.jobs[g.requests[id].job].status == Running && !g.jobs[g.requests[id].job].cancelling
  {
    var payer, root := RootForMayCall(g, id);
  }

  // ----- Walking up

  /** A lineage ends at a stranger: a retry of a job of another user, project or kind has no root. */
  lemma StrangersEndTheWalk(jobs: seq<Job>, start: nat)
    requires start < |jobs| && jobs[start].retryOf.Some?
    requires var up := jobs[start].retryOf.value;
      up >= |jobs| || jobs[up].user != jobs[start].user || jobs[up].project != jobs[start].project
      || jobs[up].jobType != jobs[start].jobType
    ensures RootOf(jobs, start) == None
  {
    forall root: nat ensures !IsRoot(jobs, start, root) {
      StepUp(jobs, jobs[start], start, root);
    }
  }

  // ----- Beginning a request

  /** A job has one request per key. */
  ghost predicate KeysUnique(g: Gateway) {
    forall i, j :: 0 <= i < j < |g.requests| ==>
      g.requests[i].job != g.requests[j].job || g.requests[i].key != g.requests[j].key
  }

  /** The answer to a key that is known: conflict for other content, else what the row's status says. */
  lemma BeginKnown(g: Gateway, call: CallId, job: nat, key: string, digest: nat, i: nat)
    requires KeysUnique(g) && i < |g.requests| && g.requests[i].job == job && g.requests[i].key == key
    requires job < |g.jobs| && call !in g.calls
    ensures var q, answer, h := g.requests[i], BeginAnswer(g, job, key, digest), Begin(g, call, job, key, digest);
      && (answer == Conflict <==> q.digest != digest)
      && (answer == Cached(i) <==> q.digest == digest && q.status == Succeeded)
      && (answer == Joining(i) <==> q.digest == digest && q.status == InFlight)
      && (answer == Started(i) <==> q.digest == digest && q.status == Failed)
      && (answer != Started(i) ==> h == g)
      && (answer == Started(i) ==>
           && h.requests == g.requests[i := q.(status := InFlight, attemptCount := q.attemptCount + 1)]
           && h.calls == g.calls[call := LiveCall(i, None)] && h.jobs == g.jobs)
  {
    var found := FindRequest(g.requests, job, key, |g.requests|);
    hide FindRequest;
    assert found == Some(i);
  }

  /** A key that is not known starts a request that has spent nothing. */
  lemma BeginUnknown(g: Gateway, call: CallId, job: nat, key: string, digest: nat)
    requires forall i :: 0 <= i < |g.requests| ==> g.requests[i].job != job || g.requests[i].key != key
    requires job < |g.jobs| && call !in g.calls
    ensures BeginAnswer(g, job, key, digest) == Started(|g.requests|)
    ensures var h := Begin(g, call, job, key, digest);
      && h.requests == g.requests + [Request(job, key, digest, InFlight, 1, Counters(0, 0), None)]
      && h.calls == g.calls[call := LiveCall(|g.requests|, None)] && h.jobs == g.jobs
  {
    hide FindRequest;
  }

  lemma BeginKeepsKeys(g: Gateway, call: CallId, job: nat, key: string, digest: nat)
    requires KeysUnique(g)
    ensures KeysUnique(Begin(g, call, job, key, digest))
  {
    hide FindRequest;
  }

  lemma MarkedKeepsKeys(g: Gateway, id: nat)
    requires id < |g.requests| && RootFor(g, id).Some?
    ensures |Marked(g, id)| == |g.requests|
    ensures forall i :: 0 <= i < |g.requests| ==>
      Marked(g, id)[i].job == g.requests[i].job && Marked(g, id)[i].key == g.requests[i].key
  {
    hide RootFor;
  }

  lemma ReserveKeepsKeys(g: Gateway, call: CallId, chars: nat)
    requires KeysUnique(g)
    ensures KeysUnique(Reserve(g, call, chars))
  {
    if Grants(g, call, chars) {
      MarkedKeepsKeys(g, g.calls[call].request);
    }
    hide Judge, Marked, RootFor;
  }

  lemma StepKeepsKeys(g: Gateway, e: Event)
    requires KeysUnique(g)
    ensures KeysUnique(Step(g, e))
  {
    hide Begin, Reserve;
    match e
    case DoBegin(call, job, key, digest) => BeginKeepsKeys(g, call, job, key, digest);
    case DoReserve(call, chars) => ReserveKeepsKeys(g, call, chars);
    case _ =>
  }

  /** In every reachable state a job has one request per key. */
  lemma {:induction false} KeysStayUnique(maxAttempts: nat, maxChars: nat, events: seq<Event>)
    ensures KeysUnique(Run(NewGateway(maxAttempts, maxChars), events))
  {
    hide Step;
    if events != [] {
      KeysStayUnique(maxAttempts, maxChars, events[..|events| - 1]);
      StepKeepsKeys(Run(NewGateway(maxAttempts, maxChars), events[..|events| - 1]), events[|events| - 1]);
    }
  }
}
