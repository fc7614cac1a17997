/** The model budget that a job shares with its retries and with the calls it delegates. */
module Budget {
  import opened Options
  import opened Lineage

  /** Provider attempts, and the characters sent in them. */
  datatype Counters = Counters(attempts: nat, chars: nat)

  const Zero := Counters(0, 0)

  function Plus(a: Counters, b: Counters): Counters { Counters(a.attempts + b.attempts, a.chars + b.chars) }

  datatype RequestStatus = InFlight | Succeeded | Failed

  /** A row of the request table; `counters` are the two counters of its response_json. */
  datatype Request = Request(
    job: nat, key: string, digest: nat, status: RequestStatus, attemptCount: nat, counters: Counters,
    budgetRoot: Option<nat>)

  type CallId = nat

  /** A call of complete under way: its request, and the counters of its last attempt. */
  datatype LiveCall = LiveCall(request: nat, metering: Option<Counters>)

  /** The tables, the calls under way, and the limits. */
  datatype Gateway = Gateway(
    jobs: seq<Job>, requests: seq<Request>, calls: map<CallId, LiveCall>, maxAttempts: nat, maxChars: nat)

  const Dispatch := "model.dispatch"

  /** delegated_text_parent. */
  predicate Delegates(job: Job) {
    if job.jobType == "draft.optimize"
    then (job.revisionMode == "peer_review" || job.revisionMode == "peer_review_recommendation")
      && job.flowPolicy == "review-revision/2"
    else job.jobType == "sections.generate" || job.jobType == "matrix.enrich"
  }

  predicate Active(job: Job) { job.status == Running && !job.cancelling }

  /** The job whose lineage pays for calls of `job`; a delegated call needs a parent that may still make calls. */
  function BudgetJob(jobs: seq<Job>, job: nat): (r: Option<nat>)
    requires job < |jobs|
    ensures r.Some? ==> r.value < |jobs| && jobs[r.value].jobType != Dispatch
    ensures r.Some? ==> jobs[r.value].user == jobs[job].user && jobs[r.value].project == jobs[job].project
    ensures r.Some? && r.value != job ==>
      Delegates(jobs[r.value]) && jobs[r.value].status in {Queued, Running} && !jobs[r.value].cancelling
  {
    var j := jobs[job];
    if j.jobType != Dispatch then Some(job)
    else if j.parent.Some? && j.parent.value < |jobs| then
      var p := jobs[j.parent.value];
      if p.user == j.user && p.project == j.project && Delegates(p)
         && (p.status == Queued || p.status == Running) && !p.cancelling
      then j.parent else None
    else None
  }

  // ----- What a lineage has spent

  /** The budget query finds the request: its job is in the retry tree, or a job of the tree delegated it. */
  ghost predicate Found(jobs: seq<Job>, base: Job, root: nat, q: Request) {
    InTree(jobs, base, root, q.job) || q.budgetRoot == Some(root)
  }

  ghost function Share(jobs: seq<Job>, base: Job, root: nat, q: Request): Counters {
    if Found(jobs, base, root, q) then q.counters else Zero
  }

  ghost function SpentTo(jobs: seq<Job>, base: Job, root: nat, requests: seq<Request>, n: nat): Counters
    requires n <= |requests|
  {
    if n == 0 then Zero else Plus(SpentTo(jobs, base, root, requests, n - 1), Share(jobs, base, root, requests[n - 1]))
  }

  ghost function Spent(jobs: seq<Job>, base: Job, root: nat, requests: seq<Request>): Counters {
    SpentTo(jobs, base, root, requests, |requests|)
  }

  // ----- Beginning and finishing a request

  function FindRequest(requests: seq<Request>, job: nat, key: string, n: nat): (r: Option<nat>)
    requires n <= |requests|
    ensures r.Some? ==> r.value < n && requests[r.value].job == job && requests[r.value].key == key
    ensures r.None? ==> forall i :: 0 <= i < n ==> requests[i].job != job || requests[i].key != key
  {
    if n == 0 then None
    else if requests[n - 1].job == job && requests[n - 1].key == key then Some(n - 1)
    else FindRequest(requests, job, key, n - 1)
  }

  datatype Begun = Conflict | Cached(id: nat) | Joining(id: nat) | Started(id: nat)

  function BeginAnswer(g: Gateway, job: nat, key: string, digest: nat): Begun {
    var found := FindRequest(g.requests, job, key, |g.requests|);
    if found.None? then Started(|g.requests|)
    else
      var q := g.requests[found.value];
      if q.digest != digest then Conflict
      else match q.status
        case Succeeded => Cached(found.value)
        case InFlight => Joining(found.value)
        case Failed => Started(found.value)
  }

  /** _begin_request: a new row has spent nothing, a failed one goes on from what it spent. */
  function Begin(g: Gateway, call: CallId, job: nat, key: string, digest: nat): Gateway {
    if job >= |g.jobs| || call in g.calls then g
    else
      match BeginAnswer(g, job, key, digest)
      case Started(id) =>
        g.(requests := BegunRows(g.requests, id, Request(job, key, digest, InFlight, 1, Zero, None)),
           calls := g.calls[call := LiveCall(id, None)])
      case _ => g
  }

  /** Row `id` in flight again, or appended as `added`. */
  function BegunRows(requests: seq<Request>, id: nat, added: Request): seq<Request> {
    if id < |requests|
    then requests[id := requests[id].(status := InFlight, attemptCount := requests[id].attemptCount + 1)]
    else requests + [added]
  }

  predicate Live(g: Gateway, call: CallId) { call in g.calls && g.calls[call].request < |g.requests| }

  /** _finish_request with a result, which carries the counters of the last attempt in place of those stored. */
  function Succeed(g: Gateway, call: CallId): Gateway {
    if Live(g, call) && g.calls[call].metering.Some? then
      var id := g.calls[call].request;
      g.(requests := g.requests[id := g.requests[id].(status := Succeeded, counters := g.calls[call].metering.value)],
         calls := g.calls - {call})
    else g
  }

  /** _finish_request with an error. */
  function Fail(g: Gateway, call: CallId): Gateway {
    if Live(g, call) then
      var id := g.calls[call].request;
      g.(requests := g.requests[id := g.requests[id].(status := Failed)], calls := g.calls - {call})
    else g
  }

  /** The sweep of the ledger fails a running request of an ended job, though its call may still be under way. */
  function SweepRequest(g: Gateway, id: nat): Gateway {
    if id < |g.requests| && g.requests[id].status == InFlight
       && g.requests[id].job < |g.jobs| && g.jobs[g.requests[id].job].status == Ended
    then g.(requests := g.requests[id := g.requests[id].(status := Failed)])
    else g
  }

  // ----- An attempt

  /** The job whose tree pays for the request, if its own job, or the parent it works for, may make calls now. */
  ghost function RootFor(g: Gateway, id: nat): Option<nat>
    requires id < |g.requests|
  {
    var job := g.requests[id].job;
    if job < |g.jobs| && Active(g.jobs[job]) && BudgetJob(g.jobs, job).Some?
    then RootOf(g.jobs, BudgetJob(g.jobs, job).value) else None
  }

  /** A delegated request is marked with the root it draws on. */
  ghost function Marked(g: Gateway, id: nat): seq<Request>
    requires id < |g.requests| && RootFor(g, id).Some?
  {
    if g.jobs[g.requests[id].job].jobType == Dispatch
    then g.requests[id := g.requests[id].(budgetRoot := RootFor(g, id))] else g.requests
  }

  datatype Verdict = Refused | Exceeded | Granted

  ghost function Judge(g: Gateway, id: nat, chars: nat): Verdict {
    if id >= |g.requests| || RootFor(g, id).None? then Refused
    else
      var base := g.jobs[BudgetJob(g.jobs, g.requests[id].job).value];
      var spent := Spent(g.jobs, base, RootFor(g, id).value, Marked(g, id));
      if spent.attempts >= g.maxAttempts || spent.chars + chars > g.maxChars then Exceeded else Granted
  }

  /** _reserve_text_attempt: an attempt is counted before it is made, or nothing changes. */
  ghost function Reserve(g: Gateway, call: CallId, chars: nat): Gateway {
    if call in g.calls && Judge(g, g.calls[call].request, chars) == Granted then
      var id := g.calls[call].request;
      var rows := Marked(g, id);
      var counters := Plus(rows[id].counters, Counters(1, chars));
      g.(requests := rows[id := rows[id].(counters := counters)],
         calls := g.calls[call := LiveCall(id, Some(counters))])
    else g
  }

  // ----- Runs

  datatype Event =
    | CreateJob(job: Job)
    | UpdateJob(at: nat, status: JobStatus, cancelling: bool)
    | DoBegin(call: CallId, of: nat, key: string, digest: nat)
    | DoReserve(call: CallId, chars: nat)
    | DoSucceed(call: CallId)
    | DoFail(call: CallId)
    | DoSweep(id: nat)
    | Restart

  /** A retry must name a job of the same user, project and kind. */
  function Create(g: Gateway, job: Job): Gateway {
    if job.retryOf.Some? && (job.retryOf.value >= |g.jobs| || !Alike(g.jobs[job.retryOf.value], job)) then g
    else g.(jobs := g.jobs + [job])
  }

  /** Job status changes; a job that has ended stays so. */
  function Update(g: Gateway, at: nat, status: JobStatus, cancelling: bool): Gateway {
    if at < |g.jobs| && (g.jobs[at].status == Ended ==> status == Ended)
    then g.(jobs := g.jobs[at := g.jobs[at].(status := status, cancelling := cancelling)]) else g
  }

  ghost function Step(g: Gateway, e: Event): Gateway {
    match e
    case CreateJob(job) => Create(g, job)
    case UpdateJob(at, status, cancelling) => Update(g, at, status, cancelling)
    case DoBegin(call, job, key, digest) => Begin(g, call, job, key, digest)
    case DoReserve(call, chars) => Reserve(g, call, chars)
    case DoSucceed(call) => Succeed(g, call)
    case DoFail(call) => Fail(g, call)
    case DoSweep(id) => SweepRequest(g, id)
    case Restart => g.(calls := map[])
  }

  function NewGateway(maxAttempts: nat, maxChars: nat): Gateway { Gateway([], [], map[], maxAttempts, maxChars) }

  ghost function Run(g: Gateway, events: seq<Event>): Gateway {
    if events == [] then g else Step(Run(g, events[..|events| - 1]), events[|events| - 1])
  }
}
