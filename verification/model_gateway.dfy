/** The request bookkeeping of the gateway as an object over its tables, proved against the steps of Budget. */
module ModelGateway {
  import opened Options
  import opened Lineage
  import B = Budget
  import BudgetLaws
  import BudgetVerdicts

  class ModelGatewayService {
    var jobs: seq<Job>
    var requests: seq<B.Request>
    var calls: map<B.CallId, B.LiveCall>
    const maxAttempts: nat
    const maxChars: nat

    function Model(): B.Gateway
      reads this
    {
      B.Gateway(jobs, requests, calls, maxAttempts, maxChars)
    }

    constructor (maxAttempts: nat, maxChars: nat)
      ensures Model() == B.NewGateway(maxAttempts, maxChars) && BudgetLaws.Inv(Model())
    {
      jobs, requests, calls := [], [], map[];
      this.maxAttempts, this.maxChars := maxAttempts, maxChars;
      new;
    }

    /** The row for a request: a new one, or the failed one started again; other answers leave the table alone. */
    method BeginRequest(call: B.CallId, job: nat, key: string, digest: nat) returns (answer: B.Begun)
      requires job < |jobs| && call !in calls
      modifies this`requests, this`calls
      ensures answer == B.BeginAnswer(old(Model()), job, key, digest)
      ensures Model() == B.Begin(old(Model()), call, job, key, digest)
    {
      var found := B.FindRequest(requests, job, key, |requests|);
      hide B.FindRequest;
      if found.Some? {
        var q := requests[found.value];
        if q.digest != digest {
          return B.Conflict;
        }
        if q.status == B.Succeeded {
          return B.Cached(found.value);
        }
        if q.status == B.InFlight {
          return B.Joining(found.value);
        }
        requests := requests[found.value := q.(status := B.InFlight, attemptCount := q.attemptCount + 1)];
        answer := B.Started(found.value);
      } else {
        requests := requests + [B.Request(job, key, digest, B.InFlight, 1, B.Zero, None)];
        answer := B.Started(|requests| - 1);
      }
      calls := calls[call := B.LiveCall(answer.id, None)];
    }

    /** The sum over the rows the budget query finds. */
    method AddUp(base: Job, root: nat, rows: seq<B.Request>) returns (spent: B.Counters)
      requires root < |jobs| && jobs[root].retryOf == None
      ensures spent == B.Spent(jobs, base, root, rows)
    {
      var tree := RetryTree(jobs, base, root);
      spent := B.Zero;
      for n := 0 to |rows|
        invariant spent == B.SpentTo(jobs, base, root, rows, n)
      {
        if rows[n].job in tree || rows[n].budgetRoot == Some(root) {
          spent := B.Plus(spent, rows[n].counters);
        }
      }
    }

    /** The root of the lineage that pays for a request, found by the walk. */
    method FindBudget(id: nat) returns (base: nat, root: Option<nat>)
      requires id < |requests|
      ensures root == B.RootFor(Model(), id)
      ensures root.Some? ==>
        && requests[id].job < |jobs| && B.BudgetJob(jobs, requests[id].job) == Some(base)
        && root.value < |jobs| && jobs[root.value].retryOf == None
    {
      var job := requests[id].job;
      base, root := 0, None;
      if job >= |jobs| || !B.Active(jobs[job]) {
        return;
      }
      var payer := B.BudgetJob(jobs, job);
      if payer.None? {
        return;
      }
      base := payer.value;
      root := FindRoot(jobs, base);
      if root.Some? {
        RootIsAlike(jobs, base, root.value);
      }
    }

    /** _reserve_text_attempt: the attempt is counted, or the tables stay as they were. */
    method ReserveTextAttempt(call: B.CallId, chars: nat) returns (verdict: B.Verdict, counters: B.Counters)
      requires BudgetLaws.Inv(Model()) && call in calls
      modifies this`requests, this`calls
      ensures verdict == B.Judge(old(Model()), old(calls[call].request), chars)
      ensures Model() == B.Reserve(old(Model()), call, chars) && BudgetLaws.Inv(Model())
      ensures verdict == B.Granted ==>
        && call in calls && calls[call] == B.LiveCall(old(calls[call].request), Some(counters))
        && calls[call].request < |requests| && counters == requests[calls[call].request].counters
      ensures verdict != B.Granted ==> Model() == old(Model())
      ensures verdict == B.Granted ==>
        var job := old(requests)[old(calls[call].request)].job;
        job < |jobs| && jobs[job].status == Running && !jobs[job].cancelling
      ensures verdict == B.Refused <==>
        forall payer: nat, root: nat :: !BudgetVerdicts.MayCall(old(Model()), old(calls[call].request), payer, root)
    {
      BudgetLaws.StepKeepsInv(Model(), B.DoReserve(call, chars));
      hide BudgetLaws.Inv, B.Spent, B.RootFor, BudgetVerdicts.MayCall;
      var id := calls[call].request;
      BudgetVerdicts.RefusedIsExact(Model(), id, chars);
      if B.Judge(Model(), id, chars) == B.Granted {
        BudgetVerdicts.GrantedIsActive(Model(), id, chars);
      }
      counters := B.Zero;
      if id >= |requests| {
        return B.Refused, counters;
      }
      var base, root := FindBudget(id);
      if root.None? {
        return B.Refused, counters;
      }
      var q := requests[id];
      var rows := if jobs[q.job].jobType == B.Dispatch then requests[id := q.(budgetRoot := root)] else requests;
      var spent := AddUp(jobs[base], root.value, rows);
      if spent.attempts >= maxAttempts || spent.chars + chars > maxChars {
        return B.Exceeded, counters;
      }
      counters := B.Plus(rows[id].counters, B.Counters(1, chars));
      requests := rows[id := rows[id].(counters := counters)];
      calls := calls[call := B.LiveCall(id, Some(counters))];
      verdict := B.Granted;
    }

    /** _finish_request: a result brings the counters of its last attempt, an error keeps those of the row. */
    method FinishRequest(call: B.CallId, response: Option<B.Counters>)
      requires BudgetLaws.Inv(Model()) && call in calls && (response.Some? ==> calls[call].metering == response)
      modifies this`requests, this`calls
      ensures Model() == (if response.Some? then B.Succeed(old(Model()), call) else B.Fail(old(Model()), call))
      ensures BudgetLaws.Inv(Model())
      ensures var id := old(calls[call].request);
        && |requests| == |old(requests)| && id < |requests| && requests[id].counters == old(requests)[id].counters
        && requests[id].status == if response.Some? then B.Succeeded else B.Failed
    {
      BudgetLaws.StepKeepsInv(Model(), if response.Some? then B.DoSucceed(call) else B.DoFail(call));
      hide BudgetLaws.Inv;
      var id := calls[call].request;
      if response.None? {
        requests := requests[id := requests[id].(status := B.Failed)];
      } else {
        requests := requests[id := requests[id].(status := B.Succeeded, counters := response.value)];
      }
      calls := calls - {call};
    }

  }
}
