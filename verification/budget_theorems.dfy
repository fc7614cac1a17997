/** The promises of the shared budget, over all attempts, retries, concurrent siblings and delegated calls. */
module BudgetTheorems {
  import opened Options
  import opened Lineage
  import opened Budget
  import opened BudgetLaws

  /** All that a run granted on behalf of `root`, counted from the events alone. */
  ghost function GrantedOver(g: Gateway, events: seq<Event>, root: nat): Counters {
    if events == [] then Zero
    else
      var before := events[..|events| - 1];
      Plus(GrantedOver(g, before, root), Grant(Run(g, before), events[|events| - 1], root))
  }

  lemma {:induction false} RunKeepsTables(g: Gateway, events: seq<Event>)
    requires TablesOk(g)
    ensures TablesOk(Run(g, events))
  {
    hide TablesOk, Step;
    if events != [] {
      RunKeepsTables(g, events[..|events| - 1]);
      StepKeepsTables(Run(g, events[..|events| - 1]), events[|events| - 1]);
    }
  }

  /** Conservation over runs: the counters in the tables are the attempts that were granted, none lost, none twice. */
  lemma {:induction false} CountersAreGrants(g: Gateway, events: seq<Event>, root: nat)
    requires TablesOk(g)
    ensures Total(Run(g, events), root) == Plus(Total(g, root), GrantedOver(g, events, root))
  {
    hide TablesOk, Step, Total, Plus, Grant;
    if events == [] {
      Regroup(Total(g, root), Zero, Zero);
    } else {
      var before := events[..|events| - 1];
      RunKeepsTables(g, before);
      CountersAreGrants(g, before, root);
      StepSpends(Run(g, before), events[|events| - 1], root);
      Regroup(Total(g, root), GrantedOver(g, before, root), Grant(Run(g, before), events[|events| - 1], root));
    }
  }

  /** Whatever happens, and in whatever order, a lineage is granted no more than the two limits. */
  lemma BudgetIsNeverExceeded(maxAttempts: nat, maxChars: nat, events: seq<Event>, root: nat)
    ensures var granted := GrantedOver(NewGateway(maxAttempts, maxChars), events, root);
      granted.attempts <= maxAttempts && granted.chars <= maxChars
  {
    var g := NewGateway(maxAttempts, maxChars);
    RunKeepsInv(g, events);
    CountersAreGrants(g, events, root);
    hide GrantedOver, Run, TablesOk, Plus, Total;
    assert Within(Run(g, events), root);
  }

  /** A budget that has no attempts left grants none in any later state: not to a job of the lineage, not to a new
      retry, not to a call delegated by one. */
  lemma ExhaustedStaysExhausted(g: Gateway, events: seq<Event>, root: nat)
    requires Inv(g) && Total(g, root).attempts >= g.maxAttempts
    ensures GrantedOver(g, events, root).attempts == 0
    ensures Total(Run(g, events), root).attempts == g.maxAttempts
  {
    hide TablesOk, Total, GrantedOver, Run;
    RunKeepsInv(g, events);
    CountersAreGrants(g, events, root);
    assert Within(Run(g, events), root);
  }

  /** The refusal is exact: an active request is refused only where one of the two limits would be passed. */
  lemma GrantedIffRoom(g: Gateway, id: nat, chars: nat)
    requires TablesOk(g) && id < |g.requests| && RootFor(g, id).Some?
    ensures Judge(g, id, chars) == Granted <==>
      var spent := Plus(Total(g, RootFor(g, id).value), Counters(1, chars));
      spent.attempts <= g.maxAttempts && spent.chars <= g.maxChars
  {
    QueryIsTotal(g, id);
    hide TablesOk, Total, Spent, RootFor, Owner, Marked;
  }

  // ----- Single requests

  ghost predicate AtLeast(a: Counters, b: Counters) { a.attempts >= b.attempts && a.chars >= b.chars }

  /** The counters of request `id`, or nothing where there is no such request yet. */
  function CountersOf(g: Gateway, id: nat): Counters { if id < |g.requests| then g.requests[id].counters else Zero }

  lemma StepKeepsCounters(g: Gateway, e: Event, id: nat)
    requires TablesOk(g)
    ensures CountersOf(Step(g, e), id) ==
      if e.DoReserve? && Grants(g, e.call, e.chars) && g.calls[e.call].request == id
      then Plus(CountersOf(g, id), Counters(1, e.chars)) else CountersOf(g, id)
  {
    if e.DoReserve? {
      if Grants(g, e.call, e.chars) {
        var row := ReservedRow(g, e.call, e.chars);
      } else {
        NothingReserved(g, e.call, e.chars);
      }
    }
    assert e.DoSucceed? && e.call in g.calls ==> CallOk(g, g.calls[e.call]);
    hide WellFormed, RowsOk, Grants, FindRequest, Reserve;
  }

  /** Starting again, failing, succeeding, being swept and restarting the service all leave the counters of a request as
      they are. */
  lemma {:induction false} CountersNeverFall(g: Gateway, events: seq<Event>, id: nat)
    requires TablesOk(g)
    ensures AtLeast(CountersOf(Run(g, events), id), CountersOf(g, id))
  {
    hide TablesOk, Step, CountersOf, Grants;
    if events != [] {
      var before := events[..|events| - 1];
      RunKeepsTables(g, before);
      CountersNeverFall(g, before, id);
      StepKeepsCounters(Run(g, before), events[|events| - 1], id);
    }
  }

  /** In every reachable state the tree of a budget is its lineage: each job in it walks up to its root. */
  lemma TreesAreLineages(maxAttempts: nat, maxChars: nat, events: seq<Event>, root: nat, j: nat)
    requires IsBudget(Run(NewGateway(maxAttempts, maxChars), events).jobs, root)
    ensures var jobs := Run(NewGateway(maxAttempts, maxChars), events).jobs;
      InTree(jobs, jobs[root], root, j) <==> RootOf(jobs, j) == Some(root)
  {
    RunKeepsTables(NewGateway(maxAttempts, maxChars), events);
    hide Run, RowsOk, CallsOk;
    TreeIsLineage(Run(NewGateway(maxAttempts, maxChars), events).jobs, root, j);
  }
}
