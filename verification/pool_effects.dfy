/** What each step of the pool does to a caller, and how long a caller stays with the pool. */
module PoolEffects {
  import opened Options
  import opened Pool
  import opened PoolLaws
  import PoolTheorems

  // ----- Who is let in

  /** In terms of the open admissions alone: the pool, the user and some channel of the list have room. */
  ghost predicate HasPlace(p: Pool, call: Call) {
    && |p.open| < p.total && |OfUser(p.open, call.user)| < p.perUser
    && exists k :: 0 <= k < |call.channels| && Free(p, call.channels[k].connection)
  }

  /** Fewer admissions are open on the connection than the capacity known for it. */
  ghost predicate Free(p: Pool, k: Connection) { k in p.limits && |OfConnection(p.open, k)| < p.limits[k].capacity }

  lemma PlaceIsAdmissible(p: Pool, call: Call)
    requires CountsOk(p)
    ensures HasPlace(p, call) <==> Admissible(p, call)
  {
    forall k: Connection, c: Channel | c.connection == k ensures Free(p, k) <==> HasRoom(p, c) {
      assert Count(p.connections, k) == |OfConnection(p.open, k)|;
    }
    assert Count(p.users, call.user) == |OfUser(p.open, call.user)|;
    hide CountsOk, HasRoom, Free, OfUser, OfConnection;
    if HasPlace(p, call) {
      var k :| 0 <= k < |call.channels| && Free(p, call.channels[k].connection);
      assert HasRoom(p, call.channels[k]);
    }
    if Admissible(p, call) {
      var k :| 0 <= k < |call.channels| && HasRoom(p, call.channels[k]);
      assert Free(p, call.channels[k].connection);
    }
  }

  /** Nobody sleeps in front of a free place, in whatever order callers come, are cancelled and leave. */
  lemma SleepersHaveNoPlace(total: int, perUser: int, events: seq<Event>, id: CallId)
    requires id in Run(NewPool(total, perUser), events).sleeping
    ensures var p := Run(NewPool(total, perUser), events); !HasPlace(p, p.sleeping[id])
  {
    hide Run, CountsOk, PlacesOk, HasPlace, Admissible;
    NewPoolIsOk(total, perUser);
    RunKeepsInv(NewPool(total, perUser), events);
    var p := Run(NewPool(total, perUser), events);
    PlaceIsAdmissible(p, p.sleeping[id]);
  }

  // ----- Where a caller is

  /** The caller holds a channel of its own list, in its own name. */
  ghost predicate Served(p: Pool, id: CallId, call: Call) {
    && id in p.open && p.open[id].user == call.user
    && exists k :: 0 <= k < |call.channels| && call.channels[k].connection == p.open[id].connection
  }

  ghost predicate Asleep(p: Pool, id: CallId, call: Call) { id in p.sleeping && p.sleeping[id] == call }

  ghost predicate Awake(p: Pool, id: CallId, call: Call) { id in p.woken && p.woken[id] == call }

  /** A turn of the wait loop ends with a free channel of the caller's, or with the caller asleep. */
  lemma TryIsExact(p: Pool, id: CallId, call: Call)
    requires CountsOk(p) && Fresh(p, id)
    ensures HasPlace(p, call) ==>
      Served(Try(p, id, call), id, call) && Free(p, Try(p, id, call).open[id].connection)
    ensures !HasPlace(p, call) ==> Asleep(Try(p, id, call), id, call) && id !in Try(p, id, call).open
  {
    hide HasPlace, Admissible, CountsOk, Served, Free, Chosen, Admit;
    PlaceIsAdmissible(p, call);
    TryIsAdmissible(p, call);
    if Admissible(p, call) {
      AdmitServes(p, id, call);
    }
  }

  lemma AdmitServes(p: Pool, id: CallId, call: Call)
    requires CountsOk(p) && Chosen(p, call.channels, |call.channels|).Some?
    ensures Served(Admit(p, id, call), id, call) && Free(p, Admit(p, id, call).open[id].connection)
  {
    hide CountsOk, Chosen, Free, HasRoom;
    var i := Chosen(p, call.channels, |call.channels|).value;
    RoomIsFree(p, call.channels[i]);
  }

  lemma RoomIsFree(p: Pool, c: Channel)
    requires CountsOk(p) && HasRoom(p, c)
    ensures Free(p, c.connection)
  {
  }

  /** A notified caller that gets the lock is let in if there is a place for it, and sleeps again if not. */
  lemma ResumeIsExact(p: Pool, id: CallId)
    requires Inv(p) && id in p.woken
    ensures HasPlace(p, p.woken[id]) ==> Served(Resume(p, id), id, p.woken[id])
    ensures !HasPlace(p, p.woken[id]) ==> Asleep(Resume(p, id), id, p.woken[id]) && id !in Resume(p, id).open
  {
    var q := p.(woken := p.woken - {id});
    assert HasPlace(q, p.woken[id]) <==> HasPlace(p, p.woken[id]);
    CountsDoNotSee(p, q);
    hide HasPlace, CountsOk, Try, Served, Asleep, NobodyMissed;
    TryIsExact(q, id, p.woken[id]);
  }

  /** The caller is asleep, awake and about to look, or served. */
  ghost predicate Present(p: Pool, id: CallId, call: Call) {
    Asleep(p, id, call) || Awake(p, id, call) || Served(p, id, call)
  }

  lemma EnterIsPresent(p: Pool, id: CallId, call: Call)
    requires Inv(p) && Fresh(p, id) && call.channels != []
    ensures Served(Enter(p, id, call), id, call) || Asleep(Enter(p, id, call), id, call)
  {
    var q := NotifyAll(p.(limits := WithLimits(p.limits, call.channels, |call.channels|)));
    CountsDoNotSee(p, q);
    hide CountsOk, NobodyMissed, Try, Served, Asleep, HasPlace, WithLimits;
    TryIsExact(q, id, call);
  }

  /** A turn of another caller leaves this one where it is. */
  lemma OthersTry(p: Pool, id: CallId, call: Call, other: CallId, its: Call)
    requires Present(p, id, call) && other != id
    ensures Present(Try(p, other, its), id, call)
  {
    hide Chosen;
  }

  lemma NotifyMovesNobodyOut(p: Pool, id: CallId, call: Call)
    requires PlacesOk(p) && Present(p, id, call)
    ensures Present(NotifyAll(p), id, call)
  {
  }

  lemma SamePlaces(p: Pool, q: Pool, id: CallId, call: Call)
    requires Present(p, id, call) && q.sleeping == p.sleeping && q.woken == p.woken && q.open == p.open
    ensures Present(q, id, call)
  {
  }

  lemma EnterKeepsPlace(p: Pool, id: CallId, call: Call, other: CallId, its: Call)
    requires PlacesOk(p) && Present(p, id, call)
    ensures Present(Enter(p, other, its), id, call)
  {
    if its.channels != [] && Fresh(p, other) {
      var q := p.(limits := WithLimits(p.limits, its.channels, |its.channels|));
      assert other != id;
      SamePlaces(p, q, id, call);
      NotifyMovesNobodyOut(q, id, call);
      OthersTry(NotifyAll(q), id, call, other, its);
    }
  }

  lemma OwnResume(p: Pool, id: CallId, call: Call)
    requires Inv(p) && Present(p, id, call)
    ensures Present(Resume(p, id), id, call)
  {
    hide HasPlace, Served, CountsOk, NobodyMissed, Try;
    if id in p.woken {
      WokenOnly(p, id, call);
      ResumeIsExact(p, id);
    }
  }

  lemma WokenOnly(p: Pool, id: CallId, call: Call)
    requires PlacesOk(p) && Present(p, id, call) && id in p.woken
    ensures p.woken[id] == call
  {
  }

  lemma OtherResumes(p: Pool, id: CallId, call: Call, other: CallId)
    requires Present(p, id, call) && other != id
    ensures Present(Resume(p, other), id, call)
  {
    hide Served, Try;
    if other in p.woken {
      var q := p.(woken := p.woken - {other});
      SameServed(p, q, id, call);
      OthersTry(q, id, call, other, p.woken[other]);
    }
  }

  lemma SameServed(p: Pool, q: Pool, id: CallId, call: Call)
    requires q.open == p.open
    ensures Served(p, id, call) ==> Served(q, id, call)
  {
  }

  lemma LeaveKeepsPlace(p: Pool, id: CallId, call: Call, other: CallId)
    requires PlacesOk(p) && Present(p, id, call) && other != id
    ensures Present(Leave(p, other), id, call)
  {
  }

  lemma StepKeepsPlace(p: Pool, e: Event, id: CallId, call: Call)
    requires Inv(p) && Present(p, id, call) && e != DoCancel(id) && e != DoLeave(id)
    ensures Present(Step(p, e), id, call)
  {
    hide CountsOk, NobodyMissed, Present, Enter, Resume, Leave;
    match e
    case DoConfigure(total, perUser) =>
      SamePlaces(p, p.(total := total, perUser := perUser), id, call);
      NotifyMovesNobodyOut(p.(total := total, perUser := perUser), id, call);
    case DoEnter(other, its) => EnterKeepsPlace(p, id, call, other, its);
    case DoResume(other) => if other == id { OwnResume(p, id, call); } else { OtherResumes(p, id, call, other); }
    case DoCancel(other) => CancelKeepsPlace(p, id, call, other);
    case DoLeave(other) => LeaveKeepsPlace(p, id, call, other);
  }

  lemma CancelKeepsPlace(p: Pool, id: CallId, call: Call, other: CallId)
    requires Present(p, id, call) && other != id
    ensures Present(Cancel(p, other), id, call)
  {
  }

  /** The pool forgets nobody: a caller that has entered is waiting for a place or has one until it is cancelled or
      leaves, and while it waits in vain there is no place for it. */
  lemma {:induction false} NobodyIsForgotten(p: Pool, events: seq<Event>, id: CallId, call: Call)
    requires Inv(p) && Present(p, id, call)
    requires forall k :: 0 <= k < |events| ==> events[k] != DoCancel(id) && events[k] != DoLeave(id)
    ensures Inv(Run(p, events)) && Present(Run(p, events), id, call)
    ensures Asleep(Run(p, events), id, call) ==> !HasPlace(Run(p, events), call)
  {
    hide Step, CountsOk, PlacesOk, Present, HasPlace, Admissible;
    RunKeepsInv(p, events);
    if events != [] {
      NobodyIsForgotten(p, events[..|events| - 1], id, call);
      StepKeepsPlace(Run(p, events[..|events| - 1]), events[|events| - 1], id, call);
    }
    PlaceIsAdmissible(Run(p, events), call);
  }

  /** Once every notified caller has had the lock, whoever is not served has no place. */
  lemma QuietPoolServesAll(p: Pool, id: CallId, call: Call)
    requires Inv(p)
    ensures Present(p, id, call) && p.woken == map[] && HasPlace(p, call) ==> Served(p, id, call)
  {
    PlaceIsAdmissible(p, call);
    hide HasPlace, Admissible, CountsOk, PlacesOk, Served;
  }

  /** A cancelled caller waits no more; it takes nothing with it. */
  lemma CancelIsExact(p: Pool, id: CallId)
    ensures var q := Cancel(p, id);
      && id !in q.sleeping && id !in q.woken && q.open == p.open && q.active == p.active
      && (forall other, call :: other != id ==>
           (Asleep(q, other, call) <==> Asleep(p, other, call)) && (Awake(q, other, call) <==> Awake(p, other, call)))
  {
  }

  // ----- Limits and load

  /** The limit last configured, or the one the pool was made with. */
  function LastTotal(total: int, events: seq<Event>): int {
    if events == [] then total
    else if events[|events| - 1].DoConfigure? then events[|events| - 1].total
    else LastTotal(total, events[..|events| - 1])
  }

  function LastPerUser(perUser: int, events: seq<Event>): int {
    if events == [] then perUser
    else if events[|events| - 1].DoConfigure? then events[|events| - 1].perUser
    else LastPerUser(perUser, events[..|events| - 1])
  }

  lemma StepSetsLimits(p: Pool, e: Event)
    ensures Step(p, e).total == if e.DoConfigure? then e.total else p.total
    ensures Step(p, e).perUser == if e.DoConfigure? then e.perUser else p.perUser
  {
    hide Chosen, WithLimits;
  }

  lemma {:induction false} LimitsAreConfigured(total: int, perUser: int, events: seq<Event>)
    ensures Run(NewPool(total, perUser), events).total == LastTotal(total, events)
    ensures Run(NewPool(total, perUser), events).perUser == LastPerUser(perUser, events)
  {
    hide Step;
    if events != [] {
      LimitsAreConfigured(total, perUser, events[..|events| - 1]);
      StepSetsLimits(Run(NewPool(total, perUser), events[..|events| - 1]), events[|events| - 1]);
    }
  }

  /** An admission leaves no more open calls than the last configured limits allow. */
  lemma AdmissionsFitConfiguration(total: int, perUser: int, events: seq<Event>, e: Event, id: CallId)
    requires var p := Run(NewPool(total, perUser), events); id !in p.open && id in Step(p, e).open
    ensures var q := Step(Run(NewPool(total, perUser), events), e);
      && |q.open| <= LastTotal(total, events + [e])
      && |OfUser(q.open, q.open[id].user)| <= LastPerUser(perUser, events + [e])
      && q.open[id].connection in q.limits
      && |OfConnection(q.open, q.open[id].connection)| <= q.limits[q.open[id].connection].capacity
  {
    var p := Run(NewPool(total, perUser), events);
    NewPoolIsOk(total, perUser);
    RunKeepsInv(NewPool(total, perUser), events);
    StepKeepsInv(p, e);
    assert (events + [e])[..|events|] == events;
    LimitsAreConfigured(total, perUser, events + [e]);
    PoolTheorems.AdmissionRespectsLimits(p, e, id);
    hide Step, NobodyMissed, PlacesOk, OfUser, OfConnection, LastTotal, LastPerUser, PoolTheorems.Admits;
    assert Run(NewPool(total, perUser), events + [e]) == Step(p, e);
    PositiveCount(Step(p, e), id);
  }

  lemma PositiveCount(p: Pool, id: CallId)
    requires CountsOk(p) && id in p.open
    ensures Count(p.connections, p.open[id].connection) > 0
  {
    assert id in OfConnection(p.open, p.open[id].connection);
  }

  lemma RatioOrder(a: int, b: int, c: int, d: int)
    requires b > 0 && d > 0
    ensures a as real / b as real < c as real / d as real <==> a * d < c * b
    ensures a as real / b as real == c as real / d as real <==> a * d == c * b
  {
    var x, y := a as real / b as real, c as real / d as real;
    assert x * b as real == a as real && y * d as real == c as real;
    assert (a * d) as real == x * (b as real * d as real) && (c * b) as real == y * (b as real * d as real);
    assert b as real * d as real > 0.0;
  }

  /** The channel given has the least share of its capacity in use, and the longest disuse among those of the same
      share. */
  lemma ChosenCarriesLeast(p: Pool, channels: seq<Channel>, k: nat)
    requires Chosen(p, channels, |channels|).Some? && k < |channels| && HasRoom(p, channels[k])
      && CountsNotNegative(p, channels)
    ensures var c, d := channels[Chosen(p, channels, |channels|).value].connection, channels[k].connection;
      var mine := Count(p.connections, c) * CapacityOf(p.limits, d);
      var its := Count(p.connections, d) * CapacityOf(p.limits, c);
      mine < its || (mine == its && Count(p.lastUsed, c) <= Count(p.lastUsed, d))
  {
    var i := Chosen(p, channels, |channels|).value;
    var c, d := channels[i].connection, channels[k].connection;
    ChosenIsLeast(p, channels, |channels|);
    assert HasRoom(p, channels[i]);
    hide Chosen;
    RatioOrder(Count(p.connections, c), CapacityOf(p.limits, c), Count(p.connections, d), CapacityOf(p.limits, d));
    RatioOrder(Count(p.connections, d), CapacityOf(p.limits, d), Count(p.connections, c), CapacityOf(p.limits, c));
  }

  /** No counter of the list is negative, so it takes a positive capacity to have room. */
  ghost predicate CountsNotNegative(p: Pool, channels: seq<Channel>) {
    forall k :: 0 <= k < |channels| ==> Count(p.connections, channels[k].connection) >= 0
  }
}
