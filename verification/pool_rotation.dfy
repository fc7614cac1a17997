/** Rotation: callers who take channels one at a time from one list are given every usable connection in turn. */
module PoolRotation {
  import opened Options
  import opened Pool
  import opened PoolLaws
  import opened PoolTheorems

  /** Calls `first`, `first + 1`, ... by whatever users, with the same channels, each after the last one's return. */
  datatype Visits = Visits(first: CallId, channels: seq<Channel>, who: nat -> User)

  function CallAt(v: Visits, n: nat): Call { Call(v.who(n), v.channels) }

  // ----- Learning the limits

  /** What admit makes of the limits before it looks for a channel. */
  function Learnt(limits: map<Connection, Limit>, channels: seq<Channel>): map<Connection, Limit> {
    WithLimits(limits, channels, |channels|)
  }

  /** Either some channel has the latest word on a connection, or none has anything as late as what is known. */
  lemma {:induction false} LatestOrOld(limits: map<Connection, Limit>, channels: seq<Channel>, n: nat, k: Connection)
    returns (latest: Option<nat>)
    requires n <= |channels|
    ensures latest.Some? ==>
      IsLatest(limits, channels, n, latest.value) && channels[latest.value].connection == k
    ensures latest.None? ==>
      forall i :: 0 <= i < n && channels[i].connection == k ==> channels[i].revision < RevisionOf(limits, k)
  {
    latest := None;
    if n > 0 {
      latest := LatestOrOld(limits, channels, n - 1, k);
      var bound := if latest.Some? then channels[latest.value].revision else RevisionOf(limits, k);
      if channels[n - 1].connection == k && channels[n - 1].revision >= bound {
        latest := Some(n - 1);
      }
    }
  }

  lemma SameLimit(limits: map<Connection, Limit>, channels: seq<Channel>, k: Connection)
    ensures var once := Learnt(limits, channels); var twice := Learnt(once, channels);
      (k in twice <==> k in once) && (k in once ==> twice[k] == once[k])
  {
    var n, once := |channels|, Learnt(limits, channels);
    var latest := LatestOrOld(limits, channels, n, k);
    if latest.Some? {
      LimitsAreLatest(limits, channels, n, latest.value);
      assert IsLatest(once, channels, n, latest.value);
      LimitsAreLatest(once, channels, n, latest.value);
    } else {
      OldNewsIsIgnored(limits, channels, n, k);
      OldNewsIsIgnored(once, channels, n, k);
    }
  }

  /** Saying the same thing again teaches the pool nothing. */
  lemma LearningIsIdempotent(limits: map<Connection, Limit>, channels: seq<Channel>)
    ensures Learnt(Learnt(limits, channels), channels) == Learnt(limits, channels)
  {
    hide Learnt;
    forall k: Connection { SameLimit(limits, channels, k); }
  }

  // ----- An idle list of channels

  /** The connections of the list that have a positive capacity once the list is known. */
  function Rota(p: Pool, channels: seq<Channel>): set<Connection> {
    set k | 0 <= k < |channels| && CapacityOf(Learnt(p.limits, channels), channels[k].connection) > 0 ::
      channels[k].connection
  }

  /** Some connection of the list is usable, none is in use, and the pool has room. */
  ghost predicate Idle(p: Pool, channels: seq<Channel>) {
    && Rota(p, channels) != {} && p.active < p.total
    && (forall k :: 0 <= k < |channels| ==> Count(p.connections, channels[k].connection) == 0)
    && ClockOk(p)
  }

  /** No connection was used after the present. */
  ghost predicate ClockOk(p: Pool) { 0 <= p.sequence && forall k :: k in p.lastUsed ==> p.lastUsed[k] <= p.sequence }

  /** All visitors are new, and below their own limit. */
  ghost predicate Welcome(p: Pool, v: Visits) {
    (forall id :: id >= v.first ==> Fresh(p, id)) && forall n: nat :: Count(p.users, v.who(n)) < p.perUser
  }

  lemma StepKeepsClock(p: Pool, e: Event)
    requires ClockOk(p)
    ensures ClockOk(Step(p, e))
  {
    hide WithLimits, Chosen;
  }

  lemma {:induction false} RunKeepsClock(p: Pool, events: seq<Event>)
    requires ClockOk(p)
    ensures ClockOk(Run(p, events))
  {
    hide Step, ClockOk;
    if events != [] {
      RunKeepsClock(p, events[..|events| - 1]);
      StepKeepsClock(Run(p, events[..|events| - 1]), events[|events| - 1]);
    }
  }

  /** A reachable pool with room is idle for any list with a usable connection and no open admission. */
  lemma UnusedIsIdle(total: int, perUser: int, events: seq<Event>, channels: seq<Channel>)
    requires var p := Run(NewPool(total, perUser), events);
      && p.active < p.total && Rota(p, channels) != {}
      && forall id, k :: id in p.open && 0 <= k < |channels| ==> p.open[id].connection != channels[k].connection
    ensures Idle(Run(NewPool(total, perUser), events), channels)
  {
    hide Run, Learnt, NobodyMissed, PlacesOk, Total;
    var p := Run(NewPool(total, perUser), events);
    RunKeepsClock(NewPool(total, perUser), events);
    NewPoolIsOk(total, perUser);
    RunKeepsInv(NewPool(total, perUser), events);
    forall k | 0 <= k < |channels| ensures Count(p.connections, channels[k].connection) == 0 {
      assert OfConnection(p.open, channels[k].connection) == {};
    }
  }

  // ----- One visit

  /** One admission and its return. */
  function Turn(p: Pool, id: CallId, call: Call): Pool { Leave(Enter(p, id, call), id) }

  /** What a caller of admit finds when it looks for a channel. */
  function Looking(p: Pool, channels: seq<Channel>): Pool { NotifyAll(p.(limits := Learnt(p.limits, channels))) }

  ghost predicate LeastUsed(p: Pool, channels: seq<Channel>, given: Connection) {
    && given in Rota(p, channels)
    && forall k :: k in Rota(p, channels) ==> Count(p.lastUsed, given) <= Count(p.lastUsed, k)
  }

  /** With all loads at zero the choice is the first of the longest unused channels. */
  lemma IdleChoice(p: Pool, channels: seq<Channel>) returns (i: nat)
    requires Idle(p, channels)
    ensures i < |channels| && Chosen(Looking(p, channels), channels, |channels|) == Some(i)
    ensures LeastUsed(p, channels, channels[i].connection)
  {
    hide Chosen, Learnt;
    var q, n := Looking(p, channels), |channels|;
    forall k | 0 <= k < n
      ensures HasRoom(q, channels[k]) <==> channels[k].connection in Rota(p, channels)
      ensures Load(q, channels[k]) == 0.0
    {
    }
    var c :| c in Rota(p, channels);
    i := Chosen(q, channels, n).value;
    ChosenIsLeast(q, channels, n);
  }

  lemma IdleEnters(p: Pool, id: CallId, call: Call)
    requires Idle(p, call.channels) && Count(p.users, call.user) < p.perUser && Fresh(p, id)
    ensures var q := Looking(p, call.channels);
      Chosen(q, call.channels, |call.channels|).Some? && Enter(p, id, call) == Admit(q, id, call)
  {
    var i := IdleChoice(p, call.channels);
    hide Chosen, WithLimits, Admit;
  }

  /** All that a visit leaves changed: the clock, the time of use, the limits, and who is awake. */
  ghost predicate Visited(p: Pool, q: Pool, channels: seq<Channel>, given: Connection) {
    && q.total == p.total && q.perUser == p.perUser && q.active == p.active && q.open == p.open
    && q.limits == Learnt(p.limits, channels)
    && q.sleeping == map[] && q.woken == p.woken + p.sleeping
    && q.sequence == p.sequence + 1 && q.lastUsed == p.lastUsed[given := p.sequence + 1]
    && (forall u :: Count(q.users, u) == Count(p.users, u))
    && forall k :: Count(q.connections, k) == Count(p.connections, k)
  }

  lemma AdmittedReturns(p: Pool, id: CallId, call: Call, i: nat)
    requires id !in p.open && Chosen(Looking(p, call.channels), call.channels, |call.channels|) == Some(i)
    requires i < |call.channels|
    ensures var q := Admit(Looking(p, call.channels), id, call);
      && id in q.open && q.open[id] == Admission(call.user, call.channels[i].connection)
      && Visited(p, Leave(q, id), call.channels, call.channels[i].connection)
  {
    hide Chosen, Learnt;
    var q := Admit(Looking(p, call.channels), id, call);
    assert q.open - {id} == p.open;
    AdmittedCounts(p, id, call, i);
    hide Count;
  }

  lemma AdmittedCounts(p: Pool, id: CallId, call: Call, i: nat)
    requires id !in p.open && Chosen(Looking(p, call.channels), call.channels, |call.channels|) == Some(i)
    requires i < |call.channels|
    ensures var q := Leave(Admit(Looking(p, call.channels), id, call), id);
      && (forall u :: Count(q.users, u) == Count(p.users, u))
      && (forall k :: Count(q.connections, k) == Count(p.connections, k))
  {
    hide Chosen, Learnt;
  }

  lemma VisitedIsIdle(p: Pool, q: Pool, channels: seq<Channel>, given: Connection)
    requires Idle(p, channels) && Visited(p, q, channels, given)
    ensures Idle(q, channels) && Rota(q, channels) == Rota(p, channels)
  {
    LearningIsIdempotent(p.limits, channels);
    hide Learnt;
  }

  /** An idle pool gives a usable connection unused for longest, and is idle again after the return. */
  lemma TurnTakesLeastUsed(p: Pool, id: CallId, call: Call) returns (given: Connection)
    requires Idle(p, call.channels) && Count(p.users, call.user) < p.perUser && Fresh(p, id)
    ensures var q := Enter(p, id, call); id in q.open && q.open[id] == Admission(call.user, given)
    ensures LeastUsed(p, call.channels, given)
    ensures var q := Turn(p, id, call);
      Idle(q, call.channels) && Rota(q, call.channels) == Rota(p, call.channels) && Visited(p, q, call.channels, given)
  {
    hide Idle, LeastUsed, Visited, Enter, Leave, Chosen, Admit, Looking, Rota;
    var i := IdleChoice(p, call.channels);
    given := call.channels[i].connection;
    IdleEnters(p, id, call);
    AdmittedReturns(p, id, call, i);
    VisitedIsIdle(p, Turn(p, id, call), call.channels, given);
  }

  // ----- Many visits

  /** The state after `n` visits. */
  function After(p: Pool, v: Visits, n: nat): Pool {
    if n == 0 then p else Turn(After(p, v, n - 1), v.first + n - 1, CallAt(v, n - 1))
  }

  /** The connection given in visit `n`, counting from zero. */
  function Given(p: Pool, v: Visits, n: nat): Connection {
    var q := Enter(After(p, v, n), v.first + n, CallAt(v, n));
    if v.first + n in q.open then q.open[v.first + n].connection else 0
  }

  ghost predicate GivenAt(p: Pool, v: Visits, n: nat, k: Connection, m: int) { 0 <= m < n && Given(p, v, m) == k }

  /** Later uses than the start are visits, and every visit counts as a use. */
  ghost predicate History(p: Pool, q: Pool, v: Visits, n: nat) {
    && (forall k :: Count(q.lastUsed, k) > p.sequence ==> GivenAt(p, v, n, k, Count(q.lastUsed, k) - p.sequence - 1))
    && (forall m: nat :: m < n ==> Count(q.lastUsed, Given(p, v, m)) >= p.sequence + m + 1)
  }

  lemma HistoryGrows(p: Pool, r: Pool, q: Pool, v: Visits, n: nat)
    requires History(p, r, v, n) && q.lastUsed == r.lastUsed[Given(p, v, n) := p.sequence + n + 1]
    ensures History(p, q, v, n + 1)
  {
    hide Given;
    forall k | Count(q.lastUsed, k) > p.sequence
      ensures GivenAt(p, v, n + 1, k, Count(q.lastUsed, k) - p.sequence - 1)
    {
      assert k != Given(p, v, n) ==> GivenAt(p, v, n, k, Count(r.lastUsed, k) - p.sequence - 1);
    }
  }

  /** What `n` visits leave behind. */
  ghost predicate Served(p: Pool, v: Visits, n: nat) {
    var q := After(p, v, n);
    && Idle(q, v.channels) && Rota(q, v.channels) == Rota(p, v.channels) && Welcome(q, v) && q.open == p.open
    && q.sequence == p.sequence + n && History(p, q, v, n)
  }

  lemma NotServedYet(p: Pool, v: Visits)
    requires Idle(p, v.channels) && Welcome(p, v)
    ensures Served(p, v, 0)
  {
    hide Given;
  }

  /** A visitor still to come is still new, and still welcome. */
  lemma StillWelcome(p: Pool, q: Pool, v: Visits, given: Connection)
    requires Welcome(p, v) && Visited(p, q, v.channels, given)
    ensures Welcome(q, v)
  {
    hide Learnt;
    forall id | id >= v.first ensures Fresh(q, id) {
      assert Fresh(p, id);
    }
  }

  /** Visit `n`, seen from the state before it. */
  lemma NextVisit(p: Pool, v: Visits, n: nat)
    requires Idle(After(p, v, n), v.channels) && Welcome(After(p, v, n), v)
    ensures LeastUsed(After(p, v, n), v.channels, Given(p, v, n))
    ensures var r, q := After(p, v, n), After(p, v, n + 1);
      Idle(q, v.channels) && Rota(q, v.channels) == Rota(r, v.channels) && Visited(r, q, v.channels, Given(p, v, n))
  {
    hide Idle, Turn, Enter, Fresh, LeastUsed, Visited, Rota;
    var given := TurnTakesLeastUsed(After(p, v, n), v.first + n, CallAt(v, n));
  }

  lemma OneMoreVisit(p: Pool, v: Visits, n: nat)
    ensures Served(p, v, n) ==> Served(p, v, n + 1)
  {
    hide Idle, After, Given, History, Welcome, Rota, Learnt, LeastUsed;
    if Served(p, v, n) {
      NextVisit(p, v, n);
      StillWelcome(After(p, v, n), After(p, v, n + 1), v, Given(p, v, n));
      HistoryGrows(p, After(p, v, n), After(p, v, n + 1), v, n);
    }
  }

  /** After `n` visits a connection was last used either before the first one, or in the last visit that gave it. */
  lemma {:induction false} UseIsHistory(p: Pool, v: Visits, n: nat)
    requires Idle(p, v.channels) && Welcome(p, v)
    ensures Served(p, v, n)
  {
    hide Idle, Served, Welcome;
    if n == 0 {
      NotServedYet(p, v);
    } else {
      UseIsHistory(p, v, n - 1);
      OneMoreVisit(p, v, n - 1);
    }
  }

  // ----- Rotation

  /** The connections given in the visits from `low` up to `high`. */
  function GivenIn(p: Pool, v: Visits, low: nat, high: nat): set<Connection> {
    set m: nat | low <= m < high :: Given(p, v, m)
  }

  lemma {:induction false} WindowSize(p: Pool, v: Visits, low: nat, high: nat)
    requires low <= high
    ensures |GivenIn(p, v, low, high)| <= high - low
    decreases high
  {
    hide Given;
    if low < high {
      WindowSize(p, v, low, high - 1);
      assert GivenIn(p, v, low, high) == GivenIn(p, v, low, high - 1) + {Given(p, v, high - 1)};
    } else {
      assert GivenIn(p, v, low, high) == {};
    }
  }

  /** Visit `j` gives a usable connection that no other usable one has been waiting longer than. */
  lemma VisitGivesLeast(p: Pool, v: Visits, j: nat)
    requires Idle(p, v.channels) && Welcome(p, v)
    ensures var q := After(p, v, j); History(p, q, v, j) && Given(p, v, j) in Rota(p, v.channels)
    ensures forall k :: k in Rota(p, v.channels) ==>
      Count(After(p, v, j).lastUsed, Given(p, v, j)) <= Count(After(p, v, j).lastUsed, k)
  {
    hide Idle, History, After, Given, Welcome, Rota;
    UseIsHistory(p, v, j);
    NextVisit(p, v, j);
  }

  /** Between two visits that are given the same connection, every usable connection is given. */
  lemma RepeatServesAll(p: Pool, v: Visits, i: nat, j: nat)
    requires Idle(p, v.channels) && Welcome(p, v) && i < j && Given(p, v, i) == Given(p, v, j)
    ensures Rota(p, v.channels) <= GivenIn(p, v, i, j)
  {
    hide Idle, Welcome, Given, After, Rota;
    var q := After(p, v, j);
    VisitGivesLeast(p, v, j);
    assert Count(q.lastUsed, Given(p, v, i)) >= p.sequence + i + 1;
    forall k | k in Rota(p, v.channels) ensures k in GivenIn(p, v, i, j) {
      assert GivenAt(p, v, j, k, Count(q.lastUsed, k) - p.sequence - 1);
    }
  }

  lemma {:induction false} SubsetSize(a: set<Connection>, b: set<Connection>)
    requires a <= b
    ensures |a| <= |b|
  {
    if a != {} {
      var x :| x in a;
      SubsetSize(a - {x}, b - {x});
    }
  }

  /** Rotation: any k consecutive visits are given k different connections, k being the number of usable ones. */
  lemma Rotation(p: Pool, v: Visits, i: nat, j: nat)
    requires Idle(p, v.channels) && Welcome(p, v)
    requires i < j < i + |Rota(p, v.channels)|
    ensures Given(p, v, i) != Given(p, v, j)
    ensures Given(p, v, i) in Rota(p, v.channels)
  {
    hide Idle, Welcome, Given, Rota, GivenIn;
    VisitGivesLeast(p, v, i);
    WindowSize(p, v, i, j);
    if Given(p, v, i) == Given(p, v, j) {
      RepeatServesAll(p, v, i, j);
      SubsetSize(Rota(p, v.channels), GivenIn(p, v, i, j));
      assert false;
    }
  }

  // ----- From the start

  ghost predicate DistinctConnections(channels: seq<Channel>) {
    forall i, j :: 0 <= i < j < |channels| ==> channels[i].connection != channels[j].connection
  }

  function Connections(channels: seq<Channel>): set<Connection> {
    set k | 0 <= k < |channels| :: channels[k].connection
  }

  lemma {:induction false} ConnectionCount(channels: seq<Channel>)
    requires DistinctConnections(channels)
    ensures |Connections(channels)| == |channels|
  {
    if channels == [] {
      assert Connections(channels) == {};
    } else {
      var n := |channels| - 1;
      ConnectionCount(channels[..n]);
      assert Connections(channels) == Connections(channels[..n]) + {channels[n].connection};
    }
  }

  /** A pool that knows nothing takes the capacities of a list of distinct connections as they are. */
  lemma FreshRota(total: int, perUser: int, channels: seq<Channel>)
    requires DistinctConnections(channels) && forall k :: 0 <= k < |channels| ==> channels[k].capacity > 0
    ensures Rota(NewPool(total, perUser), channels) == Connections(channels)
  {
    forall k | 0 <= k < |channels|
      ensures CapacityOf(Learnt(map[], channels), channels[k].connection) == channels[k].capacity
    {
      LimitsAreLatest(map[], channels, |channels|, k);
    }
    hide Learnt;
  }

  /** From the first call on a new pool, k distinct connections are given in turn. */
  lemma RotationFromTheStart(total: int, perUser: int, v: Visits, i: nat, j: nat)
    requires total > 0 && perUser > 0 && DistinctConnections(v.channels)
    requires forall k :: 0 <= k < |v.channels| ==> v.channels[k].capacity > 0
    requires i < j < i + |v.channels|
    ensures Given(NewPool(total, perUser), v, i) != Given(NewPool(total, perUser), v, j)
  {
    hide Given, Learnt, Rota;
    var p := NewPool(total, perUser);
    FreshRota(total, perUser, v.channels);
    ConnectionCount(v.channels);
    Rotation(p, v, i, j);
  }
}
