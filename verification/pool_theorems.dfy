/** The promises of channel admission: no lost wake-up, bounded admission, and rotation. */
module PoolTheorems {
  import opened Pool
  import opened PoolLaws

  // ----- Wake-ups

  /** In every reachable state no waiter that is asleep could be admitted, whoever has been woken and not yet run. */
  lemma NoLostWakeUp(total: int, perUser: int, events: seq<Event>, id: CallId)
    requires id in Run(NewPool(total, perUser), events).sleeping
    ensures var p := Run(NewPool(total, perUser), events); !Admissible(p, p.sleeping[id])
  {
    hide Run, CountsOk, PlacesOk;
    NewPoolIsOk(total, perUser);
    RunKeepsInv(NewPool(total, perUser), events);
  }

  /** Once all admissions are returned, whoever still sleeps is kept out by the configured limits alone. */
  lemma DrainedPoolStrandsNobody(p: Pool, id: CallId, k: nat)
    requires Inv(p) && id in p.sleeping && k < |p.sleeping[id].channels|
    ensures p.open == map[] && p.total > 0 && p.perUser > 0 ==>
      CapacityOf(p.limits, p.sleeping[id].channels[k].connection) <= 0
  {
    hide Inv, Admissible;
    var call := p.sleeping[id];
    SleeperIsKeptOut(p, id);
    if p.open == map[] {
      NothingOpen(p, call.user, call.channels[k].connection);
    }
    if p.open == map[] && p.total > 0 && p.perUser > 0 && HasRoom(p, call.channels[k]) {
      RoomAdmits(p, call, k);
      assert false;
    }
  }

  lemma SleeperIsKeptOut(p: Pool, id: CallId)
    requires Inv(p) && id in p.sleeping
    ensures !Admissible(p, p.sleeping[id])
  {
  }

  lemma RoomAdmits(p: Pool, call: Call, k: nat)
    requires k < |call.channels| && HasRoom(p, call.channels[k])
    requires p.active < p.total && Count(p.users, call.user) < p.perUser
    ensures Admissible(p, call)
  {
  }

  lemma NothingOpen(p: Pool, u: User, k: Connection)
    requires Inv(p) && p.open == map[]
    ensures p.active == 0 && Count(p.users, u) == 0 && Count(p.connections, k) == 0
  {
    assert OfUser(p.open, u) == {} && OfConnection(p.open, k) == {};
  }

  /** The counters after any events: their sums, and the admissions behind them. */
  lemma CountersAreAdmissions(total: int, perUser: int, events: seq<Event>, u: User, k: Connection)
    ensures var p := Run(NewPool(total, perUser), events);
      && p.active == |p.open| == Total(p.users) == Total(p.connections)
      && Count(p.users, u) == |OfUser(p.open, u)| && Count(p.connections, k) == |OfConnection(p.open, k)|
  {
    hide Run, PlacesOk, NobodyMissed;
    NewPoolIsOk(total, perUser);
    RunKeepsInv(NewPool(total, perUser), events);
  }

  // ----- Bounds

  /** Call `id` is admitted by the step. */
  ghost predicate Admits(p: Pool, e: Event, id: CallId) { id !in p.open && id in Step(p, e).open }

  /** No admission goes past a limit in force at that moment, however many calls an older, higher limit let in. */
  lemma AdmissionRespectsLimits(p: Pool, e: Event, id: CallId)
    requires Admits(p, e, id)
    ensures var q := Step(p, e); var a := q.open[id];
      q.active <= q.total && Count(q.users, a.user) <= q.perUser
        && Count(q.connections, a.connection) <= CapacityOf(q.limits, a.connection)
  {
  }

  lemma {:induction false} RevisionsRise(limits: map<Connection, Limit>, channels: seq<Channel>, n: nat, k: Connection)
    requires n <= |channels|
    ensures RevisionOf(WithLimits(limits, channels, n), k) >= RevisionOf(limits, k)
    ensures k in limits ==> k in WithLimits(limits, channels, n)
    ensures k in limits && RevisionOf(WithLimits(limits, channels, n), k) == RevisionOf(limits, k)
      ==> WithLimits(limits, channels, n)[k] == limits[k] || exists j ::
        0 <= j < n && channels[j].connection == k && channels[j].revision == limits[k].revision
  {
    if n > 0 {
      RevisionsRise(limits, channels, n - 1, k);
    }
  }

  /** Channel `j` is what the first `n` channels say last and latest about its connection. */
  ghost predicate IsLatest(limits: map<Connection, Limit>, channels: seq<Channel>, n: nat, j: nat) {
    && j < n <= |channels| && channels[j].revision >= RevisionOf(limits, channels[j].connection)
    && (forall i :: 0 <= i < n && channels[i].connection == channels[j].connection ==>
         channels[i].revision < channels[j].revision || (channels[i].revision == channels[j].revision && i <= j))
  }

  /** A revision known after `n` channels was known before or came with one of them. */
  lemma {:induction false} RevisionIsKnown(limits: map<Connection, Limit>, channels: seq<Channel>, n: nat,
      k: Connection)
    requires n <= |channels|
    ensures RevisionOf(WithLimits(limits, channels, n), k) == RevisionOf(limits, k)
         || exists i :: 0 <= i < n && channels[i].connection == k &&
              channels[i].revision == RevisionOf(WithLimits(limits, channels, n), k)
  {
    if n > 0 {
      RevisionIsKnown(limits, channels, n - 1, k);
    }
  }

  /** The limits a caller leaves hold the latest word on each of its connections, ... */
  lemma {:induction false} LimitsAreLatest(limits: map<Connection, Limit>, channels: seq<Channel>, n: nat, j: nat)
    requires IsLatest(limits, channels, n, j)
    ensures var k := channels[j].connection;
      k in WithLimits(limits, channels, n)
        && WithLimits(limits, channels, n)[k] == Limit(channels[j].revision, channels[j].capacity)
  {
    if j == n - 1 {
      RevisionIsKnown(limits, channels, n - 1, channels[j].connection);
    } else {
      LimitsAreLatest(limits, channels, n - 1, j);
    }
  }

  /** ... and leave a connection alone on which they have nothing as late as what is known. */
  lemma {:induction false} OldNewsIsIgnored(limits: map<Connection, Limit>, channels: seq<Channel>, n: nat,
      k: Connection)
    requires n <= |channels|
    requires forall i :: 0 <= i < n && channels[i].connection == k ==> channels[i].revision < RevisionOf(limits, k)
    ensures k in WithLimits(limits, channels, n) <==> k in limits
    ensures k in limits ==> WithLimits(limits, channels, n)[k] == limits[k]
  {
    if n > 0 {
      OldNewsIsIgnored(limits, channels, n - 1, k);
    }
  }

  lemma StepRaisesRevisions(p: Pool, e: Event, k: Connection)
    ensures RevisionOf(Step(p, e).limits, k) >= RevisionOf(p.limits, k)
  {
    if e.DoEnter? { RevisionsRise(p.limits, e.call.channels, |e.call.channels|, k); }
    hide WithLimits, Load, Precedes, Admissible, RevisionOf;
  }

  /** The revision stored for a connection never decreases. */
  lemma {:induction false} RevisionsNeverFall(p: Pool, events: seq<Event>, k: Connection)
    ensures RevisionOf(Run(p, events).limits, k) >= RevisionOf(p.limits, k)
  {
    hide Step;
    if events != [] {
      RevisionsNeverFall(p, events[..|events| - 1], k);
      StepRaisesRevisions(Run(p, events[..|events| - 1]), events[|events| - 1], k);
    }
  }
}
