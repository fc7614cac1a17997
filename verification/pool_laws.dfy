/** What every interleaving of callers keeps of the pool. */
module PoolLaws {
  import opened Options
  import opened Pool

  // ----- Sums over counters

  ghost function Total<K>(m: map<K, int>): int
    decreases |m|
  {
    if m == map[] then 0
    else
      var k :| k in m;
      m[k] + Total(m - {k})
  }

  lemma {:induction false} TotalSplit<K>(m: map<K, int>, k: K)
    requires k in m
    ensures Total(m) == m[k] + Total(m - {k})
    decreases |m|
  {
    var j :| j in m && Total(m) == m[j] + Total(m - {j});
    if j != k {
      TotalSplit(m - {j}, k);
      TotalSplit(m - {k}, j);
      assert m - {j} - {k} == m - {k} - {j};
    }
  }

  lemma TotalUpdate<K>(m: map<K, int>, k: K, v: int)
    ensures Total(m[k := v]) == Total(m) - Count(m, k) + v
    ensures Total(m - {k}) == Total(m) - Count(m, k)
  {
    TotalSplit(m[k := v], k);
    assert m[k := v] - {k} == m - {k};
    if k in m {
      TotalSplit(m, k);
    } else {
      assert m - {k} == m;
    }
  }

  // ----- The invariant

  ghost function OfUser(open: map<CallId, Admission>, u: User): set<CallId> { set a | a in open && open[a].user == u }

  ghost function OfConnection(open: map<CallId, Admission>, k: Connection): set<CallId> {
    set a | a in open && open[a].connection == k
  }

  /** Every counter is the number of open admissions it counts; the user counter keeps no zeros. */
  ghost predicate CountsOk(p: Pool) {
    && p.active == |p.open|
    && (forall u :: Count(p.users, u) == |OfUser(p.open, u)|)
    && (forall k :: Count(p.connections, k) == |OfConnection(p.open, k)|)
    && (forall u :: u in p.users ==> p.users[u] > 0)
    && Total(p.users) == p.active && Total(p.connections) == p.active
  }

  /** No waiter sleeps through its chance. */
  ghost predicate NobodyMissed(p: Pool) { forall id :: id in p.sleeping ==> !Admissible(p, p.sleeping[id]) }

  /** A call is in one place only. */
  ghost predicate PlacesOk(p: Pool) { p.sleeping.Keys !! p.woken.Keys !! p.open.Keys }

  ghost predicate Inv(p: Pool) { CountsOk(p) && NobodyMissed(p) && PlacesOk(p) }

  // ----- Selection

  lemma {:induction false} ChosenIsLeast(p: Pool, channels: seq<Channel>, n: nat)
    requires n <= |channels| && Chosen(p, channels, n).Some?
    ensures var i := Chosen(p, channels, n).value;
      && (forall k :: 0 <= k < n && HasRoom(p, channels[k]) ==> !Precedes(p, channels[k], channels[i]))
      && (forall k :: 0 <= k < i && HasRoom(p, channels[k]) ==> Precedes(p, channels[i], channels[k]))
  {
    if Chosen(p, channels, n - 1).Some? {
      ChosenIsLeast(p, channels, n - 1);
    }
  }

  lemma TryIsAdmissible(p: Pool, call: Call)
    ensures Admissible(p, call) <==>
      p.active < p.total && Count(p.users, call.user) < p.perUser && Chosen(p, call.channels, |call.channels|).Some?
  {
  }

  // ----- Counting

  lemma UserAdds(open: map<CallId, Admission>, id: CallId, a: Admission, u: User)
    requires id !in open
    ensures |OfUser(open[id := a], u)| == |OfUser(open, u)| + if u == a.user then 1 else 0
  {
    if u == a.user {
      assert OfUser(open[id := a], u) == OfUser(open, u) + {id};
    } else {
      assert OfUser(open[id := a], u) == OfUser(open, u);
    }
  }

  lemma ConnectionAdds(open: map<CallId, Admission>, id: CallId, a: Admission, k: Connection)
    requires id !in open
    ensures |OfConnection(open[id := a], k)| == |OfConnection(open, k)| + if k == a.connection then 1 else 0
  {
    if k == a.connection {
      assert OfConnection(open[id := a], k) == OfConnection(open, k) + {id};
    } else {
      assert OfConnection(open[id := a], k) == OfConnection(open, k);
    }
  }

  /** The counters follow one admission more, in whichever direction time runs. */
  ghost predicate OneMore(p: Pool, q: Pool, id: CallId, a: Admission) {
    && id !in p.open && q.open == p.open[id := a]
    && q.active == p.active + 1
    && (forall u :: Count(q.users, u) == Count(p.users, u) + if u == a.user then 1 else 0)
    && (forall k :: Count(q.connections, k) == Count(p.connections, k) + if k == a.connection then 1 else 0)
  }

  lemma OpenSize(open: map<CallId, Admission>, id: CallId, a: Admission)
    requires id !in open
    ensures |open[id := a]| == |open| + 1
  {
  }

  /** Counters that are right on one side of an admission are right on the other. */
  lemma OneMoreCounts(p: Pool, q: Pool, id: CallId, a: Admission)
    requires OneMore(p, q, id, a)
    ensures p.active == |p.open| <==> q.active == |q.open|
    ensures (forall u :: Count(p.users, u) == |OfUser(p.open, u)|) <==>
      (forall u :: Count(q.users, u) == |OfUser(q.open, u)|)
    ensures (forall k :: Count(p.connections, k) == |OfConnection(p.open, k)|) <==>
      (forall k :: Count(q.connections, k) == |OfConnection(q.open, k)|)
  {
    OpenSize(p.open, id, a);
    forall u ensures Count(p.users, u) == |OfUser(p.open, u)| <==> Count(q.users, u) == |OfUser(q.open, u)| {
      UserAdds(p.open, id, a, u);
    }
    forall k
      ensures Count(p.connections, k) == |OfConnection(p.open, k)| <==>
        Count(q.connections, k) == |OfConnection(q.open, k)|
    {
      ConnectionAdds(p.open, id, a, k);
    }
  }

  lemma AdmitCounts(p: Pool, id: CallId, call: Call)
    requires CountsOk(p) && id !in p.open && Chosen(p, call.channels, |call.channels|).Some?
    ensures CountsOk(Admit(p, id, call))
  {
    hide Chosen, OfUser, OfConnection, Total;
    var q := Admit(p, id, call);
    var a := q.open[id];
    assert OneMore(p, q, id, a);
    OneMoreCounts(p, q, id, a);
    TotalUpdate(p.users, a.user, Count(p.users, a.user) + 1);
    TotalUpdate(p.connections, a.connection, Count(p.connections, a.connection) + 1);
    assert Count(p.users, a.user) >= 0;
  }

  lemma Restored(open: map<CallId, Admission>, id: CallId)
    requires id in open
    ensures open == (open - {id})[id := open[id]]
  {
  }

  /** Counting one less, with or without dropping a zero. */
  lemma CountLess<K>(m: map<K, int>, x: K, k: K)
    ensures Count(m[x := Count(m, x) - 1], k) == Count(m, k) - if k == x then 1 else 0
    ensures Count(m, x) == 1 ==> Count(m - {x}, k) == Count(m, k) - if k == x then 1 else 0
  {
  }

  lemma LeaveIsOneLess(p: Pool, id: CallId)
    requires id in p.open && p.active == |p.open|
    ensures OneMore(Leave(p, id), p, id, p.open[id])
  {
    var q, a := Leave(p, id), p.open[id];
    Restored(p.open, id);
    forall u ensures Count(p.users, u) == Count(q.users, u) + if u == a.user then 1 else 0 {
      CountLess(p.users, a.user, u);
    }
    forall k ensures Count(p.connections, k) == Count(q.connections, k) + if k == a.connection then 1 else 0 {
      CountLess(p.connections, a.connection, k);
    }
  }

  lemma LeaveTotals(p: Pool, id: CallId)
    requires id in p.open
    ensures Total(Leave(p, id).users) == Total(p.users) - 1
      && Total(Leave(p, id).connections) == Total(p.connections) - 1
  {
    var a := p.open[id];
    TotalUpdate(p.users, a.user, Count(p.users, a.user) - 1);
    TotalUpdate(p.connections, a.connection, Count(p.connections, a.connection) - 1);
  }

  lemma LeaveCounts(p: Pool, id: CallId)
    requires CountsOk(p) && id in p.open
    ensures CountsOk(Leave(p, id))
  {
    LeaveIsOneLess(p, id);
    LeaveTotals(p, id);
    OneMoreCounts(Leave(p, id), p, id, p.open[id]);
    LeaveKeepsPositive(p, id);
    hide Leave, OfUser, OfConnection, Total, OneMore;
    assert Leave(p, id).active == p.active - 1 by { LeaveActive(p, id); }
  }

  lemma LeaveActive(p: Pool, id: CallId)
    requires id in p.open
    ensures Leave(p, id).active == p.active - 1
  {
  }

  lemma LeaveKeepsPositive(p: Pool, id: CallId)
    requires CountsOk(p) && id in p.open
    ensures forall u :: u in Leave(p, id).users ==> Leave(p, id).users[u] > 0
  {
    var a := p.open[id];
    assert id in OfUser(p.open, a.user);
    assert Count(p.users, a.user) > 0;
    hide CountsOk;
  }

  // ----- Steps

  /** An admission only takes room away, so it wakes nobody's condition. */
  lemma AdmitMissesNobody(p: Pool, id: CallId, call: Call)
    requires NobodyMissed(p) && Chosen(p, call.channels, |call.channels|).Some?
    ensures NobodyMissed(Admit(p, id, call))
  {
  }

  lemma TryKeepsInv(p: Pool, id: CallId, call: Call)
    requires Inv(p) && Fresh(p, id)
    ensures Inv(Try(p, id, call))
  {
    TryIsAdmissible(p, call);
    if Admissible(p, call) {
      AdmitCounts(p, id, call);
      AdmitMissesNobody(p, id, call);
    } else {
      SameRoomMissesNobody(p, Try(p, id, call));
    }
  }

  ghost predicate SameRoom(p: Pool, q: Pool) {
    && q.total == p.total && q.perUser == p.perUser && q.active == p.active && q.users == p.users
    && q.connections == p.connections && q.limits == p.limits && q.open == p.open
  }

  lemma SameRoomMissesNobody(p: Pool, q: Pool)
    requires CountsOk(p) && NobodyMissed(p) && SameRoom(p, q)
    requires forall id :: id in q.sleeping ==>
      (id in p.sleeping && q.sleeping[id] == p.sleeping[id]) || !Admissible(p, q.sleeping[id])
    ensures CountsOk(q) && NobodyMissed(q)
  {
  }

  /** Waking everybody leaves nobody asleep to be missed. */
  lemma NotifyKeepsInv(p: Pool)
    requires CountsOk(p) && PlacesOk(p)
    ensures Inv(NotifyAll(p))
  {
  }

  lemma EnterKeepsInv(p: Pool, id: CallId, call: Call)
    requires Inv(p)
    ensures Inv(Enter(p, id, call))
  {
    hide CountsOk, NobodyMissed, Try;
    if call.channels != [] && Fresh(p, id) {
      var q := p.(limits := WithLimits(p.limits, call.channels, |call.channels|));
      CountsDoNotSee(p, q);
      NotifyKeepsInv(q);
      TryKeepsInv(NotifyAll(q), id, call);
    }
  }

  /** Limits, waiters and the clock of use play no part in the counting. */
  lemma CountsDoNotSee(p: Pool, q: Pool)
    requires CountsOk(p) && q.active == p.active && q.users == p.users && q.connections == p.connections
      && q.open == p.open
    ensures CountsOk(q)
  {
  }

  lemma ResumeKeepsInv(p: Pool, id: CallId)
    requires Inv(p)
    ensures Inv(Resume(p, id))
  {
    hide CountsOk, NobodyMissed, Try;
    if id in p.woken {
      var q := p.(woken := p.woken - {id});
      SameRoomMissesNobody(p, q);
      TryKeepsInv(q, id, p.woken[id]);
    }
  }

  lemma LeaveKeepsInv(p: Pool, id: CallId)
    requires Inv(p)
    ensures Inv(Leave(p, id))
  {
    if id in p.open {
      LeaveCounts(p, id);
      var q := Leave(p, id);
      hide CountsOk, NobodyMissed;
      assert q.sleeping == map[];
      assert NobodyMissed(q) by { NobodyAsleep(q); }
    }
  }

  lemma NobodyAsleep(p: Pool)
    requires p.sleeping == map[]
    ensures NobodyMissed(p)
  {
  }

  lemma ConfigureKeepsInv(p: Pool, total: int, perUser: int)
    requires Inv(p)
    ensures Inv(Configure(p, total, perUser))
  {
    hide CountsOk, NobodyMissed;
    CountsDoNotSee(p, p.(total := total, perUser := perUser));
    NotifyKeepsInv(p.(total := total, perUser := perUser));
  }

  lemma CancelKeepsPlaces(p: Pool, id: CallId)
    requires PlacesOk(p)
    ensures PlacesOk(Cancel(p, id))
  {
  }

  lemma CancelKeepsInv(p: Pool, id: CallId)
    requires Inv(p)
    ensures Inv(Cancel(p, id))
  {
    hide CountsOk, NobodyMissed, PlacesOk;
    CancelKeepsPlaces(p, id);
    SameRoomMissesNobody(p, Cancel(p, id));
  }

  lemma StepKeepsInv(p: Pool, e: Event)
    requires Inv(p)
    ensures Inv(Step(p, e))
  {
    hide Inv, Configure, Enter, Resume, Cancel, Leave;
    match e
    case DoConfigure(total, perUser) => ConfigureKeepsInv(p, total, perUser);
    case DoEnter(id, call) => EnterKeepsInv(p, id, call);
    case DoResume(id) => ResumeKeepsInv(p, id);
    case DoCancel(id) => CancelKeepsInv(p, id);
    case DoLeave(id) => LeaveKeepsInv(p, id);
  }

  lemma {:induction false} RunKeepsInv(p: Pool, events: seq<Event>)
    requires Inv(p)
    ensures Inv(Run(p, events))
  {
    hide Inv, Step;
    if events != [] {
      RunKeepsInv(p, events[..|events| - 1]);
      StepKeepsInv(Run(p, events[..|events| - 1]), events[|events| - 1]);
    }
  }

  lemma NewPoolIsOk(total: int, perUser: int)
    ensures Inv(NewPool(total, perUser))
  {
  }
}
