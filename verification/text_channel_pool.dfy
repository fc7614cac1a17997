/** The pool as an object whose methods are the stretches between waits, proved against the steps of Pool. */
module TextChannels {
  import opened Options
  import P = Pool
  import PoolLaws

  class TextChannelPool {
    var total: int
    var perUser: int
    var active: int
    var users: map<P.User, int>
    var connections: map<P.Connection, int>
    var lastUsed: map<P.Connection, int>
    var limits: map<P.Connection, P.Limit>
    var sequence: int
    // the waiters of the condition, and the channels handed out
    var sleeping: map<P.CallId, P.Call>
    var woken: map<P.CallId, P.Call>
    var open: map<P.CallId, P.Admission>

    function Model(): P.Pool
      reads this
    {
      P.Pool(total, perUser, active, users, connections, lastUsed, limits, sequence, sleeping, woken, open)
    }

    constructor (total: int, perUser: int)
      ensures Model() == P.NewPool(total, perUser) && PoolLaws.Inv(Model())
      ensures this.total == total && this.perUser == perUser
    {
      this.total, this.perUser, active, sequence := total, perUser, 0, 0;
      users, connections, lastUsed, limits := map[], map[], map[], map[];
      sleeping, woken, open := map[], map[], map[];
      new;
      PoolLaws.NewPoolIsOk(total, perUser);
    }

    method NotifyAll()
      modifies this`sleeping, this`woken
      ensures Model() == P.NotifyAll(old(Model()))
    {
      woken := woken + sleeping;
      sleeping := map[];
    }

    method Configure(total: int, perUser: int)
      modifies this
      ensures Model() == P.Configure(old(Model()), total, perUser)
      ensures this.total == total && this.perUser == perUser && sleeping == map[]
    {
      this.total, this.perUser := total, perUser;
      NotifyAll();
    }

    /** Take over the capacities the caller's channels carry, unless a later revision is known. */
    method LearnLimits(channels: seq<P.Channel>)
      modifies this`limits
      ensures limits == P.WithLimits(old(limits), channels, |channels|)
    {
      for n := 0 to |channels|
        invariant limits == P.WithLimits(old(limits), channels, n)
      {
        var c := channels[n];
        var known := if c.connection in limits then limits[c.connection].revision else 0;
        if c.revision >= known {
          limits := limits[c.connection := P.Limit(c.revision, c.capacity)];
        }
      }
    }

    /** The channel with room that carries the least load, the longest unused among equals, the first among those. */
    method Select(channels: seq<P.Channel>) returns (best: Option<nat>)
      ensures best == P.Chosen(Model(), channels, |channels|)
      ensures best.None? <==> forall k :: 0 <= k < |channels| ==> !P.HasRoom(Model(), channels[k])
      ensures best.Some? ==>
        && best.value < |channels| && P.HasRoom(Model(), channels[best.value])
        && (forall k :: 0 <= k < |channels| && P.HasRoom(Model(), channels[k]) ==>
             !P.Precedes(Model(), channels[k], channels[best.value]))
        && (forall k :: 0 <= k < best.value && P.HasRoom(Model(), channels[k]) ==>
             P.Precedes(Model(), channels[best.value], channels[k]))
    {
      best := None;
      var load, used := 0.0, 0;
      for n := 0 to |channels|
        invariant best == P.Chosen(Model(), channels, n)
        invariant best.Some? ==>
          load == P.Load(Model(), channels[best.value]) && used == P.Count(lastUsed, channels[best.value].connection)
      {
        var key := channels[n].connection;
        var busy := if key in connections then connections[key] else 0;
        var capacity := if key in limits then limits[key].capacity else 0;
        if busy < capacity {
          var ratio := if capacity > 0 then busy as real / capacity as real else 0.0;
          var last := if key in lastUsed then lastUsed[key] else 0;
          if best.None? || ratio < load || (ratio == load && last < used) {
            best, load, used := Some(n), ratio, last;
          }
        }
      }
      if best.Some? {
        PoolLaws.ChosenIsLeast(Model(), channels, |channels|);
      }
    }

    /** Count an admission. */
    method Take(id: P.CallId, user: P.User, key: P.Connection)
      modifies this`active, this`users, this`connections, this`sequence, this`lastUsed, this`open
      ensures Model() == P.Taken(old(Model()), id, user, key)
    {
      ghost var p := Model();
      hide P.Taken, P.Count;
      active := active + 1;
      users := users[user := P.Count(users, user) + 1];
      connections := connections[key := P.Count(connections, key) + 1];
      sequence := sequence + 1;
      lastUsed := lastUsed[key := sequence];
      open := open[id := P.Admission(user, key)];
      IsTaken(p, Model(), id, user, key);
    }

    lemma IsTaken(p: P.Pool, q: P.Pool, id: P.CallId, user: P.User, key: P.Connection)
      requires q.total == p.total && q.perUser == p.perUser && q.limits == p.limits
      requires q.sleeping == p.sleeping && q.woken == p.woken && q.open == p.open[id := P.Admission(user, key)]
      requires q.active == p.active + 1 && q.users == p.users[user := P.Count(p.users, user) + 1]
      requires q.connections == p.connections[key := P.Count(p.connections, key) + 1]
      requires q.sequence == p.sequence + 1 && q.lastUsed == p.lastUsed[key := q.sequence]
      ensures q == P.Taken(p, id, user, key)
    {
    }

    lemma TakenIsOpen(p: P.Pool, id: P.CallId, user: P.User)
      ensures forall key :: id in P.Taken(p, id, user, key).open
    {
    }

    /** One turn of the wait loop: take a channel, or go to sleep. */
    method Try(id: P.CallId, call: P.Call) returns (admitted: bool)
      requires id !in open
      modifies this
      ensures Model() == P.Try(old(Model()), id, call)
      ensures admitted == (id in open) == old(P.Admissible(Model(), call))
      ensures !admitted ==> id in sleeping && sleeping[id] == call
    {
      hide P.Chosen, P.Admissible, P.HasRoom, P.Precedes, P.Taken;
      PoolLaws.TryIsAdmissible(Model(), call);
      TakenIsOpen(Model(), id, call.user);
      var best := Select(call.channels);
      var mine := P.Count(users, call.user);
      admitted := active < total && mine < perUser && best.Some?;
      if admitted {
        Take(id, call.user, call.channels[best.value].connection);
      } else {
        sleeping := sleeping[id := call];
      }
    }

    /** The head of admit; an empty channel list is refused without touching the pool. */
    method Enter(id: P.CallId, call: P.Call) returns (accepted: bool)
      requires PoolLaws.Inv(Model()) && P.Fresh(Model(), id)
      modifies this
      ensures Model() == P.Enter(old(Model()), id, call) && PoolLaws.Inv(Model())
      ensures accepted == (call.channels != [])
      ensures accepted ==> id in open || id in sleeping
    {
      hide PoolLaws.Inv, P.WithLimits, P.Try, P.Admissible;
      PoolLaws.EnterKeepsInv(Model(), id, call);
      accepted := call.channels != [];
      if accepted {
        LearnLimits(call.channels);
        NotifyAll();
        var admitted := Try(id, call);
      }
    }

    method Resume(id: P.CallId) returns (admitted: bool)
      requires PoolLaws.Inv(Model()) && id in woken
      modifies this
      ensures Model() == P.Resume(old(Model()), id) && PoolLaws.Inv(Model())
      ensures admitted == (id in open) == old(P.Admissible(Model(), woken[id]))
      ensures !admitted ==> id in sleeping && sleeping[id] == old(woken[id])
    {
      hide PoolLaws.Inv, P.Try, P.Admissible;
      PoolLaws.ResumeKeepsInv(Model(), id);
      NotOpen(id);
      var call := woken[id];
      ghost var p := Model();
      woken := woken - {id};
      WokenDoesNotMatter(p, woken, call);
      admitted := Try(id, call);
    }

    lemma WokenDoesNotMatter(p: P.Pool, woken: map<P.CallId, P.Call>, call: P.Call)
      ensures P.Admissible(p.(woken := woken), call) <==> P.Admissible(p, call)
    {
    }

    method Cancel(id: P.CallId)
      requires PoolLaws.Inv(Model())
      modifies this
      ensures Model() == P.Cancel(old(Model()), id) && PoolLaws.Inv(Model())
    {
      PoolLaws.CancelKeepsInv(Model(), id);
      sleeping, woken := sleeping - {id}, woken - {id};
    }

    lemma NotOpen(id: P.CallId)
      requires PoolLaws.Inv(Model()) && id in woken
      ensures id !in open
    {
    }

    /** Stop counting an admission; a user without calls is forgotten. */
    method GiveBack(id: P.CallId)
      requires id in open && open[id].user in users && open[id].connection in connections
      modifies this
      ensures Model() == old(Model()).(
        active := old(active) - 1,
        users := if old(users[open[id].user]) == 1 then old(users) - {old(open[id].user)}
                 else old(users)[old(open[id].user) := old(users[open[id].user]) - 1],
        connections := old(connections)[old(open[id].connection) := old(connections[open[id].connection]) - 1],
        open := old(open) - {id})
    {
      var a := open[id];
      active := active - 1;
      users := users[a.user := users[a.user] - 1];
      if users[a.user] == 0 {
        users := users - {a.user};
        assert users == old(users) - {a.user};
      }
      connections := connections[a.connection := connections[a.connection] - 1];
      open := open - {id};
    }

    /** The final clause of admit: give the channel back and wake everybody. */
    method Leave(id: P.CallId)
      requires PoolLaws.Inv(Model()) && id in open
      modifies this
      ensures Model() == P.Leave(old(Model()), id) && PoolLaws.Inv(Model())
    {
      hide PoolLaws.Inv;
      PoolLaws.LeaveKeepsInv(Model(), id);
      LeaveFinds(id);
      GiveBack(id);
      NotifyAll();
    }

    /** An open admission is counted, so its counters can be taken down. */
    lemma LeaveFinds(id: P.CallId)
      requires PoolLaws.Inv(Model()) && id in open
      ensures open[id].user in users && open[id].connection in connections
    {
      assert id in PoolLaws.OfUser(open, open[id].user) && id in PoolLaws.OfConnection(open, open[id].connection);
      assert P.Count(users, open[id].user) > 0 && P.Count(connections, open[id].connection) > 0;
    }
  }
}
