/** TextChannelPool as a monitor: every stretch of code between two waits is one step. */
module Pool {
  import opened Options

  type User = nat
  type Connection = nat
  type CallId = nat

  datatype Channel = Channel(connection: Connection, revision: nat, capacity: int)
  datatype Limit = Limit(revision: nat, capacity: int)

  /** A caller of admit: who, and which channels will do. */
  datatype Call = Call(user: User, channels: seq<Channel>)
  datatype Admission = Admission(user: User, connection: Connection)

  /** The fields of the pool, the waiters of its condition (asleep, or woken and about to look again), and the
      admissions not yet released. */
  datatype Pool = Pool(
    total: int, perUser: int, active: int, users: map<User, int>, connections: map<Connection, int>,
    lastUsed: map<Connection, int>, limits: map<Connection, Limit>, sequence: int,
    sleeping: map<CallId, Call>, woken: map<CallId, Call>, open: map<CallId, Admission>)

  function Count<K>(m: map<K, int>, k: K): int { if k in m then m[k] else 0 }

  function NewPool(total: int, perUser: int): Pool {
    Pool(total, perUser, 0, map[], map[], map[], map[], 0, map[], map[], map[])
  }

  /** condition.notify_all. */
  function NotifyAll(p: Pool): Pool { p.(woken := p.woken + p.sleeping, sleeping := map[]) }

  function Configure(p: Pool, total: int, perUser: int): Pool { NotifyAll(p.(total := total, perUser := perUser)) }

  // ----- Limits

  function CapacityOf(limits: map<Connection, Limit>, k: Connection): int {
    if k in limits then limits[k].capacity else 0
  }
  function RevisionOf(limits: map<Connection, Limit>, k: Connection): nat {
    if k in limits then limits[k].revision else 0
  }

  /** A channel's capacity counts unless a later revision of its connection is already known. */
  function WithLimit(limits: map<Connection, Limit>, c: Channel): map<Connection, Limit> {
    if c.revision >= RevisionOf(limits, c.connection)
    then limits[c.connection := Limit(c.revision, c.capacity)] else limits
  }

  function WithLimits(limits: map<Connection, Limit>, channels: seq<Channel>, n: nat): map<Connection, Limit>
    requires n <= |channels|
  {
    if n == 0 then limits else WithLimit(WithLimits(limits, channels, n - 1), channels[n - 1])
  }

  // ----- Selection

  predicate HasRoom(p: Pool, c: Channel) { Count(p.connections, c.connection) < CapacityOf(p.limits, c.connection) }

  /** The load ratio; meaningful for channels with room, whose capacity is positive. */
  function Load(p: Pool, c: Channel): real {
    if CapacityOf(p.limits, c.connection) > 0
    then Count(p.connections, c.connection) as real / CapacityOf(p.limits, c.connection) as real
    else 0.0
  }

  /** The sort key of min: lower load first, then longer unused. */
  predicate Precedes(p: Pool, c: Channel, d: Channel) {
    || Load(p, c) < Load(p, d)
    || (Load(p, c) == Load(p, d) && Count(p.lastUsed, c.connection) < Count(p.lastUsed, d.connection))
  }

  /** min over the first `n` channels with room: the first channel that no other one precedes. */
  function Chosen(p: Pool, channels: seq<Channel>, n: nat): (r: Option<nat>)
    requires n <= |channels|
    ensures r.Some? ==> r.value < n && HasRoom(p, channels[r.value])
    ensures r.None? ==> forall k :: 0 <= k < n ==> !HasRoom(p, channels[k])
  {
    if n == 0 then None
    else
      var r := Chosen(p, channels, n - 1);
      var c := channels[n - 1];
      if HasRoom(p, c) && (r.None? || Precedes(p, c, channels[r.value])) then Some(n - 1) else r
  }

  /** The condition admit waits for. */
  predicate Admissible(p: Pool, call: Call) {
    && p.active < p.total && Count(p.users, call.user) < p.perUser
    && exists k :: 0 <= k < |call.channels| && HasRoom(p, call.channels[k])
  }

  // ----- Steps

  /** Count an admission to connection `key`. */
  function Taken(p: Pool, id: CallId, user: User, key: Connection): Pool {
    p.(active := p.active + 1,
       users := p.users[user := Count(p.users, user) + 1],
       connections := p.connections[key := Count(p.connections, key) + 1],
       sequence := p.sequence + 1,
       lastUsed := p.lastUsed[key := p.sequence + 1],
       open := p.open[id := Admission(user, key)])
  }

  function Admit(p: Pool, id: CallId, call: Call): Pool
    requires Chosen(p, call.channels, |call.channels|).Some?
  {
    Taken(p, id, call.user, call.channels[Chosen(p, call.channels, |call.channels|).value].connection)
  }

  /** One turn of the wait loop: admitted, or asleep. */
  function Try(p: Pool, id: CallId, call: Call): Pool {
    if p.active < p.total && Count(p.users, call.user) < p.perUser && Chosen(p, call.channels, |call.channels|).Some?
    then Admit(p, id, call)
    else p.(sleeping := p.sleeping[id := call])
  }

  predicate Fresh(p: Pool, id: CallId) { id !in p.sleeping && id !in p.woken && id !in p.open }

  /** The head of admit up to its first wait; an empty channel list raises. */
  function Enter(p: Pool, id: CallId, call: Call): Pool {
    if call.channels == [] || !Fresh(p, id) then p
    else Try(NotifyAll(p.(limits := WithLimits(p.limits, call.channels, |call.channels|))), id, call)
  }

  /** A woken waiter gets the lock back. */
  function Resume(p: Pool, id: CallId): Pool {
    if id in p.woken then Try(p.(woken := p.woken - {id}), id, p.woken[id]) else p
  }

  /** A waiter is cancelled. */
  function Cancel(p: Pool, id: CallId): Pool { p.(sleeping := p.sleeping - {id}, woken := p.woken - {id}) }

  /** The final clause of admit. */
  function Leave(p: Pool, id: CallId): Pool {
    if id !in p.open then p
    else
      var a := p.open[id];
      var left := Count(p.users, a.user) - 1;
      NotifyAll(p.(active := p.active - 1,
                   users := if left == 0 then p.users - {a.user} else p.users[a.user := left],
                   connections := p.connections[a.connection := Count(p.connections, a.connection) - 1],
                   open := p.open - {id}))
  }

  datatype Event =
    | DoConfigure(total: int, perUser: int)
    | DoEnter(id: CallId, call: Call)
    | DoResume(id: CallId)
    | DoCancel(id: CallId)
    | DoLeave(id: CallId)

  function Step(p: Pool, e: Event): Pool {
    match e
    case DoConfigure(total, perUser) => Configure(p, total, perUser)
    case DoEnter(id, call) => Enter(p, id, call)
    case DoResume(id) => Resume(p, id)
    case DoCancel(id) => Cancel(p, id)
    case DoLeave(id) => Leave(p, id)
  }

  function Run(p: Pool, events: seq<Event>): Pool {
    if events == [] then p else Step(Run(p, events[..|events| - 1]), events[|events| - 1])
  }
}
