/** Credit accounts, reservations and the append-only ledger. Money is counted in units of 0.00000001 USD. */
module Ledger {
  import opened Options

  type UserId = nat
  type JobId = nat
  type Money = int

  /** What a hold pays for; only text and image calls are linked to a metered request. */
  datatype Kind = TextModel | ImageModel | Other(name: string)
  datatype Reference = Reference(kind: Kind, id: string, attempt: int)
  datatype Status = Active | Settled | Overrun | Released

  datatype Reservation = Reservation(user: UserId, job: Option<JobId>, reference: Reference, amount: Money,
    settled: Money, status: Status)

  /** Idempotency keys of ledger rows. */
  datatype Key =
    | ReserveKey(reference: Reference)
    | SettleKey(reservation: nat)
    | ReleaseKey(reservation: nat)
    | AdminKey(key: string)

  datatype Row = Row(user: UserId, key: Key, balanceDelta: Money, reservedDelta: Money, balanceAfter: Money,
    reservedAfter: Money)

  datatype Account = Account(balance: Money, reserved: Money, credited: Money, debited: Money)

  const ZERO_ACCOUNT := Account(0, 0, 0, 0)

  datatype RequestStatus = InFlight | Succeeded | Failed
  datatype Request = Request(kind: Kind, id: string)

  /** The tables; a reservation's id is its position, which is also its creation order. */
  datatype Books = Books(
    users: set<UserId>, accounts: map<UserId, Account>, reservations: seq<Reservation>, ledger: seq<Row>,
    ended: set<JobId>, requests: map<Request, RequestStatus>)

  const EMPTY_BOOKS := Books({}, map[], [], [], {}, map[])

  datatype Reply = Found(reservation: nat) | Posted | Nothing | Invalid | NotFound | Insufficient | Conflict

  function Max(a: int, b: int): int { if a < b then b else a }

  function AccountOf(b: Books, u: UserId): Account { if u in b.accounts then b.accounts[u] else ZERO_ACCOUNT }

  function Available(a: Account): Money { a.balance - a.reserved }

  predicate HasKey(ledger: seq<Row>, key: Key) { exists i :: 0 <= i < |ledger| && ledger[i].key == key }

  /** _append: a row already written under the key is returned instead of a new one. */
  function Append(b: Books, u: UserId, key: Key, balanceDelta: Money, reservedDelta: Money): Books {
    if HasKey(b.ledger, key) then b
    else
      var a := AccountOf(b, u);
      b.(ledger := b.ledger + [Row(u, key, balanceDelta, reservedDelta, a.balance, a.reserved)])
  }

  // ----- Releasing

  /** The body of release, shared with the sweep. */
  function ReleaseHold(b: Books, i: nat): Books
    requires i < |b.reservations|
  {
    var r := b.reservations[i];
    var a := AccountOf(b, r.user);
    var c := b.(accounts := b.accounts[r.user := a.(reserved := Max(0, a.reserved - r.amount))],
                reservations := b.reservations[i := r.(status := Released)]);
    if r.amount > 0 then Append(c, r.user, ReleaseKey(i), 0, -r.amount) else c
  }

  /** _linked_request: the metered request a hold protects, if its row exists. */
  function Linked(b: Books, r: Reservation): Option<Request> {
    var q := Request(r.reference.kind, r.reference.id);
    if !r.reference.kind.Other? && q in b.requests then Some(q) else None
  }

  /** Active holds of the user whose job has ended. */
  predicate Selected(b: Books, u: UserId, i: nat)
    requires i < |b.reservations|
  {
    var r := b.reservations[i];
    r.user == u && r.status == Active && r.job.Some? && r.job.value in b.ended
  }

  predicate Metered(b: Books, r: Reservation) { Linked(b, r).Some? && b.requests[Linked(b, r).value] == Succeeded }

  function FailRunning(b: Books, r: Reservation): Books {
    if Linked(b, r).Some? && b.requests[Linked(b, r).value] == InFlight
    then b.(requests := b.requests[Linked(b, r).value := Failed]) else b
  }

  /** The sweep's treatment of one selected hold. */
  function SweepHold(b: Books, i: nat): Books
    requires i < |b.reservations|
  {
    if Metered(b, b.reservations[i]) then b else ReleaseHold(FailRunning(b, b.reservations[i]), i)
  }

  /** _release_terminal_job_holds over the first `n` reservations. */
  function SweepTo(b: Books, u: UserId, n: nat): (c: Books)
    requires n <= |b.reservations|
    ensures |c.reservations| == |b.reservations|
  {
    if n == 0 then b
    else
      var c := SweepTo(b, u, n - 1);
      if Selected(c, u, n - 1) then SweepHold(c, n - 1) else c
  }

  function Sweep(b: Books, u: UserId): Books { SweepTo(b, u, |b.reservations|) }

  // ----- Operations

  function Normalized(r: Reference): Reference { r.(attempt := Max(1, r.attempt)) }

  predicate IsReference(rs: seq<Reservation>, reference: Reference, i: nat) { i < |rs| && rs[i].reference == reference }

  /** The reservation under a reference, found from the front. */
  function FindFrom(rs: seq<Reservation>, reference: Reference, i: nat): (r: Option<nat>)
    requires i <= |rs|
    ensures r.Some? ==> IsReference(rs, reference, r.value)
    ensures r.None? ==> forall k: nat :: i <= k ==> !IsReference(rs, reference, k)
    decreases |rs| - i
  {
    if i == |rs| then None else if rs[i].reference == reference then Some(i) else FindFrom(rs, reference, i + 1)
  }

  function Find(rs: seq<Reservation>, reference: Reference): (r: Option<nat>)
    ensures r.Some? ==> IsReference(rs, reference, r.value)
    ensures r.None? ==> forall k: nat :: !IsReference(rs, reference, k)
  {
    FindFrom(rs, reference, 0)
  }

  function WithAccount(b: Books, u: UserId): Books { b.(accounts := b.accounts[u := AccountOf(b, u)]) }

  /** account_summary: sweeps and commits. */
  function Summary(b: Books, u: UserId): (Books, Reply) {
    if u !in b.accounts && u !in b.users then (b, NotFound) else (Sweep(WithAccount(b, u), u), Posted)
  }

  /** A new hold on top of swept books. */
  function Hold(b: Books, u: UserId, amount: Money, reference: Reference, job: Option<JobId>): Books {
    var a := AccountOf(b, u);
    var c := b.(reservations := b.reservations + [Reservation(u, job, reference, amount, 0, Active)],
                accounts := b.accounts[u := a.(reserved := a.reserved + amount)]);
    if amount > 0 then Append(c, u, ReserveKey(reference), 0, amount) else c
  }

  function Reserve(b: Books, u: UserId, amount: Money, requested: Reference, job: Option<JobId>): (Books, Reply) {
    var reference := Normalized(requested);
    if amount < 0 || reference.kind == Other("") || reference.id == "" then (b, Invalid)
    else
      var existing := Find(b.reservations, reference);
      if existing.Some? then (b, Found(existing.value))
      else if u !in b.accounts && u !in b.users then (b, NotFound)
      else
        var swept := Sweep(WithAccount(b, u), u);
        // Raising rolls the sweep back with everything else.
        if Available(AccountOf(swept, u)) < amount then (b, Insufficient)
        else (Hold(swept, u, amount, reference, job), Found(|b.reservations|))
  }

  /** The body of settle for an active hold. */
  function Charge(b: Books, i: nat, actual: Money): Books
    requires i < |b.reservations|
  {
    var r := b.reservations[i];
    var a := AccountOf(b, r.user);
    var c := b.(
      accounts := b.accounts[r.user :=
        a.(reserved := Max(0, a.reserved - r.amount), balance := a.balance - actual, debited := a.debited + actual)],
      reservations :=
        b.reservations[i := r.(settled := actual, status := if actual > r.amount then Overrun else Settled)]);
    if r.amount > 0 || actual > 0 then Append(c, r.user, SettleKey(i), -actual, -r.amount) else c
  }

  function Settle(b: Books, i: nat, actual: Money): (Books, Reply) {
    if actual < 0 then (b, Invalid)
    else if i >= |b.reservations| then (b, NotFound)
    else match b.reservations[i].status
      case Settled => (b, Found(i))
      case Overrun => (b, Found(i))
      case Released => (b, Conflict)
      case Active => (Charge(b, i, actual), Found(i))
  }

  function SettleReference(b: Books, requested: Reference, actual: Money): (Books, Reply) {
    var found := Find(b.reservations, Normalized(requested));
    if found.None? then (b, Nothing) else Settle(b, found.value, actual)
  }

  function Release(b: Books, i: nat): (Books, Reply) {
    if i >= |b.reservations| then (b, NotFound)
    else if b.reservations[i].status != Active then (b, Found(i))
    else (ReleaseHold(b, i), Found(i))
  }

  function RowFrom(ledger: seq<Row>, key: Key, i: nat): (r: Option<nat>)
    requires i <= |ledger|
    ensures r.Some? ==> r.value < |ledger| && ledger[r.value].key == key
    ensures r.None? ==> forall k :: i <= k < |ledger| ==> ledger[k].key != key
    decreases |ledger| - i
  {
    if i == |ledger| then None else if ledger[i].key == key then Some(i) else RowFrom(ledger, key, i + 1)
  }

  /** An accepted admin adjustment. */
  function Credit(b: Books, u: UserId, amount: Money, key: Key): Books {
    var a := AccountOf(b, u);
    var c := b.(accounts := b.accounts[u := a.(
      balance := a.balance + amount,
      credited := if amount > 0 then a.credited + amount else a.credited,
      debited := if amount > 0 then a.debited else a.debited + -amount)]);
    Append(c, u, key, amount, 0)
  }

  function Adjust(b: Books, u: UserId, amount: Money, reason: string, key: string): (Books, Reply) {
    if amount == 0 || reason == "" || key == "" then (b, Invalid)
    else
      var existing := RowFrom(b.ledger, AdminKey(key), 0);
      if existing.Some? then
        var row := b.ledger[existing.value];
        (b, if row.user != u || row.balanceDelta != amount then Conflict else Posted)
      else if u !in b.accounts && u !in b.users then (b, NotFound)
      else if amount < 0 && Available(AccountOf(b, u)) + amount < 0 then (b, Insufficient)
      else (Credit(b, u, amount, AdminKey(key)), Posted)
  }

  // ----- The gateway around the books

  /** _begin_request: a succeeded or running request is joined, any other one runs again. */
  function BeginText(b: Books, id: string): Books {
    var q := Request(TextModel, id);
    if q in b.requests && b.requests[q] != Failed then b else b.(requests := b.requests[q := InFlight])
  }

  /** _begin_image_request: a succeeded request whose cached picture is gone runs again. */
  function BeginImage(b: Books, id: string, cached: bool): Books {
    var q := Request(ImageModel, id);
    if q in b.requests && (b.requests[q] == InFlight || (b.requests[q] == Succeeded && cached)) then b
    else b.(requests := b.requests[q := InFlight])
  }

  /** _finish_request and _finish_image_request. */
  function Finish(b: Books, q: Request, ok: bool): Books {
    if q in b.requests then b.(requests := b.requests[q := if ok then Succeeded else Failed]) else b
  }

  datatype Op =
    | DoSummary(user: UserId)
    | DoReserve(user: UserId, amount: Money, reference: Reference, job: Option<JobId>)
    | DoSettle(reservation: nat, actual: Money)
    | DoSettleReference(reference: Reference, actual: Money)
    | DoRelease(reservation: nat)
    | DoAdjust(user: UserId, amount: Money, reason: string, key: string)
    | DoRegister(user: UserId)
    | DoEndJob(ending: JobId)
    | DoBeginText(id: string)
    | DoBeginImage(id: string, cached: bool)
    | DoFinish(request: Request, ok: bool)

  function Step(b: Books, op: Op): Books {
    match op
    case DoSummary(u) => Summary(b, u).0
    case DoReserve(u, amount, reference, job) => Reserve(b, u, amount, reference, job).0
    case DoSettle(i, actual) => Settle(b, i, actual).0
    case DoSettleReference(reference, actual) => SettleReference(b, reference, actual).0
    case DoRelease(i) => Release(b, i).0
    case DoAdjust(u, amount, reason, key) => Adjust(b, u, amount, reason, key).0
    case DoRegister(u) => b.(users := b.users + {u})
    case DoEndJob(j) => b.(ended := b.ended + {j})
    case DoBeginText(id) => BeginText(b, id)
    case DoBeginImage(id, cached) => BeginImage(b, id, cached)
    case DoFinish(q, ok) => Finish(b, q, ok)
  }

  function Run(b: Books, ops: seq<Op>): Books {
    if ops == [] then b else Step(Run(b, ops[..|ops| - 1]), ops[|ops| - 1])
  }
}
