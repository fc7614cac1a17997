/** What each operation answers and moves, in the fields of the tables. */
module LedgerEffects {
  import opened Options
  import opened Sums
  import opened Ledger
  import opened LedgerLaws
  import opened LedgerTheorems

  // ----- Closing a hold

  /** `c` is `b` with reservation `i` as `r`, the account of its user as `a`, and the rows `added` to the ledger. */
  ghost predicate Becomes(b: Books, c: Books, i: nat, r: Reservation, a: Account, added: seq<Row>) {
    && i < |b.reservations| && c.reservations == b.reservations[i := r]
    && (forall v :: AccountOf(c, v) == if v == r.user then a else AccountOf(b, v))
    && c.ledger == b.ledger + added
    && c.users == b.users && c.ended == b.ended && c.requests == b.requests
  }

  /** Settling an active hold charges what the call cost, be it more or less than was held, and frees the whole hold. */
  lemma SettleIsExact(b: Books, i: nat, actual: Money)
    requires Inv(b) && i < |b.reservations| && b.reservations[i].status == Active && actual >= 0
    ensures var (c, reply) := Settle(b, i, actual);
      var r, a := b.reservations[i], AccountOf(b, b.reservations[i].user);
      var charged := Account(a.balance - actual, a.reserved - r.amount, a.credited, a.debited + actual);
      var row := Row(r.user, SettleKey(i), -actual, -r.amount, charged.balance, charged.reserved);
      && reply == Found(i)
      && Becomes(b, c, i, r.(settled := actual, status := if actual > r.amount then Overrun else Settled), charged,
                 if r.amount > 0 || actual > 0 then [row] else [])
  {
    hide Inv, HasKey;
    HoldIsReserved(b, i);
    ActiveKeysAreFresh(b, i);
  }

  /** A closed hold answers without being touched, a released one with a conflict; nonsense is refused. */
  lemma SettleOtherwise(b: Books, i: nat, actual: Money)
    ensures actual < 0 ==> Settle(b, i, actual) == (b, Invalid)
    ensures actual >= 0 && i >= |b.reservations| ==> Settle(b, i, actual) == (b, NotFound)
    ensures actual >= 0 && i < |b.reservations| && b.reservations[i].status in {Settled, Overrun} ==>
      Settle(b, i, actual) == (b, Found(i))
    ensures actual >= 0 && i < |b.reservations| && b.reservations[i].status == Released ==>
      Settle(b, i, actual) == (b, Conflict)
  {
  }

  /** Releasing an active hold frees it and charges nothing. */
  lemma ReleaseIsExact(b: Books, i: nat)
    requires Inv(b) && i < |b.reservations| && b.reservations[i].status == Active
    ensures var (c, reply) := Release(b, i);
      var r, a := b.reservations[i], AccountOf(b, b.reservations[i].user);
      var freed := a.(reserved := a.reserved - r.amount);
      var row := Row(r.user, ReleaseKey(i), 0, -r.amount, freed.balance, freed.reserved);
      && reply == Found(i)
      && Becomes(b, c, i, r.(status := Released), freed, if r.amount > 0 then [row] else [])
  {
    hide Inv, HasKey;
    HoldIsReserved(b, i);
    ActiveKeysAreFresh(b, i);
  }

  lemma ReleaseOtherwise(b: Books, i: nat)
    ensures i >= |b.reservations| ==> Release(b, i) == (b, NotFound)
    ensures i < |b.reservations| && b.reservations[i].status != Active ==> Release(b, i) == (b, Found(i))
  {
  }

  // ----- The sweep

  /** The user's hold is active though its job has ended, and no succeeded text or image request stands behind it. */
  ghost predicate Orphaned(b: Books, u: UserId, i: nat) {
    && i < |b.reservations|
    && var r := b.reservations[i];
    && r.user == u && r.status == Active && r.job.Some? && r.job.value in b.ended
    && !((r.reference.kind == TextModel || r.reference.kind == ImageModel)
         && Request(r.reference.kind, r.reference.id) in b.requests
         && b.requests[Request(r.reference.kind, r.reference.id)] == Succeeded)
  }

  /** The sweep releases the orphaned holds and leaves every other reservation as it is. */
  lemma SweepReleasesOrphans(b: Books, u: UserId, i: nat)
    requires i < |b.reservations|
    ensures |Sweep(b, u).reservations| == |b.reservations|
    ensures Sweep(b, u).reservations[i] ==
      if Orphaned(b, u, i) then b.reservations[i].(status := Released) else b.reservations[i]
  {
    SweepIsExact(b, u, |b.reservations|, i);
    hide SweepTo;
  }

  /** Looking at an account leaves no orphaned hold on it. */
  lemma SummaryLeavesNoOrphans(b: Books, u: UserId, i: nat)
    ensures u !in b.accounts && u !in b.users ==> Summary(b, u) == (b, NotFound)
    ensures u in b.accounts || u in b.users ==>
      Summary(b, u).1 == Posted && u in Summary(b, u).0.accounts && !Orphaned(Summary(b, u).0, u, i)
  {
    var c := WithAccount(b, u);
    SweepKeepsAccount(c, u, |c.reservations|);
    if i < |c.reservations| {
      SweepReleasesOrphans(c, u, i);
      SweepIsExact(c, u, |c.reservations|, i);
    }
    hide SweepTo;
  }

  lemma {:induction false} SweepKeepsAccount(b: Books, u: UserId, n: nat)
    requires n <= |b.reservations| && u in b.accounts
    ensures u in SweepTo(b, u, n).accounts
  {
    hide HasKey, Metered;
    if n > 0 {
      SweepKeepsAccount(b, u, n - 1);
    }
  }

  /** The sweep released hold `i`, and `q` is the request it protected. */
  ghost predicate Unprotects(b: Books, u: UserId, n: nat, i: nat, q: Request) {
    && i < n <= |b.reservations| && Selected(b, u, i) && !Metered(b, b.reservations[i])
    && Linked(b, b.reservations[i]) == Some(q)
  }

  ghost predicate Abandoned(b: Books, u: UserId, n: nat, q: Request) { exists i: nat :: Unprotects(b, u, n, i, q) }

  /** One hold's release fails the request it protects if that is in flight, and touches no other. */
  lemma SweepHoldFails(b: Books, i: nat, q: Request)
    requires i < |b.reservations|
    ensures var c := SweepHold(b, i); var fails := !Metered(b, b.reservations[i])
      && Linked(b, b.reservations[i]) == Some(q);
      && (q in c.requests <==> q in b.requests)
      && (q in b.requests ==> c.requests[q] == if fails && b.requests[q] == InFlight then Failed else b.requests[q])
  {
    hide HasKey;
  }

  /** A request in flight fails with the hold that the sweep takes from it; no other request changes. */
  lemma {:induction false} SweepFailsAbandoned(b: Books, u: UserId, n: nat, q: Request)
    requires n <= |b.reservations|
    ensures q in SweepTo(b, u, n).requests <==> q in b.requests
    ensures q in b.requests ==>
      SweepTo(b, u, n).requests[q] == if b.requests[q] == InFlight
        && Abandoned(b, u, n, q) then Failed else b.requests[q]
  {
    hide SweepHold, Abandoned, Unprotects, Metered;
    if n > 0 {
      var c := SweepTo(b, u, n - 1);
      SweepFailsAbandoned(b, u, n - 1, q);
      SweepIsExact(b, u, n - 1, n - 1);
      MeteringDecides(b, c, u, n - 1);
      AbandonedNext(b, u, n - 1, n, q);
      SweepHoldFails(c, n - 1, q);
      assert Unprotects(b, u, n, n - 1, q) <==>
        Selected(b, u, n - 1) && !Metered(b, b.reservations[n - 1]) && Linked(b, b.reservations[n - 1]) == Some(q)
      by { SpellOut(b, u, n, q); }
    } else {
      NobodyAbandoned(b, u, q);
    }
  }

  lemma SpellOut(b: Books, u: UserId, n: nat, q: Request)
    requires 0 < n <= |b.reservations|
    ensures Unprotects(b, u, n, n - 1, q) <==>
      Selected(b, u, n - 1) && !Metered(b, b.reservations[n - 1]) && Linked(b, b.reservations[n - 1]) == Some(q)
  {
  }

  lemma NobodyAbandoned(b: Books, u: UserId, q: Request)
    ensures !Abandoned(b, u, 0, q)
  {
  }

  lemma AbandonedNext(b: Books, u: UserId, m: nat, n: nat, q: Request)
    requires n == m + 1 <= |b.reservations|
    ensures Abandoned(b, u, n, q) <==> Abandoned(b, u, m, q) || Unprotects(b, u, n, m, q)
  {
    forall i: nat ensures i < m ==> (Unprotects(b, u, n, i, q) <==> Unprotects(b, u, m, i, q)) { }
    forall i: nat | i > m ensures !Unprotects(b, u, n, i, q) { }
    forall i: nat | i >= m ensures !Unprotects(b, u, m, i, q) { }
    hide Unprotects;
    if i: nat :| Unprotects(b, u, n, i, q) {
      assert i == m || Unprotects(b, u, m, i, q);
    }
    if i: nat :| Unprotects(b, u, m, i, q) {
      assert Unprotects(b, u, n, i, q);
    }
  }

  lemma SweepHoldMoves(b: Books, i: nat, v: UserId)
    requires i < |b.reservations|
    ensures var c := SweepHold(b, i);
      && c.users == b.users && c.ended == b.ended
      && AccountOf(c, v).balance == AccountOf(b, v).balance
      && AccountOf(c, v).credited == AccountOf(b, v).credited && AccountOf(c, v).debited == AccountOf(b, v).debited
      && (v != b.reservations[i].user ==> AccountOf(c, v) == AccountOf(b, v))
  {
    hide HasKey, Metered;
  }

  /** The sweep moves no balance, and no account but the user's own; what stays reserved is what is still held. */
  lemma {:induction false} SweepMovesReserved(b: Books, u: UserId, n: nat, v: UserId)
    requires n <= |b.reservations|
    ensures var c := SweepTo(b, u, n);
      && c.users == b.users && c.ended == b.ended
      && AccountOf(c, v).balance == AccountOf(b, v).balance
      && AccountOf(c, v).credited == AccountOf(b, v).credited && AccountOf(c, v).debited == AccountOf(b, v).debited
      && (v != u ==> AccountOf(c, v) == AccountOf(b, v))
  {
    hide SweepHold;
    if n > 0 {
      SweepMovesReserved(b, u, n - 1, v);
      SweepHoldMoves(SweepTo(b, u, n - 1), n - 1, v);
    }
  }

  // ----- Reserving

  /** A hold opens one active reservation and reserves its amount. */
  lemma HoldIsExact(b: Books, u: UserId, amount: Money, reference: Reference, job: Option<JobId>)
    requires !HasKey(b.ledger, ReserveKey(reference)) && amount >= 0
    ensures var c := Hold(b, u, amount, reference, job);
      var a := AccountOf(b, u);
      var held := a.(reserved := a.reserved + amount);
      var row := Row(u, ReserveKey(reference), 0, amount, held.balance, held.reserved);
      && c.reservations == b.reservations + [Reservation(u, job, reference, amount, 0, Active)]
      && (forall v :: AccountOf(c, v) == if v == u then held else AccountOf(b, v))
      && c.ledger == b.ledger + (if amount > 0 then [row] else [])
      && c.users == b.users && c.ended == b.ended && c.requests == b.requests
  {
    hide HasKey;
  }

  function Attempted(requested: Reference): Reference {
    Reference(requested.kind, requested.id, if requested.attempt < 1 then 1 else requested.attempt)
  }

  ghost predicate Known(b: Books, reference: Reference) { exists k: nat :: IsReference(b.reservations, reference, k) }

  predicate ValidHold(amount: Money, requested: Reference) {
    amount >= 0 && requested.kind != Other("") && requested.id != ""
  }

  predicate Present(b: Books, u: UserId) { u in b.accounts || u in b.users }

  /** What the sweep leaves available covers the amount. */
  predicate Covered(b: Books, u: UserId, amount: Money) {
    var a := AccountOf(Sweep(WithAccount(b, u), u), u);
    a.balance - a.reserved >= amount
  }

  lemma ReserveRefuses(b: Books, u: UserId, amount: Money, requested: Reference, job: Option<JobId>)
    ensures !ValidHold(amount, requested) ==> Reserve(b, u, amount, requested, job) == (b, Invalid)
    ensures ValidHold(amount, requested) && Known(b, Attempted(requested)) ==>
      var (c, reply) := Reserve(b, u, amount, requested, job);
      c == b && reply.Found? && IsReference(b.reservations, Attempted(requested), reply.reservation)
  {
    FoundIsKnown(b, Attempted(requested));
    hide Sweep, Hold, IsReference, WithAccount, Known, Find;
  }

  /** A new reference is given a hold exactly when the user exists and what the sweep leaves available covers it. */
  lemma ReserveDecides(b: Books, u: UserId, amount: Money, requested: Reference, job: Option<JobId>)
    requires ValidHold(amount, requested) && !Known(b, Attempted(requested))
    ensures !Present(b, u) ==> Reserve(b, u, amount, requested, job) == (b, NotFound)
    ensures Present(b, u) && !Covered(b, u, amount) ==> Reserve(b, u, amount, requested, job) == (b, Insufficient)
    ensures Present(b, u) && Covered(b, u, amount) ==>
      var swept := Sweep(WithAccount(b, u), u);
      Reserve(b, u, amount, requested, job)
        == (Hold(swept, u, amount, Attempted(requested), job), Found(|b.reservations|))
  {
    FoundIsKnown(b, Attempted(requested));
    assert Normalized(requested) == Attempted(requested);
    hide Sweep, Hold, IsReference, WithAccount, Known, Find, AccountOf, Normalized;
  }

  lemma FoundIsKnown(b: Books, reference: Reference)
    ensures Find(b.reservations, reference).Some? <==> Known(b, reference)
    ensures Find(b.reservations, reference).Some? ==>
      IsReference(b.reservations, reference, Find(b.reservations, reference).value)
  {
  }

  /** The swept books a new hold goes on top of have its place and its key free. */
  lemma SweptHasRoom(b: Books, u: UserId, reference: Reference)
    requires Inv(b) && !Known(b, reference)
    ensures var swept := Sweep(WithAccount(b, u), u);
      |swept.reservations| == |b.reservations| && !HasKey(swept.ledger, ReserveKey(reference))
  {
    SweepStartKeepsInv(b, u);
    SweptIsAsUnknown(WithAccount(b, u), u, |b.reservations|, reference);
    FreshReserveKey(Sweep(WithAccount(b, u), u), reference);
  }

  /** What is charged by reference is the reservation that was made under that reference. */
  lemma ReserveThenSettle(b: Books, u: UserId, amount: Money, requested: Reference, job: Option<JobId>, actual: Money)
    requires Inv(b) && Reserve(b, u, amount, requested, job).1.Found?
    ensures var (c, reply) := Reserve(b, u, amount, requested, job);
      SettleReference(c, requested, actual) == Settle(c, reply.reservation, actual)
  {
    var (c, reply) := Reserve(b, u, amount, requested, job);
    ReserveKeepsInv(b, u, amount, requested, job);
    ReserveNames(b, u, amount, requested, job);
    hide Inv, Reserve, Settle;
  }

  lemma ReserveNames(b: Books, u: UserId, amount: Money, requested: Reference, job: Option<JobId>)
    requires Inv(b) && Reserve(b, u, amount, requested, job).1.Found?
    ensures var (c, reply) := Reserve(b, u, amount, requested, job);
      IsReference(c.reservations, Normalized(requested), reply.reservation)
  {
    var reference, swept := Attempted(requested), Sweep(WithAccount(b, u), u);
    ReserveRefuses(b, u, amount, requested, job);
    if ValidHold(amount, requested) && !Known(b, reference) {
      ReserveDecides(b, u, amount, requested, job);
      SweptHasRoom(b, u, reference);
      HoldIsExact(swept, u, amount, reference, job);
    }
    hide Reserve, Sweep, Inv, AccountOf, Hold, HasKey, Known, Covered;
  }

  // ----- Adjusting

  /** An accepted adjustment posts the amount with its sign, as credit or as debit; every other answer changes nothing.
      */
  lemma AdjustIsExact(b: Books, u: UserId, amount: Money, reason: string, key: string)
    ensures var (c, reply) := Adjust(b, u, amount, reason, key);
      var a := AccountOf(b, u);
      var moved := if amount > 0 then Account(a.balance + amount, a.reserved, a.credited + amount, a.debited)
                   else Account(a.balance + amount, a.reserved, a.credited, a.debited - amount);
      var valid := amount != 0 && reason != "" && key != "";
      var used := HasKey(b.ledger, AdminKey(key));
      && (reply != Posted || used ==> c == b)
      && (reply == Invalid <==> !valid)
      && (reply == NotFound <==> valid && !used && u !in b.accounts && u !in b.users)
      && (reply == Insufficient <==>
           valid && !used && (u in b.accounts || u in b.users) && amount < 0 && a.balance - a.reserved + amount < 0)
      && (valid && !used && reply == Posted ==>
           && c.reservations == b.reservations && c.users == b.users && c.ended == b.ended && c.requests == b.requests
           && (forall v :: AccountOf(c, v) == if v == u then moved else AccountOf(b, v))
           && c.ledger == b.ledger + [Row(u, AdminKey(key), amount, 0, moved.balance, moved.reserved)])
      && (valid && used ==> reply == Posted || reply == Conflict)
      && (forall k :: valid && IsFirst(b.ledger, AdminKey(key), k) ==>
           (reply == Posted <==> b.ledger[k].user == u && b.ledger[k].balanceDelta == amount))
  {
    RowFromIsFirst(b.ledger, AdminKey(key), 0);
    hide RowFrom;
  }

  ghost predicate IsFirst(ledger: seq<Row>, key: Key, k: int) {
    0 <= k < |ledger| && ledger[k].key == key && forall m :: 0 <= m < k ==> ledger[m].key != key
  }

  lemma {:induction false} RowFromIsFirst(ledger: seq<Row>, key: Key, i: nat)
    requires i <= |ledger|
    ensures RowFrom(ledger, key, i).Some? ==>
      i <= RowFrom(ledger, key, i).value && forall m :: i <= m < RowFrom(ledger, key, i).value ==> ledger[m].key != key
    decreases |ledger| - i
  {
    if i < |ledger| && ledger[i].key != key {
      RowFromIsFirst(ledger, key, i + 1);
    }
  }
}
