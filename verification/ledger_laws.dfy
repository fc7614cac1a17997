/** What every sequence of billing operations keeps. */
module LedgerLaws {
  import opened Options
  import opened Sums
  import opened Ledger

  // ----- Contributions of table rows to one user's totals

  ghost function Held(u: UserId, r: Reservation): int { if r.user == u && r.status == Active then r.amount else 0 }

  ghost function Paid(u: UserId, r: Reservation): int { if r.user == u then r.settled else 0 }

  /** What an overrun settlement charged beyond its hold. */
  ghost function Excess(u: UserId, r: Reservation): int {
    if r.user == u && r.status == Overrun then r.settled - r.amount else 0
  }

  ghost function ActiveBy(u: UserId): Reservation -> int { (r: Reservation) => Held(u, r) }
  ghost function SettledBy(u: UserId): Reservation -> int { (r: Reservation) => Paid(u, r) }
  ghost function OverrunBy(u: UserId): Reservation -> int { (r: Reservation) => Excess(u, r) }

  ghost function BalanceBy(u: UserId): Row -> int { (row: Row) => if row.user == u then row.balanceDelta else 0 }
  ghost function ReservedBy(u: UserId): Row -> int { (row: Row) => if row.user == u then row.reservedDelta else 0 }
  ghost function AdminBy(u: UserId): Row -> int {
    (row: Row) => if row.user == u && row.key.AdminKey? then row.balanceDelta else 0
  }

  // ----- The invariant

  /** A reservation row makes sense on its own. */
  ghost predicate ReservationOk(r: Reservation) {
    && r.amount >= 0 && r.settled >= 0
    && (r.status == Active || r.status == Released ==> r.settled == 0)
    && (r.status == Settled ==> r.settled <= r.amount)
    && (r.status == Overrun ==> r.settled > r.amount)
  }

  ghost predicate ReservationsOk(rs: seq<Reservation>) {
    && (forall i :: 0 <= i < |rs| ==> ReservationOk(rs[i]))
    && forall i, j :: 0 <= i < j < |rs| ==> rs[i].reference != rs[j].reference
  }

  /** A key in the ledger says what has happened to its reservation. */
  ghost predicate KeyOk(rs: seq<Reservation>, key: Key) {
    match key
    case ReserveKey(reference) => exists i: nat :: IsReference(rs, reference, i)
    case SettleKey(i) => i < |rs| && rs[i].status in {Settled, Overrun}
    case ReleaseKey(i) => i < |rs| && rs[i].status == Released
    case AdminKey(_) => true
  }

  ghost predicate KeysOk(rs: seq<Reservation>, ledger: seq<Row>) {
    && (forall i :: 0 <= i < |ledger| ==> KeyOk(rs, ledger[i].key))
    && forall i, j :: 0 <= i < j < |ledger| ==> ledger[i].key != ledger[j].key
  }

  /** Row `i` records the totals right after it. */
  ghost predicate RowOk(ledger: seq<Row>, i: nat)
    requires i < |ledger|
  {
    && ledger[i].balanceAfter == SumTo(ledger, i + 1, BalanceBy(ledger[i].user))
    && ledger[i].reservedAfter == SumTo(ledger, i + 1, ReservedBy(ledger[i].user))
  }

  ghost predicate RowsOk(ledger: seq<Row>) { forall i: nat :: i < |ledger| ==> RowOk(ledger, i) }

  /** One user's totals over the tables. */
  datatype Totals = Totals(held: int, paid: int, excess: int, balance: int, reserved: int, admin: int)

  ghost function TotalsOf(rs: seq<Reservation>, ledger: seq<Row>, u: UserId): Totals {
    Totals(Sum(rs, ActiveBy(u)), Sum(rs, SettledBy(u)), Sum(rs, OverrunBy(u)),
           Sum(ledger, BalanceBy(u)), Sum(ledger, ReservedBy(u)), Sum(ledger, AdminBy(u)))
  }

  /** An account agrees with the active holds, with the ledger, and with admin credit less settlements; its available
      credit is short by no more than what overruns charged beyond their holds. */
  ghost predicate Consistent(a: Account, t: Totals) {
    && a.reserved == t.held && a.reserved == t.reserved
    && a.balance == t.balance && a.balance == t.admin - t.paid
    && a.balance == a.credited - a.debited && a.credited >= 0 && a.debited >= 0
    && t.excess >= 0 && Available(a) + t.excess >= 0
  }

  ghost predicate AccountOk(b: Books, u: UserId) { Consistent(AccountOf(b, u), TotalsOf(b.reservations, b.ledger, u)) }

  ghost predicate AccountsOk(b: Books) { forall u :: AccountOk(b, u) }

  ghost predicate Inv(b: Books) {
    ReservationsOk(b.reservations) && KeysOk(b.reservations, b.ledger) && RowsOk(b.ledger) && AccountsOk(b)
  }

  // ----- One posting

  /** `after` is `before` with one more row carrying the deltas, or unchanged when both are zero. */
  ghost predicate Appends(before: seq<Row>, after: seq<Row>, u: UserId, key: Key, balanceDelta: Money,
      reservedDelta: Money) {
    if balanceDelta == 0 && reservedDelta == 0 then after == before
    else
      && |after| == |before| + 1 && (forall k :: 0 <= k < |before| ==> after[k] == before[k])
      && after[|before|].user == u && after[|before|].key == key
      && after[|before|].balanceDelta == balanceDelta && after[|before|].reservedDelta == reservedDelta
  }

  /** `c` is `b` after one posting for user `u`: the account moved by the deltas, and a ledger row with the new totals
      was appended unless both deltas are zero. */
  ghost predicate Posts(b: Books, c: Books, u: UserId, key: Key, balanceDelta: Money, reservedDelta: Money) {
    && (forall v :: v != u ==> AccountOf(c, v) == AccountOf(b, v))
    && AccountOf(c, u).balance == AccountOf(b, u).balance + balanceDelta
    && AccountOf(c, u).reserved == AccountOf(b, u).reserved + reservedDelta
    && Appends(b.ledger, c.ledger, u, key, balanceDelta, reservedDelta)
    && (balanceDelta != 0 || reservedDelta != 0 ==>
         c.ledger[|b.ledger|].balanceAfter == AccountOf(c, u).balance
           && c.ledger[|b.ledger|].reservedAfter == AccountOf(c, u).reserved)
  }

  /** With a fresh key, _append does append: the books `c` with the moved account become a posting on `b`. */
  lemma AppendPosts(b: Books, c: Books, u: UserId, key: Key, balanceDelta: Money, reservedDelta: Money)
    requires !HasKey(b.ledger, key) && c.ledger == b.ledger
    requires forall v :: v != u ==> AccountOf(c, v) == AccountOf(b, v)
    requires AccountOf(c, u).balance == AccountOf(b, u).balance + balanceDelta
    requires AccountOf(c, u).reserved == AccountOf(b, u).reserved + reservedDelta
    ensures
      var changed := balanceDelta != 0 || reservedDelta != 0;
      var d := if changed then Append(c, u, key, balanceDelta, reservedDelta) else c;
      Posts(b, d, u, key, balanceDelta, reservedDelta)
  {
  }

  lemma LedgerSums(before: seq<Row>, after: seq<Row>, u: UserId, key: Key, balanceDelta: Money, reservedDelta: Money,
      v: UserId)
    requires Appends(before, after, u, key, balanceDelta, reservedDelta)
    ensures Sum(after, BalanceBy(v)) == Sum(before, BalanceBy(v)) + (if v == u then balanceDelta else 0)
    ensures Sum(after, ReservedBy(v)) == Sum(before, ReservedBy(v)) + (if v == u then reservedDelta else 0)
    ensures Sum(after, AdminBy(v)) == Sum(before, AdminBy(v)) + (if v == u && key.AdminKey? then balanceDelta else 0)
  {
    if balanceDelta != 0 || reservedDelta != 0 {
      var row := after[|before|];
      assert after == before + [row];
      SumAppend(before, row, BalanceBy(v));
      SumAppend(before, row, ReservedBy(v));
      SumAppend(before, row, AdminBy(v));
    }
  }

  lemma RowStays(before: seq<Row>, after: seq<Row>, i: nat)
    requires i < |before| <= |after| && RowOk(before, i) && forall k :: 0 <= k < |before| ==> after[k] == before[k]
    ensures RowOk(after, i)
  {
    SumPrefix(before, after, i + 1, BalanceBy(after[i].user));
    SumPrefix(before, after, i + 1, ReservedBy(after[i].user));
  }

  lemma LastRow(before: seq<Row>, after: seq<Row>, u: UserId, key: Key, balanceDelta: Money, reservedDelta: Money)
    requires Appends(before, after, u, key, balanceDelta, reservedDelta) && (balanceDelta != 0 || reservedDelta != 0)
    requires after[|before|].balanceAfter == Sum(before, BalanceBy(u)) + balanceDelta
    requires after[|before|].reservedAfter == Sum(before, ReservedBy(u)) + reservedDelta
    ensures RowOk(after, |before|)
  {
    LedgerSums(before, after, u, key, balanceDelta, reservedDelta, u);
  }

  lemma AccountSums(b: Books, u: UserId)
    requires AccountOk(b, u)
    ensures AccountOf(b, u).balance == Sum(b.ledger, BalanceBy(u))
      && AccountOf(b, u).reserved == Sum(b.ledger, ReservedBy(u))
  {
  }

  lemma PostKeepsRows(b: Books, c: Books, u: UserId, key: Key, balanceDelta: Money, reservedDelta: Money)
    requires Posts(b, c, u, key, balanceDelta, reservedDelta) && RowsOk(b.ledger) && AccountOk(b, u)
    ensures RowsOk(c.ledger)
  {
    hide AccountOk, RowOk, AccountOf;
    AccountSums(b, u);
    if balanceDelta != 0 || reservedDelta != 0 {
      LastRow(b.ledger, c.ledger, u, key, balanceDelta, reservedDelta);
      forall i: nat | i < |b.ledger| ensures RowOk(c.ledger, i) {
        assert RowOk(b.ledger, i);
        RowStays(b.ledger, c.ledger, i);
      }
    } else {
      assert c.ledger == b.ledger;
    }
  }

  /** The reservation table after writing row `i`, which may be a new one. */
  function Written(rs: seq<Reservation>, i: nat, r: Reservation): seq<Reservation>
    requires i <= |rs|
  {
    if i < |rs| then rs[i := r] else rs + [r]
  }

  /** How one reservation write moves the three reservation totals. */
  lemma ReservationSums(rs: seq<Reservation>, i: nat, r: Reservation, v: UserId)
    requires i <= |rs|
    ensures Sum(Written(rs, i, r), ActiveBy(v))
      == Sum(rs, ActiveBy(v)) + Held(v, r) - (if i < |rs| then Held(v, rs[i]) else 0)
    ensures Sum(Written(rs, i, r), SettledBy(v))
      == Sum(rs, SettledBy(v)) + Paid(v, r) - (if i < |rs| then Paid(v, rs[i]) else 0)
    ensures Sum(Written(rs, i, r), OverrunBy(v))
      == Sum(rs, OverrunBy(v)) + Excess(v, r) - (if i < |rs| then Excess(v, rs[i]) else 0)
  {
    if i < |rs| {
      SumUpdate(rs, i, r, ActiveBy(v));
      SumUpdate(rs, i, r, SettledBy(v));
      SumUpdate(rs, i, r, OverrunBy(v));
    } else {
      SumAppend(rs, r, ActiveBy(v));
      SumAppend(rs, r, SettledBy(v));
      SumAppend(rs, r, OverrunBy(v));
    }
  }

  /** An active hold is part of what its account has reserved, so subtracting it never meets the clamp at zero. */
  lemma HoldIsReserved(b: Books, i: nat)
    requires Inv(b) && i < |b.reservations| && b.reservations[i].status == Active
    ensures 0 <= b.reservations[i].amount <= AccountOf(b, b.reservations[i].user).reserved
  {
    var u := b.reservations[i].user;
    assert AccountOk(b, u);
    assert forall k :: 0 <= k < |b.reservations| ==> ReservationOk(b.reservations[k]);
    SumCovers(b.reservations, i, |b.reservations|, ActiveBy(u));
  }

  lemma FreshKey(rs: seq<Reservation>, ledger: seq<Row>, key: Key)
    requires KeysOk(rs, ledger) && !KeyOk(rs, key)
    ensures !HasKey(ledger, key)
  {
  }

  /** No row has settled or released an active hold yet. */
  lemma ActiveKeysAreFresh(b: Books, i: nat)
    requires Inv(b) && i < |b.reservations| && b.reservations[i].status == Active
    ensures !HasKey(b.ledger, SettleKey(i)) && !HasKey(b.ledger, ReleaseKey(i))
  {
    FreshKey(b.reservations, b.ledger, SettleKey(i));
    FreshKey(b.reservations, b.ledger, ReleaseKey(i));
  }

  /** Writing one reservation keeps what the other keys say. */
  lemma KeysSurvive(rs: seq<Reservation>, ledger: seq<Row>, i: nat, r: Reservation)
    requires KeysOk(rs, ledger) && i <= |rs|
    requires i < |rs| ==> rs[i].status == Active && r.reference == rs[i].reference
    ensures KeysOk(Written(rs, i, r), ledger)
  {
    var after := Written(rs, i, r);
    forall k | 0 <= k < |ledger| ensures KeyOk(after, ledger[k].key) {
      assert KeyOk(rs, ledger[k].key);
      if ledger[k].key.ReserveKey? {
        var j: nat :| IsReference(rs, ledger[k].key.reference, j);
        assert IsReference(after, ledger[k].key.reference, j);
      }
    }
  }

  /** A write that opens a new hold or closes an active one, moving the account by exactly what the row says. */
  ghost predicate Writes(b: Books, c: Books, key: Key, i: nat, r: Reservation) {
    && i <= |b.reservations| && c.reservations == Written(b.reservations, i, r)
    && ReservationOk(r) && !key.AdminKey? && KeyOk(c.reservations, key) && !HasKey(b.ledger, key)
    && (if i < |b.reservations| then
          var hold := b.reservations[i];
          && hold.status == Active && ReservationOk(hold) && r.status != Active
          && r.user == hold.user && r.reference == hold.reference && r.amount == hold.amount
          && Posts(b, c, r.user, key, -r.settled, -r.amount)
        else
          && r.status == Active && r.amount <= Available(AccountOf(b, r.user))
          && (forall k: nat :: !IsReference(b.reservations, r.reference, k))
          && Posts(b, c, r.user, key, 0, r.amount))
    && AccountOf(c, r.user).credited == AccountOf(b, r.user).credited
    && AccountOf(c, r.user).debited == AccountOf(b, r.user).debited + r.settled
  }

  /** The totals of any user after a write. */
  lemma WriteMovesTotals(b: Books, c: Books, key: Key, i: nat, r: Reservation, v: UserId)
    requires Writes(b, c, key, i, r)
    ensures var s, t := TotalsOf(b.reservations, b.ledger, v), TotalsOf(c.reservations, c.ledger, v);
      t == if v != r.user then s
           else if i < |b.reservations| then
             Totals(s.held - r.amount, s.paid + r.settled - b.reservations[i].settled, s.excess + Excess(v, r),
               s.balance - r.settled, s.reserved - r.amount, s.admin)
           else Totals(s.held + r.amount, s.paid + r.settled, s.excess, s.balance, s.reserved + r.amount, s.admin)
  {
    ReservationSums(b.reservations, i, r, v);
    if i < |b.reservations| {
      LedgerSums(b.ledger, c.ledger, r.user, key, -r.settled, -r.amount, v);
    } else {
      LedgerSums(b.ledger, c.ledger, r.user, key, 0, r.amount, v);
    }
  }

  lemma CloseIsConsistent(a: Account, t: Totals, r: Reservation)
    requires Consistent(a, t) && ReservationOk(r) && r.status != Active
    ensures Consistent(
      Account(a.balance - r.settled, a.reserved - r.amount, a.credited, a.debited + r.settled),
      Totals(t.held - r.amount, t.paid + r.settled, t.excess + Excess(r.user, r), t.balance - r.settled,
        t.reserved - r.amount, t.admin))
  {
  }

  lemma OpenIsConsistent(a: Account, t: Totals, r: Reservation)
    requires Consistent(a, t) && ReservationOk(r) && r.status == Active && r.amount <= Available(a)
    ensures Consistent(a.(reserved := a.reserved + r.amount),
      t.(held := t.held + r.amount, reserved := t.reserved + r.amount))
  {
  }

  lemma WriteKeepsAccount(b: Books, c: Books, key: Key, i: nat, r: Reservation, v: UserId)
    requires Writes(b, c, key, i, r)
    ensures AccountOk(b, v) ==> AccountOk(c, v)
  {
    hide Writes, ReservationOk, Consistent, TotalsOf, Available;
    WriteMovesTotals(b, c, key, i, r, v);
    WriteMovesAccount(b, c, key, i, r, v);
    if v == r.user && AccountOk(b, v) {
      var a, t := AccountOf(b, v), TotalsOf(b.reservations, b.ledger, v);
      if i < |b.reservations| {
        CloseIsConsistent(a, t, r);
      } else {
        OpenIsConsistent(a, t, r);
      }
    }
  }

  lemma PostMovesAccount(b: Books, c: Books, u: UserId, key: Key, balanceDelta: Money, reservedDelta: Money, v: UserId)
    requires Posts(b, c, u, key, balanceDelta, reservedDelta)
    ensures v != u ==> AccountOf(c, v) == AccountOf(b, v)
    ensures AccountOf(c, u).balance == AccountOf(b, u).balance + balanceDelta
    ensures AccountOf(c, u).reserved == AccountOf(b, u).reserved + reservedDelta
  {
  }

  lemma WriteMovesAccount(b: Books, c: Books, key: Key, i: nat, r: Reservation, v: UserId)
    requires Writes(b, c, key, i, r)
    ensures ReservationOk(r) && (r.status == Active <==> i >= |b.reservations|)
    ensures i < |b.reservations| ==> b.reservations[i].settled == 0
    ensures i >= |b.reservations| ==> r.settled == 0 && r.amount <= Available(AccountOf(b, r.user))
    ensures var a := AccountOf(b, v);
      AccountOf(c, v) ==
        if v != r.user then a
        else if i < |b.reservations| then
          Account(a.balance - r.settled, a.reserved - r.amount, a.credited, a.debited + r.settled)
        else a.(reserved := a.reserved + r.amount)
  {
    hide KeyOk, HasKey, AccountOf, Posts, IsReference, Written, Available;
    if i < |b.reservations| {
      PostMovesAccount(b, c, r.user, key, -r.settled, -r.amount, v);
    } else {
      PostMovesAccount(b, c, r.user, key, 0, r.amount, v);
    }
  }

  lemma Rows(rs: seq<Reservation>, i: nat)
    requires ReservationsOk(rs)
    ensures i < |rs| ==> ReservationOk(rs[i])
  {
  }

  lemma KeysAppend(rs: seq<Reservation>, before: seq<Row>, after: seq<Row>, u: UserId, key: Key, balanceDelta: Money,
      reservedDelta: Money)
    requires KeysOk(rs, before) && KeyOk(rs, key) && !HasKey(before, key)
    requires Appends(before, after, u, key, balanceDelta, reservedDelta)
    ensures KeysOk(rs, after)
  {
  }

  lemma ReservationsSurvive(rs: seq<Reservation>, i: nat, r: Reservation)
    requires ReservationsOk(rs) && ReservationOk(r) && i <= |rs|
    requires if i < |rs| then r.reference == rs[i].reference else forall k: nat :: !IsReference(rs, r.reference, k)
    ensures ReservationsOk(Written(rs, i, r))
  {
    hide ReservationOk;
    forall k | 0 <= k < |rs| && i == |rs| ensures rs[k].reference != r.reference {
      assert !IsReference(rs, r.reference, k);
    }
  }

  lemma WriteKeepsKeys(b: Books, c: Books, key: Key, i: nat, r: Reservation)
    requires KeysOk(b.reservations, b.ledger) && Writes(b, c, key, i, r)
    ensures KeysOk(c.reservations, c.ledger)
  {
    hide KeysOk, KeyOk, HasKey, Appends, AccountOf;
    KeysSurvive(b.reservations, b.ledger, i, r);
    var reservedDelta := if i < |b.reservations| then -r.amount else r.amount;
    KeysAppend(c.reservations, b.ledger, c.ledger, r.user, key, -r.settled, reservedDelta);
  }

  lemma WriteKeepsRows(b: Books, c: Books, key: Key, i: nat, r: Reservation)
    requires RowsOk(b.ledger) && AccountOk(b, r.user) && Writes(b, c, key, i, r)
    ensures RowsOk(c.ledger)
  {
    hide AccountOk, RowsOk, KeyOk;
    if i < |b.reservations| {
      PostKeepsRows(b, c, r.user, key, -r.settled, -r.amount);
    } else {
      PostKeepsRows(b, c, r.user, key, 0, r.amount);
    }
  }

  lemma WriteKeepsReservations(b: Books, c: Books, key: Key, i: nat, r: Reservation)
    requires ReservationsOk(b.reservations) && Writes(b, c, key, i, r)
    ensures ReservationsOk(c.reservations)
  {
    hide KeyOk, Posts, HasKey;
    ReservationsSurvive(b.reservations, i, r);
  }

  lemma WriteKeepsInv(b: Books, c: Books, key: Key, i: nat, r: Reservation)
    requires Inv(b) && Writes(b, c, key, i, r)
    ensures Inv(c)
  {
    Rows(b.reservations, i);
    hide Writes, AccountOk, KeysOk, RowsOk, ReservationsOk;
    forall v ensures AccountOk(c, v) {
      assert AccountOk(b, v);
      WriteKeepsAccount(b, c, key, i, r, v);
    }
    assert AccountOk(b, r.user);
    WriteKeepsKeys(b, c, key, i, r);
    WriteKeepsRows(b, c, key, i, r);
    WriteKeepsReservations(b, c, key, i, r);
  }

  // ----- The operations

  lemma ReleaseWrites(b: Books, i: nat)
    requires Inv(b) && i < |b.reservations| && b.reservations[i].status == Active
    ensures Writes(b, ReleaseHold(b, i), ReleaseKey(i), i, b.reservations[i].(status := Released))
  {
    HoldIsReserved(b, i);
    assert ReservationOk(b.reservations[i]);
    ActiveKeysAreFresh(b, i);
    hide Inv, HasKey;
    var r := b.reservations[i];
    var a := AccountOf(b, r.user);
    var c := b.(accounts := b.accounts[r.user := a.(reserved := Max(0, a.reserved - r.amount))],
                reservations := b.reservations[i := r.(status := Released)]);
    AppendPosts(b, c, r.user, ReleaseKey(i), 0, -r.amount);
  }

  lemma ChargeWrites(b: Books, i: nat, actual: Money)
    requires Inv(b) && i < |b.reservations| && b.reservations[i].status == Active && actual >= 0
    ensures Writes(b, Charge(b, i, actual), SettleKey(i), i,
      b.reservations[i].(settled := actual, status := if actual > b.reservations[i].amount then Overrun else Settled))
  {
    HoldIsReserved(b, i);
    assert ReservationOk(b.reservations[i]);
    ActiveKeysAreFresh(b, i);
    hide Inv, HasKey;
    var r := b.reservations[i];
    var a := AccountOf(b, r.user);
    var c := b.(
      accounts := b.accounts[r.user :=
        a.(reserved := Max(0, a.reserved - r.amount), balance := a.balance - actual, debited := a.debited + actual)],
      reservations :=
        b.reservations[i := r.(settled := actual, status := if actual > r.amount then Overrun else Settled)]);
    AppendPosts(b, c, r.user, SettleKey(i), -actual, -r.amount);
  }

  lemma HoldPosts(b: Books, u: UserId, amount: Money, reference: Reference, job: Option<JobId>)
    requires amount >= 0 && !HasKey(b.ledger, ReserveKey(reference))
    ensures Posts(b, Hold(b, u, amount, reference, job), u, ReserveKey(reference), 0, amount)
  {
  }

  lemma HoldRows(b: Books, u: UserId, amount: Money, reference: Reference, job: Option<JobId>)
    ensures Hold(b, u, amount, reference, job).reservations
      == b.reservations + [Reservation(u, job, reference, amount, 0, Active)]
    ensures AccountOf(Hold(b, u, amount, reference, job), u).credited == AccountOf(b, u).credited
    ensures AccountOf(Hold(b, u, amount, reference, job), u).debited == AccountOf(b, u).debited
    ensures KeyOk(Hold(b, u, amount, reference, job).reservations, ReserveKey(reference))
  {
    hide HasKey;
    assert IsReference(Hold(b, u, amount, reference, job).reservations, reference, |b.reservations|);
  }

  lemma FreshReserveKey(b: Books, reference: Reference)
    requires Inv(b) && forall k: nat :: !IsReference(b.reservations, reference, k)
    ensures !HasKey(b.ledger, ReserveKey(reference))
  {
  }

  lemma HoldWrites(b: Books, u: UserId, amount: Money, reference: Reference, job: Option<JobId>)
    requires Inv(b) && 0 <= amount <= Available(AccountOf(b, u))
    requires forall k: nat :: !IsReference(b.reservations, reference, k)
    ensures Writes(b, Hold(b, u, amount, reference, job), ReserveKey(reference), |b.reservations|,
      Reservation(u, job, reference, amount, 0, Active))
  {
    hide Inv, HasKey, Hold, Posts, KeyOk, AccountOf;
    FreshReserveKey(b, reference);
    HoldRows(b, u, amount, reference, job);
    HoldPosts(b, u, amount, reference, job);
  }

  /** Fields outside accounts, reservations and ledger play no part in the invariant. */
  lemma OthersDoNotMatter(b: Books, c: Books)
    requires Inv(b) && c.reservations == b.reservations && c.ledger == b.ledger
    requires forall u :: AccountOf(c, u) == AccountOf(b, u)
    ensures Inv(c)
  {
    forall u ensures AccountOk(c, u) {
      assert AccountOk(b, u);
    }
  }

  lemma CreditPosts(b: Books, u: UserId, amount: Money, key: Key)
    requires amount != 0 && !HasKey(b.ledger, key)
    ensures Posts(b, Credit(b, u, amount, key), u, key, amount, 0)
  {
  }

  lemma CreditKeepsAccount(b: Books, u: UserId, amount: Money, key: string, v: UserId)
    requires AccountOk(b, v) && amount != 0 && (amount < 0 ==> Available(AccountOf(b, u)) + amount >= 0)
    requires !HasKey(b.ledger, AdminKey(key))
    ensures AccountOk(Credit(b, u, amount, AdminKey(key)), v)
  {
    hide Credit, HasKey, Sum, Appends, Consistent;
    var c := Credit(b, u, amount, AdminKey(key));
    CreditPosts(b, u, amount, AdminKey(key));
    CreditMoves(b, u, amount, AdminKey(key));
    LedgerSums(b.ledger, c.ledger, u, AdminKey(key), amount, 0, v);
    if v == u {
      CreditIsConsistent(AccountOf(b, u), TotalsOf(b.reservations, b.ledger, u), amount);
    }
  }

  lemma CreditIsConsistent(a: Account, t: Totals, amount: Money)
    requires Consistent(a, t) && (amount < 0 ==> Available(a) + amount >= 0)
    ensures Consistent(
      Account(a.balance + amount, a.reserved, a.credited + Max(0, amount), a.debited + Max(0, -amount)),
      t.(balance := t.balance + amount, admin := t.admin + amount))
  {
  }

  lemma CreditMoves(b: Books, u: UserId, amount: Money, key: Key)
    ensures var a, c := AccountOf(b, u), Credit(b, u, amount, key);
      && c.reservations == b.reservations
      && AccountOf(c, u).credited == a.credited + Max(0, amount)
        && AccountOf(c, u).debited == a.debited + Max(0, -amount)
      && forall v :: v != u ==> AccountOf(c, v) == AccountOf(b, v)
  {
    hide HasKey;
  }

  lemma CreditKeepsInv(b: Books, u: UserId, amount: Money, key: string)
    requires Inv(b) && amount != 0 && (amount < 0 ==> Available(AccountOf(b, u)) + amount >= 0)
    requires !HasKey(b.ledger, AdminKey(key))
    ensures Inv(Credit(b, u, amount, AdminKey(key)))
  {
    var c := Credit(b, u, amount, AdminKey(key));
    CreditPosts(b, u, amount, AdminKey(key));
    forall v ensures AccountOk(c, v) {
      assert AccountOk(b, v);
      CreditKeepsAccount(b, u, amount, key, v);
    }
    PostKeepsRows(b, c, u, AdminKey(key), amount, 0) by { assert AccountOk(b, u); }
    hide AccountOk, KeysOk, RowsOk, ReservationsOk;
    KeysAppend(b.reservations, b.ledger, c.ledger, u, AdminKey(key), amount, 0);
  }

  lemma SweepHoldKeepsInv(b: Books, i: nat)
    requires Inv(b) && i < |b.reservations| && b.reservations[i].status == Active
    ensures Inv(SweepHold(b, i))
  {
    hide Inv;
    var c := FailRunning(b, b.reservations[i]);
    OthersDoNotMatter(b, c);
    if !Metered(b, b.reservations[i]) {
      ReleaseWrites(c, i);
      WriteKeepsInv(c, ReleaseHold(c, i), ReleaseKey(i), i, b.reservations[i].(status := Released));
    }
  }

  lemma {:induction false} SweepKeepsInv(b: Books, u: UserId, n: nat)
    requires Inv(b) && n <= |b.reservations|
    ensures Inv(SweepTo(b, u, n))
  {
    hide Inv, SweepHold;
    if n > 0 {
      SweepKeepsInv(b, u, n - 1);
      var c := SweepTo(b, u, n - 1);
      if Selected(c, u, n - 1) { SweepHoldKeepsInv(c, n - 1); }
    }
  }

  lemma {:induction false} SweepKeepsReferences(b: Books, u: UserId, n: nat)
    requires n <= |b.reservations|
    ensures forall i :: 0 <= i < |b.reservations| ==>
      SweepTo(b, u, n).reservations[i].reference == b.reservations[i].reference
  {
    hide Linked, Selected, Metered, HasKey, AccountOf;
    if n > 0 {
      SweepKeepsReferences(b, u, n - 1);
    }
  }

  lemma SweptIsAsUnknown(b: Books, u: UserId, n: nat, reference: Reference)
    requires n <= |b.reservations| && forall k: nat :: !IsReference(b.reservations, reference, k)
    ensures forall k: nat :: !IsReference(SweepTo(b, u, n).reservations, reference, k)
  {
    SweepKeepsReferences(b, u, n);
    hide SweepTo;
    var rs := SweepTo(b, u, n).reservations;
    forall k: nat ensures !IsReference(rs, reference, k) {
      assert !IsReference(b.reservations, reference, k);
    }
  }

  lemma HoldKeepsInv(b: Books, u: UserId, amount: Money, reference: Reference, job: Option<JobId>)
    requires Inv(b) && 0 <= amount <= Available(AccountOf(b, u))
    requires forall k: nat :: !IsReference(b.reservations, reference, k)
    ensures Inv(Hold(b, u, amount, reference, job))
  {
    hide Inv, Writes, Hold;
    HoldWrites(b, u, amount, reference, job);
    WriteKeepsInv(b, Hold(b, u, amount, reference, job), ReserveKey(reference), |b.reservations|,
      Reservation(u, job, reference, amount, 0, Active));
  }

  lemma SweepStartKeepsInv(b: Books, u: UserId)
    requires Inv(b)
    ensures Inv(Sweep(WithAccount(b, u), u))
  {
    hide Inv, SweepTo;
    OthersDoNotMatter(b, WithAccount(b, u));
    SweepKeepsInv(WithAccount(b, u), u, |b.reservations|);
  }

  /** Reserving changes nothing, or opens a hold on swept books that can afford it. */
  lemma ReserveCases(b: Books, u: UserId, amount: Money, requested: Reference, job: Option<JobId>)
    ensures var reference := Normalized(requested); var swept := Sweep(WithAccount(b, u), u);
      || Reserve(b, u, amount, requested, job).0 == b
      || (&& Reserve(b, u, amount, requested, job).0 == Hold(swept, u, amount, reference, job)
          && 0 <= amount <= Available(AccountOf(swept, u))
          && forall k: nat :: !IsReference(b.reservations, reference, k))
  {
  }

  lemma ReserveKeepsInv(b: Books, u: UserId, amount: Money, requested: Reference, job: Option<JobId>)
    requires Inv(b)
    ensures Inv(Reserve(b, u, amount, requested, job).0)
  {
    hide Inv, SweepTo, Hold, Reserve;
    ReserveCases(b, u, amount, requested, job);
    if Reserve(b, u, amount, requested, job).0 != b {
      SweepStartKeepsInv(b, u);
      SweptIsAsUnknown(WithAccount(b, u), u, |b.reservations|, Normalized(requested));
      HoldKeepsInv(Sweep(WithAccount(b, u), u), u, amount, Normalized(requested), job);
    }
  }

  lemma SettleKeepsInv(b: Books, i: nat, actual: Money)
    requires Inv(b)
    ensures Inv(Settle(b, i, actual).0)
  {
    hide Inv;
    if actual >= 0 && i < |b.reservations| && b.reservations[i].status == Active {
      ChargeWrites(b, i, actual);
      WriteKeepsInv(b, Charge(b, i, actual), SettleKey(i), i,
        b.reservations[i].(
          settled := actual, status := if actual > b.reservations[i].amount then Overrun else Settled));
    }
  }

  lemma ReleaseKeepsInv(b: Books, i: nat)
    requires Inv(b)
    ensures Inv(Release(b, i).0)
  {
    hide Inv;
    if i < |b.reservations| && b.reservations[i].status == Active {
      ReleaseWrites(b, i);
      WriteKeepsInv(b, ReleaseHold(b, i), ReleaseKey(i), i, b.reservations[i].(status := Released));
    }
  }

  lemma StepKeepsInv(b: Books, op: Op)
    requires Inv(b)
    ensures Inv(Step(b, op))
  {
    hide Inv, Charge, ReleaseHold, SweepTo;
    match op
    case DoSummary(u) =>
      OthersDoNotMatter(b, WithAccount(b, u));
      SweepKeepsInv(WithAccount(b, u), u, |b.reservations|);
    case DoReserve(u, amount, reference, job) => ReserveKeepsInv(b, u, amount, reference, job);
    case DoSettle(i, actual) => SettleKeepsInv(b, i, actual);
    case DoSettleReference(reference, actual) =>
      var found := Find(b.reservations, Normalized(reference));
      if found.Some? { SettleKeepsInv(b, found.value, actual); }
    case DoRelease(i) => ReleaseKeepsInv(b, i);
    case DoAdjust(u, amount, reason, key) =>
      if Adjust(b, u, amount, reason, key).0 != b { CreditKeepsInv(b, u, amount, key); }
    case DoRegister(_) => OthersDoNotMatter(b, Step(b, op));
    case DoEndJob(_) => OthersDoNotMatter(b, Step(b, op));
    case DoBeginText(_) => OthersDoNotMatter(b, Step(b, op));
    case DoBeginImage(_, _) => OthersDoNotMatter(b, Step(b, op));
    case DoFinish(_, _) => OthersDoNotMatter(b, Step(b, op));
  }

  lemma {:induction false} RunKeepsInv(b: Books, ops: seq<Op>)
    requires Inv(b)
    ensures Inv(Run(b, ops))
  {
    hide Inv, Step;
    if ops != [] {
      RunKeepsInv(b, ops[..|ops| - 1]);
      StepKeepsInv(Run(b, ops[..|ops| - 1]), ops[|ops| - 1]);
    }
  }

  lemma EmptyIsOk()
    ensures Inv(EMPTY_BOOKS)
  {
  }
}
