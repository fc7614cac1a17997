/** BillingService: each method is one transaction over the tables, written the way the code updates its rows. */
module Billing {
  import opened Options
  import opened Ledger

  class BillingService {
    var users: set<UserId>
    var accounts: map<UserId, Account>
    var reservations: seq<Reservation>
    var ledger: seq<Row>
    var ended: set<JobId>
    var requests: map<Request, RequestStatus>

    ghost function Tables(): Books
      reads this
    {
      Books(users, accounts, reservations, ledger, ended, requests)
    }

    constructor ()
      ensures Tables() == EMPTY_BOOKS
    {
      users, accounts, reservations, ledger, ended, requests := {}, map[], [], [], {}, map[];
    }

    /** _append. */
    method AppendRow(u: UserId, key: Key, balanceDelta: Money, reservedDelta: Money)
      modifies this`ledger
      ensures Tables() == Append(old(Tables()), u, key, balanceDelta, reservedDelta)
    {
      var i := 0;
      while i < |ledger|
        invariant i <= |ledger| && ledger == old(ledger)
        invariant forall k :: 0 <= k < i ==> ledger[k].key != key
      {
        if ledger[i].key == key {
          assert HasKey(ledger, key);
          return;
        }
        i := i + 1;
      }
      var a := if u in accounts then accounts[u] else ZERO_ACCOUNT;
      ledger := ledger + [Row(u, key, balanceDelta, reservedDelta, a.balance, a.reserved)];
    }

    /** _account; nothing when neither the account nor the user exists. */
    method EnsureAccount(u: UserId) returns (ok: bool)
      modifies this`accounts
      ensures ok <==> u in old(accounts) || u in users
      ensures Tables() == if ok then WithAccount(old(Tables()), u) else old(Tables())
    {
      if u in accounts {
        assert accounts == accounts[u := accounts[u]];
        return true;
      }
      ok := u in users;
      if ok {
        accounts := accounts[u := ZERO_ACCOUNT];
      }
    }

    /** The common part of release and the sweep. */
    method CloseHold(i: nat)
      requires i < |reservations|
      modifies this`accounts, this`reservations, this`ledger
      ensures Tables() == ReleaseHold(old(Tables()), i)
    {
      var r := reservations[i];
      var a := if r.user in accounts then accounts[r.user] else ZERO_ACCOUNT;
      accounts := accounts[r.user := a.(reserved := Max(0, a.reserved - r.amount))];
      reservations := reservations[i := r.(status := Released)];
      if r.amount > 0 {
        AppendRow(r.user, ReleaseKey(i), 0, -r.amount);
      }
    }

    /** The query of the sweep: the user's active holds whose job has ended, in creation order. */
    method SelectEnded(u: UserId) returns (ids: seq<nat>)
      ensures Picks(Tables(), u, ids, |reservations|)
    {
      ids := [];
      for i := 0 to |reservations|
        invariant Picks(Tables(), u, ids, i)
      {
        var r := reservations[i];
        if r.user == u && r.status == Active && r.job.Some? && r.job.value in ended {
          ids := ids + [i];
        }
      }
    }

    /** The loop body of the sweep. */
    method ReconcileHold(i: nat) returns (freed: bool)
      requires i < |reservations|
      modifies this`accounts, this`reservations, this`ledger, this`requests
      ensures Tables() == SweepHold(old(Tables()), i)
      ensures freed <==> !Metered(old(Tables()), old(reservations)[i])
    {
      hide ReleaseHold;
      var r := reservations[i];
      var q := Request(r.reference.kind, r.reference.id);
      var linked := !r.reference.kind.Other? && q in requests;
      if linked && requests[q] == Succeeded {
        return false;
      }
      if linked && requests[q] == InFlight {
        requests := requests[q := Failed];
      }
      CloseHold(i);
      return true;
    }

    /** _release_terminal_job_holds: select first, then treat the holds one by one. */
    method ReleaseEndedHolds(u: UserId) returns (released: nat)
      modifies this`accounts, this`reservations, this`ledger, this`requests
      ensures Tables() == Sweep(old(Tables()), u)
    {
      hide SweepHold, Metered;
      released := 0;
      var ids := SelectEnded(u);
      ghost var b := Tables();
      ghost var n := |reservations|;
      SkipAll(b, u, ids, 0, 0, n);
      for k := 0 to |ids|
        invariant |reservations| == n && Picks(b, u, ids, n)
        invariant Tables() == SweepTo(b, u, Reached(ids, k, n))
      {
        var i := ids[k];
        SweepLeaves(b, u, i, i);
        assert Selected(Tables(), u, i);
        var freed := ReconcileHold(i);
        assert Tables() == SweepTo(b, u, i + 1);
        SkipAll(b, u, ids, k + 1, i + 1, n);
        released := released + if freed then 1 else 0;
      }
    }

    method AccountSummary(u: UserId) returns (reply: Reply)
      modifies this
      ensures (Tables(), reply) == Summary(old(Tables()), u)
    {
      var ok := EnsureAccount(u);
      if !ok {
        return NotFound;
      }
      var _ := ReleaseEndedHolds(u);
      return Posted;
    }

    /** The first reservation under a reference. */
    method FindReservation(reference: Reference) returns (found: Option<nat>)
      ensures found == Find(reservations, reference)
    {
      var i := 0;
      while i < |reservations|
        invariant i <= |reservations|
        invariant Find(reservations, reference) == FindFrom(reservations, reference, i)
      {
        if reservations[i].reference == reference {
          return Some(i);
        }
        i := i + 1;
      }
      return None;
    }

    method OpenHold(u: UserId, amount: Money, reference: Reference, job: Option<JobId>)
      modifies this`accounts, this`reservations, this`ledger
      ensures Tables() == Hold(old(Tables()), u, amount, reference, job) && |reservations| == |old(reservations)| + 1
    {
      reservations := reservations + [Reservation(u, job, reference, amount, 0, Active)];
      var a := if u in accounts then accounts[u] else ZERO_ACCOUNT;
      accounts := accounts[u := a.(reserved := a.reserved + amount)];
      if amount > 0 {
        AppendRow(u, ReserveKey(reference), 0, amount);
      }
    }

    /** reserve; raising InsufficientCredit rolls back the account row and the sweep. */
    method ReserveCredit(u: UserId, amount: Money, requested: Reference, job: Option<JobId>) returns (reply: Reply)
      modifies this
      ensures (Tables(), reply) == Reserve(old(Tables()), u, amount, requested, job)
    {
      hide SweepTo, Hold, FindFrom;
      var reference := requested.(attempt := Max(1, requested.attempt));
      if amount < 0 || reference.kind == Other("") || reference.id == "" {
        return Invalid;
      }
      var existing := FindReservation(reference);
      if existing.Some? {
        return Found(existing.value);
      }
      var saved := (accounts, reservations, ledger, requests);
      var ok := EnsureAccount(u);
      if !ok {
        return NotFound;
      }
      var _ := ReleaseEndedHolds(u);
      var a := if u in accounts then accounts[u] else ZERO_ACCOUNT;
      if a.balance - a.reserved < amount {
        accounts, reservations, ledger, requests := saved.0, saved.1, saved.2, saved.3;
        return Insufficient;
      }
      OpenHold(u, amount, reference, job);
      return Found(|reservations| - 1);
    }

    method ChargeHold(i: nat, actual: Money)
      requires i < |reservations|
      modifies this`accounts, this`reservations, this`ledger
      ensures Tables() == Charge(old(Tables()), i, actual)
    {
      var r := reservations[i];
      var a := if r.user in accounts then accounts[r.user] else ZERO_ACCOUNT;
      accounts :=
        accounts[r.user := Account(a.balance - actual, Max(0, a.reserved - r.amount), a.credited, a.debited + actual)];
      reservations :=
        reservations[i := r.(settled := actual, status := if actual > r.amount then Overrun else Settled)];
      if r.amount > 0 || actual > 0 {
        AppendRow(r.user, SettleKey(i), -actual, -r.amount);
      }
    }

    method SettleHold(i: nat, actual: Money) returns (reply: Reply)
      modifies this
      ensures (Tables(), reply) == Settle(old(Tables()), i, actual)
    {
      if actual < 0 {
        return Invalid;
      }
      if i >= |reservations| {
        return NotFound;
      }
      if reservations[i].status == Settled || reservations[i].status == Overrun {
        return Found(i);
      }
      if reservations[i].status != Active {
        return Conflict;
      }
      ChargeHold(i, actual);
      return Found(i);
    }

    method SettleByReference(requested: Reference, actual: Money) returns (reply: Reply)
      modifies this
      ensures (Tables(), reply) == SettleReference(old(Tables()), requested, actual)
    {
      var found := FindReservation(requested.(attempt := Max(1, requested.attempt)));
      if found.None? {
        return Nothing;
      }
      reply := SettleHold(found.value, actual);
    }

    method ReleaseCredit(i: nat) returns (reply: Reply)
      modifies this
      ensures (Tables(), reply) == Release(old(Tables()), i)
    {
      if i >= |reservations| {
        return NotFound;
      }
      if reservations[i].status == Active {
        CloseHold(i);
      }
      return Found(i);
    }

    method AdjustCredit(u: UserId, amount: Money, reason: string, key: string) returns (reply: Reply)
      modifies this
      ensures (Tables(), reply) == Adjust(old(Tables()), u, amount, reason, key)
    {
      if amount == 0 || reason == "" || key == "" {
        return Invalid;
      }
      var i := 0;
      while i < |ledger|
        invariant i <= |ledger| && Tables() == old(Tables())
        invariant RowFrom(ledger, AdminKey(key), 0) == RowFrom(ledger, AdminKey(key), i)
      {
        if ledger[i].key == AdminKey(key) {
          return if ledger[i].user != u || ledger[i].balanceDelta != amount then Conflict else Posted;
        }
        i := i + 1;
      }
      if u !in accounts && u !in users {
        return NotFound;
      }
      var a := if u in accounts then accounts[u] else ZERO_ACCOUNT;
      if amount < 0 && a.balance - a.reserved + amount < 0 {
        return Insufficient;
      }
      accounts := accounts[u := a.(balance := a.balance + amount,
        credited := if amount > 0 then a.credited + amount else a.credited,
        debited := if amount > 0 then a.debited else a.debited + -amount)];
      AppendRow(u, AdminKey(key), amount, 0);
      return Posted;
    }
  }

  // ----- Selecting first and treating later is treating in passing

  /** `ids` lists the selected positions below `n` in order. */
  ghost predicate Picks(b: Books, u: UserId, ids: seq<nat>, n: nat) {
    && n <= |b.reservations|
    && (forall k :: 0 <= k < |ids| ==> ids[k] < n && Selected(b, u, ids[k]))
    && (forall j, k :: 0 <= j < k < |ids| ==> ids[j] < ids[k])
    && forall i: nat :: i < n && Selected(b, u, i) ==> i in ids
  }

  /** How far the sweep has come when the holds before `k` are treated. */
  function Reached(ids: seq<nat>, k: nat, n: nat): nat
    requires k <= |ids|
  {
    if k < |ids| then ids[k] else n
  }

  /** A sweep touches neither the rows it has not reached nor the set of ended jobs. */
  lemma {:induction false} SweepLeaves(b: Books, u: UserId, n: nat, i: nat)
    requires n <= i < |b.reservations|
    ensures SweepTo(b, u, n).reservations[i] == b.reservations[i] && SweepTo(b, u, n).ended == b.ended
  {
    hide HasKey, AccountOf, Linked, Metered;
    if n > 0 {
      SweepLeaves(b, u, n - 1, i);
      SweepLeaves(b, u, n - 1, n - 1);
    }
  }

  /** Positions that are not selected are passed without effect. */
  lemma {:induction false} Skip(b: Books, u: UserId, low: nat, high: nat)
    requires low <= high <= |b.reservations| && forall i: nat :: low <= i < high ==> !Selected(b, u, i)
    ensures SweepTo(b, u, high) == SweepTo(b, u, low)
    decreases high
  {
    hide SweepHold;
    if low < high {
      Skip(b, u, low, high - 1);
      SweepLeaves(b, u, high - 1, high - 1);
      assert !Selected(b, u, high - 1);
    }
  }

  lemma SkipAll(b: Books, u: UserId, ids: seq<nat>, k: nat, low: nat, n: nat)
    requires Picks(b, u, ids, n) && n == |b.reservations| && k <= |ids| && low <= n
    requires low == if k == 0 then 0 else ids[k - 1] + 1
    ensures low <= Reached(ids, k, n) <= n
    ensures SweepTo(b, u, Reached(ids, k, n)) == SweepTo(b, u, low)
  {
    hide Selected, SweepTo;
    forall j | 0 <= j < |ids| ensures ids[j] < low || Reached(ids, k, n) <= ids[j] {
      if j < k {
        assert j < k - 1 ==> ids[j] < ids[k - 1];
      } else {
        assert k < j ==> ids[k] < ids[j];
      }
    }
    assert forall i: nat :: low <= i < Reached(ids, k, n) ==> i !in ids;
    Skip(b, u, low, Reached(ids, k, n));
  }

}
