/** The promises of the billing service. */
module LedgerTheorems {
  import opened Options
  import opened Sums
  import opened Ledger
  import opened LedgerLaws

  // ----- Balances

  /** After any operations, every account equals its active holds, its ledger rows, and admin credit less settlements;
      what is available is short by at most what overruns charged beyond their holds. */
  lemma AccountsAlwaysAgree(ops: seq<Op>, u: UserId)
    ensures var b := Run(EMPTY_BOOKS, ops); var a := AccountOf(b, u);
      && a.reserved == Sum(b.reservations, ActiveBy(u)) == Sum(b.ledger, ReservedBy(u))
      && a.balance == Sum(b.ledger, BalanceBy(u)) == Sum(b.ledger, AdminBy(u)) - Sum(b.reservations, SettledBy(u))
      && a.balance == a.credited - a.debited
      && Available(a) >= -Sum(b.reservations, OverrunBy(u))
  {
    EmptyIsOk();
    RunKeepsInv(EMPTY_BOOKS, ops);
    var b := Run(EMPTY_BOOKS, ops);
    hide Run, ReservationsOk, KeysOk, RowsOk;
    assert AccountOk(b, u);
  }

  lemma NoExcess(rs: seq<Reservation>, u: UserId)
    requires ReservationsOk(rs) && forall i :: 0 <= i < |rs| && rs[i].user == u ==> rs[i].status != Overrun
    ensures Sum(rs, OverrunBy(u)) == 0 && Sum(rs, ActiveBy(u)) >= 0
  {
    assert forall i :: 0 <= i < |rs| ==> OverrunBy(u)(rs[i]) == 0;
    SumZero(rs, |rs|, OverrunBy(u));
    assert forall i :: 0 <= i < |rs| ==> ReservationOk(rs[i]) && ActiveBy(u)(rs[i]) >= 0;
    SumNonNegative(rs, |rs|, ActiveBy(u));
  }

  /** Without overruns an account never owes more than it has. */
  lemma NoOverrunIsSolvent(b: Books, u: UserId)
    requires Inv(b)
    requires forall i :: 0 <= i < |b.reservations| && b.reservations[i].user == u ==>
      b.reservations[i].status != Overrun
    ensures AccountOf(b, u).balance >= AccountOf(b, u).reserved >= 0
  {
    hide ReservationsOk, KeysOk, RowsOk;
    NoExcess(b.reservations, u);
    assert AccountOk(b, u);
  }

  /** The totals written in the user's last row among the first `n`, or zeros. */
  ghost function LastTotals(ledger: seq<Row>, u: UserId, n: nat): (Money, Money)
    requires n <= |ledger|
  {
    if n == 0 then (0, 0)
    else if ledger[n - 1].user == u then (ledger[n - 1].balanceAfter, ledger[n - 1].reservedAfter)
    else LastTotals(ledger, u, n - 1)
  }

  lemma {:induction false} LastTotalsAreSums(ledger: seq<Row>, u: UserId, n: nat)
    requires RowsOk(ledger) && n <= |ledger|
    ensures LastTotals(ledger, u, n) == (SumTo(ledger, n, BalanceBy(u)), SumTo(ledger, n, ReservedBy(u)))
  {
    if n > 0 {
      assert RowOk(ledger, n - 1);
      LastTotalsAreSums(ledger, u, n - 1);
    }
  }

  /** Replaying the ledger gives back the account: its last row already carries the present totals. */
  lemma LedgerReplays(b: Books, u: UserId)
    requires Inv(b)
    ensures LastTotals(b.ledger, u, |b.ledger|) == (AccountOf(b, u).balance, AccountOf(b, u).reserved)
  {
    assert AccountOk(b, u);
    hide ReservationsOk, KeysOk, AccountsOk;
    LastTotalsAreSums(b.ledger, u, |b.ledger|);
  }

  // ----- The ledger only grows, and never silently stands still

  ghost predicate Extends(after: seq<Row>, before: seq<Row>) {
    |before| <= |after| && forall k :: 0 <= k < |before| ==> after[k] == before[k]
  }

  lemma {:induction false} SweepExtends(b: Books, u: UserId, n: nat)
    requires n <= |b.reservations|
    ensures Extends(SweepTo(b, u, n).ledger, b.ledger)
  {
    hide Linked, Selected, Metered, HasKey, AccountOf;
    if n > 0 {
      SweepExtends(b, u, n - 1);
    }
  }

  lemma ReserveExtends(b: Books, u: UserId, amount: Money, requested: Reference, job: Option<JobId>)
    ensures Extends(Reserve(b, u, amount, requested, job).0.ledger, b.ledger)
  {
    ReserveCases(b, u, amount, requested, job);
    SweepExtends(WithAccount(b, u), u, |b.reservations|);
    hide Reserve, SweepTo, HasKey, AccountOf;
  }

  lemma StepExtends(b: Books, op: Op)
    ensures Extends(Step(b, op).ledger, b.ledger)
  {
    hide Reserve, SweepTo, HasKey, AccountOf, FindFrom, RowFrom;
    match op
    case DoSummary(u) => SweepExtends(WithAccount(b, u), u, |b.reservations|);
    case DoReserve(u, amount, reference, job) => ReserveExtends(b, u, amount, reference, job);
    case _ =>
  }

  lemma SameRowsSameAccount(b: Books, c: Books, u: UserId)
    requires AccountOk(b, u) && AccountOk(c, u) && Extends(c.ledger, b.ledger)
    ensures |c.ledger| == |b.ledger| ==>
      AccountOf(c, u).balance == AccountOf(b, u).balance && AccountOf(c, u).reserved == AccountOf(b, u).reserved
  {
    if |c.ledger| == |b.ledger| {
      assert c.ledger == b.ledger;
    }
  }

  /** _append never answers a real mutation with an old row: an account that moved has a new row to show for it. */
  lemma NoSilentChange(b: Books, op: Op, u: UserId)
    requires Inv(b)
    requires AccountOf(Step(b, op), u).balance != AccountOf(b, u).balance
      || AccountOf(Step(b, op), u).reserved != AccountOf(b, u).reserved
    ensures |Step(b, op).ledger| > |b.ledger|
  {
    hide Step, AccountOk, ReservationsOk, KeysOk, RowsOk;
    StepExtends(b, op);
    StepKeepsInv(b, op);
    assert AccountOk(b, u) && AccountOk(Step(b, op), u);
    SameRowsSameAccount(b, Step(b, op), u);
  }

  // ----- The life of a reservation

  /** Unchanged, or closed for the first time. */
  ghost predicate Progress(r: Reservation, q: Reservation) {
    || q == r
    || (r.status == Active && q.status != Active && q == r.(settled := q.settled, status := q.status))
  }

  ghost predicate AllProgress(b: Books, c: Books) {
    && |b.reservations| <= |c.reservations|
    && forall i :: 0 <= i < |b.reservations| ==> Progress(b.reservations[i], c.reservations[i])
  }

  /** What a sweep leaves alone: which jobs have ended and which requests have succeeded. */
  ghost predicate SameMetering(b: Books, c: Books) {
    && c.ended == b.ended && c.requests.Keys == b.requests.Keys
    && forall q :: q in b.requests ==> (c.requests[q] == Succeeded <==> b.requests[q] == Succeeded)
  }

  lemma MeteringDecides(b: Books, c: Books, u: UserId, i: nat)
    requires SameMetering(b, c) && i < |b.reservations| && i < |c.reservations|
      && c.reservations[i] == b.reservations[i]
    ensures Selected(c, u, i) == Selected(b, u, i) && Metered(c, c.reservations[i]) == Metered(b, b.reservations[i])
  {
  }

  /** The sweep releases exactly the active holds of ended jobs whose request is not recorded succeeded. */
  lemma {:induction false} SweepIsExact(b: Books, u: UserId, n: nat, i: nat)
    requires n <= |b.reservations| && i < |b.reservations|
    ensures SameMetering(b, SweepTo(b, u, n))
    ensures SweepTo(b, u, n).reservations[i] ==
      if i < n && Selected(b, u, i) && !Metered(b, b.reservations[i])
      then b.reservations[i].(status := Released) else b.reservations[i]
  {
    hide SweepHold, Selected, Metered;
    if n > 0 {
      var c := SweepTo(b, u, n - 1);
      SweepIsExact(b, u, n - 1, i);
      SweepIsExact(b, u, n - 1, n - 1);
      MeteringDecides(b, c, u, n - 1);
      SweepStepIsExact(c, u, n - 1, i);
    }
  }

  lemma SweepStepIsExact(b: Books, u: UserId, at: nat, i: nat)
    requires at < |b.reservations| && i < |b.reservations|
    ensures var c := if Selected(b, u, at) then SweepHold(b, at) else b;
      && SameMetering(b, c)
      && c.reservations[i] == if i == at && Selected(b, u, at) && !Metered(b, b.reservations[at])
                              then b.reservations[i].(status := Released) else b.reservations[i]
  {
  }

  lemma SweepProgress(b: Books, u: UserId)
    ensures AllProgress(b, Sweep(WithAccount(b, u), u))
  {
    var c := WithAccount(b, u);
    forall i | 0 <= i < |b.reservations| ensures Progress(b.reservations[i], Sweep(c, u).reservations[i]) {
      SweepIsExact(c, u, |b.reservations|, i);
    }
  }

  lemma ReserveProgress(b: Books, u: UserId, amount: Money, requested: Reference, job: Option<JobId>)
    ensures AllProgress(b, Reserve(b, u, amount, requested, job).0)
  {
    ReserveCases(b, u, amount, requested, job);
    SweepProgress(b, u);
    hide Reserve, Sweep, HasKey, AccountOf;
  }

  lemma StepProgress(b: Books, op: Op)
    ensures AllProgress(b, Step(b, op))
  {
    hide Reserve, Sweep, HasKey, AccountOf, RowFrom;
    match op
    case DoSummary(u) => SweepProgress(b, u);
    case DoReserve(u, amount, reference, job) => ReserveProgress(b, u, amount, reference, job);
    case _ =>
  }

  /** Over any run a reservation is closed at most once: after settled, overrun or released nothing about it changes. */
  lemma {:induction false} ClosedOnce(b: Books, ops: seq<Op>)
    ensures AllProgress(b, Run(b, ops))
  {
    hide Step;
    if ops != [] {
      ClosedOnce(b, ops[..|ops| - 1]);
      StepProgress(Run(b, ops[..|ops| - 1]), ops[|ops| - 1]);
    }
  }

  /** Two rows for one settlement are the same row: a reservation is charged at most once. */
  lemma ChargedOnce(ops: seq<Op>, reservation: nat, i: nat, j: nat)
    requires var b := Run(EMPTY_BOOKS, ops);
      i < |b.ledger| && j < |b.ledger| && b.ledger[i].key == b.ledger[j].key == SettleKey(reservation)
    ensures i == j && reservation < |Run(EMPTY_BOOKS, ops).reservations|
    ensures Run(EMPTY_BOOKS, ops).reservations[reservation].status in {Settled, Overrun}
  {
    EmptyIsOk();
    RunKeepsInv(EMPTY_BOOKS, ops);
    hide Run;
    var b := Run(EMPTY_BOOKS, ops);
    assert KeyOk(b.reservations, b.ledger[i].key);
  }

  lemma AdjustOnce(b: Books, u: UserId, amount: Money, reason: string, key: string)
    ensures var c := Adjust(b, u, amount, reason, key).0; Adjust(c, u, amount, reason, key).0 == c
  {
    hide AccountOf;
    var c := Adjust(b, u, amount, reason, key).0;
    if c != b {
      assert c.ledger[|b.ledger|].key == AdminKey(key);
    }
  }

  lemma {:induction false} SameReferencesSameFind(rs: seq<Reservation>, qs: seq<Reservation>, reference: Reference,
      i: nat)
    requires |rs| == |qs| && i <= |rs| && forall k :: 0 <= k < |rs| ==> rs[k].reference == qs[k].reference
    ensures FindFrom(rs, reference, i) == FindFrom(qs, reference, i)
    decreases |rs| - i
  {
    if i < |rs| {
      SameReferencesSameFind(rs, qs, reference, i + 1);
    }
  }

  lemma SettleOnce(b: Books, i: nat, actual: Money)
    ensures var c := Settle(b, i, actual).0; Settle(c, i, actual).0 == c
    ensures |Settle(b, i, actual).0.reservations| == |b.reservations|
    ensures forall k :: 0 <= k < |b.reservations| ==>
      Settle(b, i, actual).0.reservations[k].reference == b.reservations[k].reference
  {
  }

  lemma SettleReferenceOnce(b: Books, requested: Reference, actual: Money)
    ensures var c := SettleReference(b, requested, actual).0; SettleReference(c, requested, actual).0 == c
  {
    var found := Find(b.reservations, Normalized(requested));
    if found.Some? {
      SettleOnce(b, found.value, actual);
      SameReferencesSameFind(b.reservations, Settle(b, found.value, actual).0.reservations, Normalized(requested), 0);
      hide Settle, FindFrom;
    }
  }

  lemma ReleaseOnce(b: Books, i: nat)
    ensures var c := Release(b, i).0; Release(c, i).0 == c
  {
  }

  lemma ReserveOnce(b: Books, u: UserId, amount: Money, requested: Reference, job: Option<JobId>)
    ensures var c := Reserve(b, u, amount, requested, job).0; Reserve(c, u, amount, requested, job).0 == c
  {
    var c := Reserve(b, u, amount, requested, job).0;
    ReserveCases(b, u, amount, requested, job);
    hide Sweep, HasKey, AccountOf, FindFrom;
    if c != b {
      var swept := Sweep(WithAccount(b, u), u);
      assert IsReference(c.reservations, Normalized(requested), |swept.reservations|);
    }
  }

  /** Repeating a request has no further effect. */
  lemma RetryIsHarmless(b: Books, op: Op)
    requires op.DoSettle? || op.DoSettleReference? || op.DoRelease? || op.DoReserve? || op.DoAdjust?
    ensures Step(Step(b, op), op) == Step(b, op)
  {
    hide Settle, SettleReference, Release, Reserve, Adjust, Summary, BeginText, BeginImage, Finish;
    match op
    case DoSettle(i, actual) => SettleOnce(b, i, actual);
    case DoSettleReference(reference, actual) => SettleReferenceOnce(b, reference, actual);
    case DoRelease(i) => ReleaseOnce(b, i);
    case DoReserve(u, amount, reference, job) => ReserveOnce(b, u, amount, reference, job);
    case DoAdjust(u, amount, reason, key) => AdjustOnce(b, u, amount, reason, key);
  }

  // ----- Metered requests and the sweep

  /** The run neither releases hold `i` by hand nor takes its request out of "succeeded": it records no failure for it
      and does not restart its picture after losing the cached file. */
  ghost predicate KeepsMetered(op: Op, i: nat, q: Request) {
    match op
    case DoRelease(j) => j != i
    case DoFinish(request, ok) => request != q || ok
    case DoBeginImage(id, cached) => Request(ImageModel, id) != q || cached
    case _ => true
  }

  /** Hold `i` is open or charged, and its request is recorded succeeded. */
  ghost predicate MeteredHold(b: Books, i: nat, q: Request) {
    && i < |b.reservations| && b.reservations[i].status != Released
    && !b.reservations[i].reference.kind.Other?
      && q == Request(b.reservations[i].reference.kind, b.reservations[i].reference.id)
    && q in b.requests && b.requests[q] == Succeeded
  }

  lemma SweepKeepsMetered(b: Books, u: UserId, i: nat, q: Request)
    requires MeteredHold(b, i, q)
    ensures MeteredHold(Sweep(WithAccount(b, u), u), i, q)
  {
    SweepIsExact(WithAccount(b, u), u, |b.reservations|, i);
    hide SweepTo;
  }

  /** The condition is exact: for an open hold any other step does break the pairing of hold and success. */
  lemma StepKeepsMetered(b: Books, op: Op, i: nat, q: Request)
    requires MeteredHold(b, i, q)
    ensures KeepsMetered(op, i, q) ==> MeteredHold(Step(b, op), i, q)
    ensures b.reservations[i].status == Active && !KeepsMetered(op, i, q) ==> !MeteredHold(Step(b, op), i, q)
  {
    hide Sweep, HasKey, AccountOf, RowFrom;
    match op
    case DoSummary(u) => SweepKeepsMetered(b, u, i, q);
    case DoReserve(u, amount, reference, job) =>
      ReserveCases(b, u, amount, reference, job);
      SweepKeepsMetered(b, u, i, q);
      hide Reserve;
    case _ =>
  }

  /** A hold whose request is recorded succeeded is never swept: whatever jobs end, it stays until it is charged. */
  lemma {:induction false} MeteredHoldSurvives(b: Books, ops: seq<Op>, i: nat, q: Request)
    requires MeteredHold(b, i, q) && forall k :: 0 <= k < |ops| ==> KeepsMetered(ops[k], i, q)
    ensures MeteredHold(Run(b, ops), i, q)
  {
    hide Step, KeepsMetered, MeteredHold;
    if ops != [] {
      MeteredHoldSurvives(b, ops[..|ops| - 1], i, q);
      StepKeepsMetered(Run(b, ops[..|ops| - 1]), ops[|ops| - 1], i, q);
    }
  }

  lemma RunAppend(b: Books, ops: seq<Op>, op: Op)
    ensures Run(b, ops + [op]) == Step(Run(b, ops), op)
  {
    assert (ops + [op])[..|ops|] == ops;
  }

  const PICTURE := Request(ImageModel, "p")
  const PICTURE_HOLD := Reservation(1, Some(7), Reference(ImageModel, "p", 1), 100, 0, Active)

  /** A user is registered and credited; a picture is begun, held for and finished. */
  const PICTURE_MADE := [
    DoRegister(1), DoAdjust(1, 500, "grant", "k"), DoBeginImage("p", true),
    DoReserve(1, 100, Reference(ImageModel, "p", 1), Some(7)), DoFinish(PICTURE, true)]

  /** The same picture is asked for after its cached file was lost, then the job ends and the user's account is read. */
  const PICTURE_LOST := [DoBeginImage("p", false), DoEndJob(7), DoSummary(1)]

  function CreditRow(): Row { Row(1, AdminKey("k"), 500, 0, 500, 0) }

  function Credited(): Books { Books({1}, map[1 := Account(500, 0, 500, 0)], [], [CreditRow()], {}, map[]) }

  function Made(): Books {
    Books({1}, map[1 := Account(500, 100, 500, 0)], [PICTURE_HOLD],
          [CreditRow(), Row(1, ReserveKey(PICTURE_HOLD.reference), 0, 100, 500, 100)], {}, map[PICTURE := Succeeded])
  }

  lemma CreditedRun()
    ensures Run(EMPTY_BOOKS, PICTURE_MADE[..2]) == Credited()
  {
    assert PICTURE_MADE[..2] == [] + [PICTURE_MADE[0]] + [PICTURE_MADE[1]];
    RunAppend(EMPTY_BOOKS, [], PICTURE_MADE[0]);
    RunAppend(EMPTY_BOOKS, [PICTURE_MADE[0]], PICTURE_MADE[1]);
  }

  lemma MadeFromCredited()
    ensures var begun := Credited().(requests := map[PICTURE := InFlight]);
      && Step(Credited(), PICTURE_MADE[2]) == begun
      && Step(Step(begun, PICTURE_MADE[3]), PICTURE_MADE[4]) == Made()
  {
    var begun := Credited().(requests := map[PICTURE := InFlight]);
    assert WithAccount(begun, 1) == begun;
    assert Sweep(begun, 1) == begun;
  }

  lemma MadeRun()
    ensures Run(EMPTY_BOOKS, PICTURE_MADE) == Made()
  {
    hide Step;
    CreditedRun();
    MadeFromCredited();
    RunAppend(EMPTY_BOOKS, PICTURE_MADE[..2], PICTURE_MADE[2]);
    assert PICTURE_MADE[..2] + [PICTURE_MADE[2]] == PICTURE_MADE[..3];
    RunAppend(EMPTY_BOOKS, PICTURE_MADE[..3], PICTURE_MADE[3]);
    assert PICTURE_MADE[..3] + [PICTURE_MADE[3]] == PICTURE_MADE[..4];
    RunAppend(EMPTY_BOOKS, PICTURE_MADE[..4], PICTURE_MADE[4]);
    assert PICTURE_MADE[..4] + [PICTURE_MADE[4]] == PICTURE_MADE;
  }

  lemma LostFromMade()
    ensures var swept := Step(Step(Step(Made(), PICTURE_LOST[0]), PICTURE_LOST[1]), PICTURE_LOST[2]);
      |swept.reservations| == 1 && swept.reservations[0] == PICTURE_HOLD.(status := Released)
  {
    var ended := Made().(requests := map[PICTURE := InFlight], ended := {7});
    assert Step(Step(Made(), PICTURE_LOST[0]), PICTURE_LOST[1]) == ended;
    SweepIsExact(WithAccount(ended, 1), 1, 1, 0);
  }

  /** The exception is real: a finished picture whose cached file is lost is begun again, and when the job then ends
      the sweep releases the hold of the attempt that had succeeded, which can then not be charged any more. */
  lemma LostPictureLosesItsCharge(actual: Money)
    requires actual >= 0
    ensures var b := Run(EMPTY_BOOKS, PICTURE_MADE); MeteredHold(b, 0, PICTURE) && b.reservations[0].status == Active
    ensures var c := Run(EMPTY_BOOKS, PICTURE_MADE + PICTURE_LOST);
      && |c.reservations| == 1 && c.reservations[0].status == Released
      && Settle(c, 0, actual) == (c, Conflict)
  {
    MadeRun();
    LostFromMade();
    hide Step;
    var ops := PICTURE_MADE;
    RunAppend(EMPTY_BOOKS, ops, PICTURE_LOST[0]);
    RunAppend(EMPTY_BOOKS, ops + PICTURE_LOST[..1], PICTURE_LOST[1]);
    RunAppend(EMPTY_BOOKS, ops + PICTURE_LOST[..2], PICTURE_LOST[2]);
    assert ops + [PICTURE_LOST[0]] == ops + PICTURE_LOST[..1];
    assert ops + PICTURE_LOST[..1] + [PICTURE_LOST[1]] == ops + PICTURE_LOST[..2];
    assert ops + PICTURE_LOST[..2] + [PICTURE_LOST[2]] == ops + PICTURE_LOST;
  }
}
