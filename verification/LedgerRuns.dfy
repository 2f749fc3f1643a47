/** Runs of the ledger: any number of transactions in any order, repeated at will. */
module LedgerRuns {
  import opened Options
  import opened Distribution
  import opened Sessions
  import opened Ledger
  import opened LedgerInvariants

  datatype Step =
    | AddFree(user: nat, minutes: int, expires: Time)
    | AddPurchase(user: nat, event: string, minutes: int)
    | AddSubscription(user: nat, event: string, minutes: int)
    | AddAdmin(user: nat, minutes: int)
    | Open(user: nat, minutes: int, now: Time, order: seq<nat>)
    | Speak(s: nat)                                   // a candidate message is saved
    | Lock(s: nat)                                    // active -> generating
    | Unlock(s: nat)                                  // generating -> active
    | Judge(s: nat, status: Status)                   // a status write by an evaluation job
    | End(s: nat, cancel: bool, turnCount: int, now: Time, rows: seq<Row>)
    | Clean(now: Time, ids: seq<nat>, orders: seq<seq<Row>>)
    | Fail(s: nat, active: bool, rows: seq<Row>)      // `active`: as the status read found it

  predicate RanksReserves(t: Tables, s: nat, order: seq<Row>) {
    multiset(order) == multiset(ReserveRows(t.entries, s))
  }

  // The session named by a step exists and the database's free choices are proper ones.
  predicate Legal(t: Tables, step: Step) {
    match step
    case AddFree(_, _, _) | AddPurchase(_, _, _) | AddSubscription(_, _, _) | AddAdmin(_, _) => true
    case Open(user, minutes, now, order) => 1 <= minutes <= 180 && IsRanking(t, user, now, order)
    case Speak(s) => s < |t.sessions|
    case Lock(s) => s < |t.sessions|
    case Unlock(s) => s < |t.sessions|
    case Judge(s, status) => s < |t.sessions| && status in {Evaluating, Reviewed, EvaluationFailed}
    case End(s, _, _, _, rows) => s < |t.sessions| && RanksReserves(t, s, rows)
    case Clean(now, ids, orders) =>
      && |orders| == |t.sessions| && ListsCancelled(t, now, ids)
      && forall i | 0 <= i < |ids| :: RanksReserves(t, ids[i], orders[ids[i]])
    case Fail(s, _, rows) => s < |t.sessions| && RanksReserves(t, s, rows)
  }

  function Perform(t: Tables, step: Step): Tables
    requires Legal(t, step)
  {
    match step
    case AddFree(user, minutes, expires) => EnsureFreeGrant(t, user, minutes, expires)
    case AddPurchase(user, event, minutes) => CreatePurchaseGrant(t, user, event, minutes)
    case AddSubscription(user, event, minutes) => CreateSubscriptionGrant(t, user, event, minutes)
    case AddAdmin(user, minutes) => CreateAdminGrant(t, user, minutes)
    case Open(user, minutes, now, order) =>
      var r := OpenSession(t, user, minutes, now, order); if r.Some? then r.value else t
    case Speak(s) => PutSession(t, s, t.sessions[s].(spoken := true))
    case Lock(s) => if t.sessions[s].status == Active then PutSession(t, s, t.sessions[s].(status := Generating)) else t
    case Unlock(s) => if t.sessions[s].status == Generating then PutSession(t, s, t.sessions[s].(status := Active)) else t
    case Judge(s, status) => PutSession(t, s, t.sessions[s].(status := status))
    case End(s, cancel, turnCount, now, rows) => EndSession(t, s, cancel, turnCount, now, rows)
    case Clean(now, ids, orders) => Cleanup(t, now, ids, orders)
    case Fail(s, active, rows) => FailSession(t, s, active, rows)
  }

  predicate LegalRun(t: Tables, steps: seq<Step>)
    decreases |steps|
  {
    steps == [] || (Legal(t, steps[0]) && LegalRun(Perform(t, steps[0]), steps[1..]))
  }

  function Run(t: Tables, steps: seq<Step>): Tables
    requires LegalRun(t, steps)
    decreases |steps|
  {
    if steps == [] then t else Run(Perform(t, steps[0]), steps[1..])
  }

  const EMPTY := Tables([], [], [])

  // The step asks for a refund of session s, which FailSession has already refunded, and
  // no marker stops it.
  predicate RefundsFailed(t: Tables, step: Step, s: nat) {
    && (step.End? || (step.Fail? && step.active)) && step.s == s
    && HasReason(t, s, ErrorRefund) && !HasReason(t, s, SessionRefund)
  }

  predicate NeverRefundsFailed(t: Tables, steps: seq<Step>, s: nat)
    requires LegalRun(t, steps)
    decreases |steps|
  {
    steps == [] || (!RefundsFailed(t, steps[0], s) && NeverRefundsFailed(Perform(t, steps[0]), steps[1..], s))
  }

  // ---- One refund statement ----

  lemma {:induction false} CreditKeepsBooks(t: Tables, s: nat, total: int, reason: Reason, order: seq<Row>)
    requires Books(t) && s < |t.sessions| && RanksReserves(t, s, order) && total >= 0
    requires reason == SessionRefund || reason == ErrorRefund
    ensures var t' := Credit(t, s, total, reason, order);
            Books(t') && forall k: nat :: ReserveRows(t'.entries, k) == ReserveRows(t.entries, k)
  {
    if !HasReason(t, s, SessionRefund) {
      CreditFits(t, s, total, order);
      var moves := Accepted(t.grants, Distribute(order, total));
      MoveBooks(t, t.sessions[s].user, moves, reason, s);
      MoveReasons(t, t.sessions[s].user, moves, reason, s);
    }
  }

  // ---- Ending a session ----

  // The price of a session that ran for `elapsed`: started minutes, at least one,
  // never more than was reserved.
  function Price(row: Session, now: Time): int { Least(row.reserved, BilledMinutes(now - row.started)) }

  // What the price is: the least number of whole minutes, at least one, that covers the
  // elapsed microseconds, capped at the reservation.
  predicate IsPrice(price: int, reserved: int, elapsed: Time) {
    && 1 <= price <= reserved
    && (price < reserved ==> elapsed <= price * 60_000_000)
    && (price > 1 ==> (price - 1) * 60_000_000 < elapsed)
  }

  lemma {:induction false} BilledMinutesCover(elapsed: Time)
    ensures var n := BilledMinutes(elapsed);
            && n >= 1 && elapsed <= n * 60_000_000
            && (n == 1 || (n - 1) * 60_000_000 < elapsed)
  {
  }

  // Nothing else is a price.
  lemma {:induction false} PriceIff(row: Session, now: Time, price: int)
    requires row.reserved >= 1
    ensures IsPrice(price, row.reserved, now - row.started) <==> price == Price(row, now)
  {
    BilledMinutesCover(now - row.started);
  }

  // A refund statement that finds no end time bills one minute, as if no time had passed.
  lemma {:induction false} RefundWithoutEnd(row: Session)
    requires row.reserved >= 1 && row.ended.None?
    ensures IsPrice(row.reserved - RefundTotal(row), row.reserved, 0)
  {
  }

  // Some reserved minute is left over.
  predicate LeavesMinutes(reserved: int, elapsed: Time) { reserved > 1 && elapsed <= (reserved - 1) * 60_000_000 }

  lemma {:induction false} LeavesMinutesIff(row: Session, now: Time)
    requires row.reserved >= 1
    ensures LeavesMinutes(row.reserved, now - row.started) <==> BilledMinutes(now - row.started) < row.reserved
  {
    BilledMinutesCover(now - row.started);
  }

  lemma {:induction false} EndKeepsBooks(t: Tables, s: nat, cancel: bool, turnCount: int, now: Time, order: seq<Row>)
    requires Books(t) && s < |t.sessions| && RanksReserves(t, s, order)
    ensures Books(EndSession(t, s, cancel, turnCount, now, order))
  {
    var t1 := PutSession(t, s, EndRow(t.sessions[s], cancel, turnCount, now));
    StatusWrites(t, t1);
    CreditKeepsBooks(t1, s, RefundTotal(t1.sessions[s]), SessionRefund, order);
  }

  lemma {:induction false} SameReasons(t: Tables, t': Tables, s: nat)
    requires t'.entries == t.entries
    ensures forall r: Reason :: HasReason(t', s, r) == HasReason(t, s, r)
    ensures Charge(t', s) == Charge(t, s)
  {
  }

  // What writing session s and then crediting it leaves of the other sessions.
  ghost predicate OthersStay(t: Tables, t': Tables, s: nat) {
    && |t'.sessions| == |t.sessions|
    && (forall k: nat | k != s && k < |t.sessions| ::
          t'.sessions[k] == t.sessions[k] && (Bounded(t, k) ==> Bounded(t', k)))
    && (forall k: nat | k != s :: Charge(t', k) == Charge(t, k))
    && (forall k: nat, r: Reason | k != s :: HasReason(t', k, r) == HasReason(t, k, r))
  }

  lemma {:induction false} WriteAndCreditFrame(t: Tables, s: nat, row: Session, total: int, reason: Reason,
                                               order: seq<Row>)
    requires s < |t.sessions| && (reason == SessionRefund || reason == ErrorRefund)
    ensures OthersStay(t, Credit(PutSession(t, s, row), s, total, reason, order), s)
  {
    var t1 := PutSession(t, s, row);
    CreditFrame(t1, s, total, reason, order);
    forall k: nat, r: Reason ensures HasReason(t1, k, r) == HasReason(t, k, r) && Charge(t1, k) == Charge(t, k) {
      SameReasons(t, t1, k);
    }
    forall k: nat | k != s && k < |t.sessions| && Bounded(t, k) ensures Bounded(t1, k) {
    }
  }

  // A row write and the refund after it, seen from the session. With the marker there
  // nothing moves; without it the refund pays what the filter accepts.
  ghost predicate Settles(t: Tables, t': Tables, s: nat, total: int, reason: Reason, order: seq<Row>)
    requires s < |t.sessions| == |t'.sessions|
  {
    var shares := Distribute(order, total);
    && (HasReason(t, s, SessionRefund) ==> t'.grants == t.grants && t'.entries == t.entries)
    && (!HasReason(t, s, SessionRefund) ==>
          && Charge(t, s) - total <= Charge(t', s) <= Charge(t, s)
          && (Charge(t', s) == Charge(t, s) - total <==> AllLand(t.grants, shares))
          && (Charge(t', s) < Charge(t, s) <==> exists m | m in shares :: Lands(t.grants, m))
          && (HasReason(t', s, reason) <==> HasReason(t, s, reason) || exists m | m in shares :: Lands(t.grants, m)))
    && (!Refunded(t, s) ==> Bounded(t', s) && (UserBounded(t, t.sessions[s].user) ==> AllLand(t.grants, shares)))
    && (forall r: Reason | r != reason :: HasReason(t', s, r) == HasReason(t, s, r))
  }

  lemma {:induction false} WriteAndCredit(t: Tables, s: nat, row: Session, total: int, reason: Reason, order: seq<Row>)
    requires Books(t) && s < |t.sessions| && SameMinutes(t.sessions[s], row) && RanksReserves(t, s, order)
    requires 0 <= total <= row.reserved && (reason == SessionRefund || reason == ErrorRefund)
    ensures var t' := Credit(PutSession(t, s, row), s, total, reason, order);
            && t'.sessions == t.sessions[s := row]
            && Books(t') && Settles(t, t', s, total, reason, order)
  {
    var t1 := PutSession(t, s, row);
    StatusWrites(t, t1);
    SameReasons(t, t1, s);
    CreditFrame(t1, s, total, reason, order);
    CreditKeepsBooks(t1, s, total, reason, order);
    if !HasReason(t, s, SessionRefund) {
      CreditPays(t1, s, total, reason, order);
      if !Refunded(t, s) {
        FirstCredit(t1, s, total, reason, order);
        if UserBounded(t, row.user) { WriteKeepsUserBounded(t, s, row); }
      }
    }
  }

  lemma {:induction false} WriteKeepsUserBounded(t: Tables, s: nat, row: Session)
    requires s < |t.sessions| && SameMinutes(t.sessions[s], row) && UserBounded(t, row.user)
    ensures UserBounded(PutSession(t, s, row), row.user)
  {
    StatusWrites(t, PutSession(t, s, row));
  }

  // What an end call at `now` asks back.
  function Unspent(row: Session, now: Time): int { row.reserved - Price(row, now) }

  lemma {:induction false} RefundIsUnspent(t: Tables, s: nat, cancel: bool, turnCount: int, now: Time)
    requires Books(t) && s < |t.sessions|
    ensures RefundTotal(EndRow(t.sessions[s], cancel, turnCount, now)) == Unspent(t.sessions[s], now)
    ensures 0 <= Unspent(t.sessions[s], now) < t.sessions[s].reserved
  {
    assert ReserveSound(t, s);
  }

  // One end call, whatever was refunded before. On a session that no statement has
  // refunded it leaves the price exactly when the filter drops no share, and it drops none
  // as long as no session of the user has netted a gain.
  lemma {:induction false} EndSettles(t: Tables, s: nat, cancel: bool, turnCount: int, now: Time, order: seq<Row>)
    requires Books(t) && s < |t.sessions| && RanksReserves(t, s, order)
    ensures var t' := EndSession(t, s, cancel, turnCount, now, order);
            var row := t.sessions[s];
            var shares := Distribute(order, Unspent(row, now));
            && t'.sessions == t.sessions[s := row.(status := if cancel then Cancelled else Completed, ended := Some(now),
                                                   turnCount := turnCount, archived := row.archived || cancel)]
            && Books(t') && OthersStay(t, t', s)
            && Settles(t, t', s, Unspent(row, now), SessionRefund, order)
            && (!Refunded(t, s) ==>
                  && Price(row, now) <= Charge(t', s) <= row.reserved
                  && (IsPrice(Charge(t', s), row.reserved, now - row.started) <==> AllLand(t.grants, shares))
                  && (UserBounded(t, row.user) ==> IsPrice(Charge(t', s), row.reserved, now - row.started)))
  {
    var row := EndRow(t.sessions[s], cancel, turnCount, now);
    RefundIsUnspent(t, s, cancel, turnCount, now);
    WriteAndCredit(t, s, row, RefundTotal(row), SessionRefund, order);
    WriteAndCreditFrame(t, s, row, RefundTotal(row), SessionRefund, order);
    if !Refunded(t, s) {
      ChargeBeforeRefund(t, s);
      PriceIff(t.sessions[s], now, Charge(EndSession(t, s, cancel, turnCount, now, order), s));
    }
  }

  // An end call changes the charge exactly when no refund marker is there and some share
  // lands; on an unrefunded session of a user without gains, exactly when some reserved
  // minute is left over.
  lemma {:induction false} EndChangesChargeIff(t: Tables, s: nat, cancel: bool, turnCount: int, now: Time,
                                               order: seq<Row>)
    requires Books(t) && s < |t.sessions| && RanksReserves(t, s, order)
    ensures var t' := EndSession(t, s, cancel, turnCount, now, order);
            var row := t.sessions[s];
            var pays := exists m | m in Distribute(order, Unspent(row, now)) :: Lands(t.grants, m);
            && Charge(t', s) <= Charge(t, s)
            && (Charge(t', s) != Charge(t, s) <==> !HasReason(t, s, SessionRefund) && pays)
            && (!Refunded(t, s) && UserBounded(t, row.user) ==>
                  (pays <==> LeavesMinutes(row.reserved, now - row.started)))
  {
    EndSettles(t, s, cancel, turnCount, now, order);
    if HasReason(t, s, SessionRefund) {
      SameReasons(t, EndSession(t, s, cancel, turnCount, now, order), s);
    } else if !Refunded(t, s) {
      ChargeBeforeRefund(t, s);
      RefundIsUnspent(t, s, cancel, turnCount, now);
      LeavesMinutesIff(t.sessions[s], now);
    }
  }

  // ---- FailSession ----

  lemma {:induction false} FailKeepsBooks(t: Tables, s: nat, active: bool, order: seq<Row>)
    requires Books(t) && s < |t.sessions| && RanksReserves(t, s, order)
    ensures Books(FailSession(t, s, active, order))
  {
    if active {
      var t1 := PutSession(t, s, t.sessions[s].(status := Failed));
      StatusWrites(t, t1);
      assert ReserveSound(t, s);
      CreditKeepsBooks(t1, s, t1.sessions[s].reserved, ErrorRefund, order);
    }
  }

  // A session that FailSession found active asks everything back, unless an end call that
  // came between the read and the writes has left its refund marker. If nothing was
  // refunded before, it gets all of it exactly when the filter drops no share.
  lemma {:induction false} FailRefundsAll(t: Tables, s: nat, active: bool, order: seq<Row>)
    requires Books(t) && s < |t.sessions| && RanksReserves(t, s, order)
    ensures var t' := FailSession(t, s, active, order);
            var row := t.sessions[s];
            && Books(t') && OthersStay(t, t', s)
            && (!active ==> t' == t)
            && (active ==>
                  && t'.sessions == t.sessions[s := row.(status := Failed)]
                  && Settles(t, t', s, row.reserved, ErrorRefund, order)
                  && (!Refunded(t, s) ==>
                        && 0 <= Charge(t', s) <= row.reserved
                        && (Charge(t', s) == 0 <==> AllLand(t.grants, Distribute(order, row.reserved)))
                        && (UserBounded(t, row.user) ==> Charge(t', s) == 0 && HasReason(t', s, ErrorRefund))))
  {
    if active {
      var row := t.sessions[s].(status := Failed);
      assert ReserveSound(t, s);
      WriteAndCredit(t, s, row, row.reserved, ErrorRefund, order);
      WriteAndCreditFrame(t, s, row, row.reserved, ErrorRefund, order);
      if !Refunded(t, s) { ChargeBeforeRefund(t, s); }
    }
  }

  // The refund guards look for 'session_refund' only. Ending a session that has got
  // everything back pays out again exactly when the marker is missing, some share of the
  // unspent minutes is positive and its grant has room for it.
  lemma {:induction false} EndAfterFailPaysTwiceIff(t: Tables, s: nat, cancel: bool, turnCount: int, now: Time,
                                                    order: seq<Row>)
    requires Books(t) && s < |t.sessions| && RanksReserves(t, s, order) && Charge(t, s) == 0
    ensures var t' := EndSession(t, s, cancel, turnCount, now, order);
            && Charge(t', s) <= 0
            && (Charge(t', s) < 0 <==>
                 && !HasReason(t, s, SessionRefund)
                 && exists m | m in Distribute(order, Unspent(t.sessions[s], now)) :: Lands(t.grants, m))
  {
    EndChangesChargeIff(t, s, cancel, turnCount, now, order);
  }

  // A FailSession call that found the session active, the same for the whole reservation.
  lemma {:induction false} FailTwicePaysTwiceIff(t: Tables, s: nat, order: seq<Row>)
    requires Books(t) && s < |t.sessions| && RanksReserves(t, s, order) && Charge(t, s) == 0
    ensures var t' := FailSession(t, s, true, order);
            && Charge(t', s) <= 0
            && (Charge(t', s) < 0 <==>
                 && !HasReason(t, s, SessionRefund)
                 && exists m | m in Distribute(order, t.sessions[s].reserved) :: Lands(t.grants, m))
  {
    FailRefundsAll(t, s, true, order);
    if HasReason(t, s, SessionRefund) { SameReasons(t, FailSession(t, s, true, order), s); }
  }

  // ---- Cleanup ----

  lemma {:induction false} RefundAllKeepsBooks(t: Tables, ids: seq<nat>, orders: seq<seq<Row>>)
    requires Books(t) && |orders| == |t.sessions|
    requires forall i | 0 <= i < |ids| :: ids[i] < |t.sessions| && RanksReserves(t, ids[i], orders[ids[i]])
    ensures Books(RefundAll(t, ids, orders))
    decreases |ids|
  {
    if ids == [] {
    } else {
      assert ReserveSound(t, ids[0]);
      CreditKeepsBooks(t, ids[0], t.sessions[ids[0]].reserved, SessionRefund, orders[ids[0]]);
      RefundAllKeepsBooks(FullRefundSessionMinutes(t, ids[0], SessionRefund, orders[ids[0]]), ids[1..], orders);
    }
  }

  // The loop leaves every session alone that it does not list.
  lemma {:induction false} RefundAllFrame(t: Tables, ids: seq<nat>, orders: seq<seq<Row>>, k: nat)
    requires |orders| == |t.sessions| && forall i | 0 <= i < |ids| :: ids[i] < |t.sessions|
    requires k !in ids
    ensures var t' := RefundAll(t, ids, orders);
            && Charge(t', k) == Charge(t, k)
            && (forall r: Reason :: HasReason(t', k, r) == HasReason(t, k, r))
            && (k < |t.sessions| && Bounded(t, k) ==> Bounded(t', k))
    decreases |ids|
  {
    if ids == [] {
    } else {
      var s := ids[0];
      assert s in ids;
      CreditFrame(t, s, t.sessions[s].reserved, SessionRefund, orders[s]);
      RefundAllFrame(FullRefundSessionMinutes(t, s, SessionRefund, orders[s]), ids[1..], orders, k);
    }
  }

  // The rows the loop is about to refund.
  ghost predicate AwaitRefund(t: Tables, ids: seq<nat>, orders: seq<seq<Row>>) {
    && |orders| == |t.sessions|
    && (forall i, j | 0 <= i < j < |ids| :: ids[i] != ids[j])
    && forall i | 0 <= i < |ids| ::
         ids[i] < |t.sessions| && RanksReserves(t, ids[i], orders[ids[i]]) && !Refunded(t, ids[i])
  }

  lemma {:induction false} OthersStillAwait(t: Tables, ids: seq<nat>, orders: seq<seq<Row>>)
    requires AwaitRefund(t, ids, orders) && ids != []
    ensures var t1 := FullRefundSessionMinutes(t, ids[0], SessionRefund, orders[ids[0]]);
            AwaitRefund(t1, ids[1..], orders) && t1.sessions == t.sessions
  {
    var s := ids[0];
    var t1 := FullRefundSessionMinutes(t, s, SessionRefund, orders[s]);
    CreditFrame(t, s, t.sessions[s].reserved, SessionRefund, orders[s]);
    forall i | 0 <= i < |ids[1..]|
      ensures RanksReserves(t1, ids[1..][i], orders[ids[1..][i]]) && !Refunded(t1, ids[1..][i])
    {
      assert ids[1..][i] == ids[i + 1] && ids[i + 1] != s;
    }
  }

  lemma {:induction false} OneRefundOfMany(t: Tables, ids: seq<nat>, orders: seq<seq<Row>>)
    requires Books(t) && AwaitRefund(t, ids, orders) && ids != []
    ensures var s := ids[0];
            var t1 := FullRefundSessionMinutes(t, s, SessionRefund, orders[s]);
            && Books(t1) && Bounded(t1, s)
            && (Charge(t1, s) == 0 <==> AllLand(t.grants, Distribute(orders[s], t.sessions[s].reserved)))
            && (UserBounded(t, t.sessions[s].user) ==> Charge(t1, s) == 0 && HasReason(t1, s, SessionRefund))
  {
    var s := ids[0];
    assert ReserveSound(t, s);
    ChargeBeforeRefund(t, s);
    FirstCredit(t, s, t.sessions[s].reserved, SessionRefund, orders[s]);
    CreditPays(t, s, t.sessions[s].reserved, SessionRefund, orders[s]);
  }

  lemma {:induction false} OneRefundKeepsUserBounded(t: Tables, ids: seq<nat>, orders: seq<seq<Row>>, user: nat)
    requires Books(t) && AwaitRefund(t, ids, orders) && ids != [] && UserBounded(t, user)
    ensures UserBounded(FullRefundSessionMinutes(t, ids[0], SessionRefund, orders[ids[0]]), user)
  {
    OneRefundOfMany(t, ids, orders);
    CreditFrame(t, ids[0], t.sessions[ids[0]].reserved, SessionRefund, orders[ids[0]]);
  }

  // The tables when the loop comes to session s.
  function Reached(t: Tables, ids: seq<nat>, orders: seq<seq<Row>>, s: nat): (r: Tables)
    requires |orders| == |t.sessions| && forall i | 0 <= i < |ids| :: ids[i] < |t.sessions|
    ensures r.sessions == t.sessions
    decreases |ids|
  {
    if ids == [] || ids[0] == s then t
    else Reached(FullRefundSessionMinutes(t, ids[0], SessionRefund, orders[ids[0]]), ids[1..], orders, s)
  }

  // A listed session gets everything back exactly when the filter drops no share of it.
  lemma {:induction false} RefundAllSettles(t: Tables, ids: seq<nat>, orders: seq<seq<Row>>, s: nat)
    requires Books(t) && AwaitRefund(t, ids, orders) && s in ids
    ensures var t' := RefundAll(t, ids, orders);
            && Bounded(t', s)
            && (Charge(t', s) == 0 <==>
                 AllLand(Reached(t, ids, orders, s).grants, Distribute(orders[s], t.sessions[s].reserved)))
            && (UserBounded(t, t.sessions[s].user) ==> Charge(t', s) == 0 && HasReason(t', s, SessionRefund))
            && HasReason(t', s, ErrorRefund) == HasReason(t, s, ErrorRefund)
    decreases |ids|
  {
    var k := ids[0];
    var t1 := FullRefundSessionMinutes(t, k, SessionRefund, orders[k]);
    OneRefundOfMany(t, ids, orders);
    OthersStillAwait(t, ids, orders);
    CreditFrame(t, k, t.sessions[k].reserved, SessionRefund, orders[k]);
    if k == s {
      RefundAllFrame(t1, ids[1..], orders, s);
    } else {
      assert s in ids[1..];
      if UserBounded(t, t.sessions[s].user) { OneRefundKeepsUserBounded(t, ids, orders, t.sessions[s].user); }
      RefundAllSettles(t1, ids[1..], orders, s);
    }
  }

  lemma {:induction false} CleanupKeepsBooks(t: Tables, now: Time, ids: seq<nat>, orders: seq<seq<Row>>)
    requires Books(t) && Legal(t, Clean(now, ids, orders))
    ensures Books(Cleanup(t, now, ids, orders))
  {
    var t1 := CancelAbandonedEmptySessions(t, now);
    StatusWrites(t, t1);
    RefundAllKeepsBooks(t1, ids, orders);
    var t2 := RefundAll(t1, ids, orders);
    StatusWrites(t2, CompleteAbandonedActiveSessions(t2, now));
  }

  // What the batch updates around the loop leave alone.
  lemma {:induction false} BatchWrites(t: Tables, t': Tables, k: nat)
    requires t'.grants == t.grants && t'.entries == t.entries && |t'.sessions| == |t.sessions|
    requires forall s | 0 <= s < |t.sessions| :: SameMinutes(t.sessions[s], t'.sessions[s])
    ensures Charge(t', k) == Charge(t, k) && forall r: Reason :: HasReason(t', k, r) == HasReason(t, k, r)
    ensures k < |t.sessions| && Bounded(t, k) ==> Bounded(t', k)
    ensures forall user: nat :: UserBounded(t, user) ==> UserBounded(t', user)
  {
    StatusWrites(t, t');
    SameReasons(t, t', k);
  }

  // The tables between the first batch update and the loop, as the loop needs them.
  lemma {:induction false} CancelPhase(t: Tables, now: Time, ids: seq<nat>, orders: seq<seq<Row>>)
    requires Balanced(t) && Legal(t, Clean(now, ids, orders))
    ensures var t1 := CancelAbandonedEmptySessions(t, now); Books(t1) && AwaitRefund(t1, ids, orders)
  {
    var t1 := CancelAbandonedEmptySessions(t, now);
    StatusWrites(t, t1);
    forall i | 0 <= i < |ids|
      ensures !Refunded(t1, ids[i]) && RanksReserves(t1, ids[i], orders[ids[i]])
    {
      SameReasons(t, t1, ids[i]);
    }
  }

  // Clean-up leaves the ledger of every session alone that it does not cancel.
  lemma {:induction false} CleanupFrame(t: Tables, now: Time, ids: seq<nat>, orders: seq<seq<Row>>, s: nat)
    requires Books(t) && Legal(t, Clean(now, ids, orders)) && s !in ids
    ensures var t' := Cleanup(t, now, ids, orders);
            && |t'.sessions| == |t.sessions|
            && Charge(t', s) == Charge(t, s) && (forall r: Reason :: HasReason(t', s, r) == HasReason(t, s, r))
            && (s < |t.sessions| && Bounded(t, s) ==> Bounded(t', s))
  {
    var t1 := CancelAbandonedEmptySessions(t, now);
    var t2 := RefundAll(t1, ids, orders);
    BatchWrites(t, t1, s);
    RefundAllFrame(t1, ids, orders, s);
    BatchWrites(t2, CompleteAbandonedActiveSessions(t2, now), s);
  }

  // The tables when the loop of clean-up comes to session s.
  function ReachedByCleanup(t: Tables, now: Time, ids: seq<nat>, orders: seq<seq<Row>>, s: nat): Tables
    requires |orders| == |t.sessions| && ListsCancelled(t, now, ids)
  {
    Reached(CancelAbandonedEmptySessions(t, now), ids, orders, s)
  }

  lemma {:induction false} LoopRefunds(t: Tables, now: Time, ids: seq<nat>, orders: seq<seq<Row>>, s: nat)
    requires Balanced(t) && Legal(t, Clean(now, ids, orders)) && s in ids
    ensures var t2 := RefundAll(CancelAbandonedEmptySessions(t, now), ids, orders);
            && |t2.sessions| == |t.sessions| && s < |t.sessions| && Bounded(t2, s)
            && (Charge(t2, s) == 0 <==>
                 AllLand(ReachedByCleanup(t, now, ids, orders, s).grants, Distribute(orders[s], t.sessions[s].reserved)))
            && (UserBounded(t, t.sessions[s].user) ==> Charge(t2, s) == 0 && HasReason(t2, s, SessionRefund))
            && HasReason(t2, s, ErrorRefund) == HasReason(t, s, ErrorRefund)
  {
    var t1 := CancelAbandonedEmptySessions(t, now);
    CancelPhase(t, now, ids, orders);
    BatchWrites(t, t1, s);
    RefundAllSettles(t1, ids, orders, s);
  }

  lemma {:induction false} CleanupRefunds(t: Tables, now: Time, ids: seq<nat>, orders: seq<seq<Row>>, s: nat)
    requires Balanced(t) && Legal(t, Clean(now, ids, orders)) && s in ids
    ensures var t' := Cleanup(t, now, ids, orders);
            && |t'.sessions| == |t.sessions| && s < |t.sessions| && Bounded(t', s)
            && (Charge(t', s) == 0 <==>
                 AllLand(ReachedByCleanup(t, now, ids, orders, s).grants, Distribute(orders[s], t.sessions[s].reserved)))
            && (UserBounded(t, t.sessions[s].user) ==> Charge(t', s) == 0 && HasReason(t', s, SessionRefund))
            && HasReason(t', s, ErrorRefund) == HasReason(t, s, ErrorRefund)
  {
    var t2 := RefundAll(CancelAbandonedEmptySessions(t, now), ids, orders);
    LoopRefunds(t, now, ids, orders, s);
    BatchWrites(t2, CompleteAbandonedActiveSessions(t2, now), s);
  }

  // An overdue session that is not cancelled costs its whole reservation.
  lemma {:induction false} CleanupCompletes(t: Tables, now: Time, ids: seq<nat>, orders: seq<seq<Row>>, s: nat)
    requires Balanced(t) && Legal(t, Clean(now, ids, orders)) && s < |t.sessions| && s !in ids
    requires IsOverdue(t.sessions[s], now)
    ensures var t', row := Cleanup(t, now, ids, orders), t.sessions[s];
            && |t'.sessions| == |t.sessions|
            && t'.sessions[s] == row.(status := Completed, ended := Some(now))
            && Charge(t', s) == row.reserved && RefundTotal(t'.sessions[s]) == 0 && !Refunded(t', s)
            && IsPrice(row.reserved, row.reserved, now - row.started)
  {
    CleanupFrame(t, now, ids, orders, s);
    assert ReserveSound(t, s);
    ChargeBeforeRefund(t, s);
    OverdueIsFullPrice(t.sessions[s], now);
    PriceIff(t.sessions[s], now, t.sessions[s].reserved);
  }

  // Every overdue active session takes exactly one branch. A spoken one is completed and
  // costs its whole reservation, which is what a refund statement would have left. An
  // empty one is cancelled and costs nothing exactly when the filter drops no share of its
  // refund, and it drops none as long as no session of the user has netted a gain. No
  // other session changes.
  lemma {:induction false} CleanupSettles(t: Tables, now: Time, ids: seq<nat>, orders: seq<seq<Row>>, s: nat)
    requires Balanced(t) && Legal(t, Clean(now, ids, orders)) && s < |t.sessions|
    ensures var t' := Cleanup(t, now, ids, orders);
            var row := t.sessions[s];
            && |t'.sessions| == |t.sessions|
            && (IsOverdue(row, now) && row.spoken ==>
                  && t'.sessions[s] == row.(status := Completed, ended := Some(now))
                  && Charge(t', s) == row.reserved && RefundTotal(t'.sessions[s]) == 0
                  && IsPrice(row.reserved, row.reserved, now - row.started)
                  && !Refunded(t', s))
            && (IsOverdue(row, now) && !row.spoken ==>
                  && t'.sessions[s] == row.(status := Cancelled, ended := Some(now), archived := true)
                  && 0 <= Charge(t', s) <= row.reserved
                  && (Charge(t', s) == 0 <==>
                       AllLand(ReachedByCleanup(t, now, ids, orders, s).grants, Distribute(orders[s], row.reserved)))
                  && (UserBounded(t, row.user) ==> Charge(t', s) == 0 && HasReason(t', s, SessionRefund)))
            && (!IsOverdue(row, now) ==>
                  && t'.sessions[s] == row && Charge(t', s) == Charge(t, s)
                  && (HasReason(t', s, SessionRefund) <==> HasReason(t, s, SessionRefund)))
            && (HasReason(t', s, ErrorRefund) <==> HasReason(t, s, ErrorRefund))
  {
    if s in ids {
      CleanupRefunds(t, now, ids, orders, s);
    } else {
      CleanupFrame(t, now, ids, orders, s);
      if IsOverdue(t.sessions[s], now) { CleanupCompletes(t, now, ids, orders, s); }
    }
  }

  lemma {:induction false} OverdueIsFullPrice(row: Session, now: Time)
    requires IsOverdue(row, now) && row.reserved == row.duration >= 1
    ensures BilledMinutes(now - row.started) >= row.reserved
  {
  }
}
