/** The ledger as it is kept: three tables updated in place by loops over the rows a
    statement selects. Each transaction is proved equal to its specification in
    module Ledger, and keeps the books. */
module LedgerDb {
  import opened Options
  import opened Distribution
  import opened Sessions
  import opened Ledger
  import opened LedgerTotals
  import opened LedgerInvariants
  import opened LedgerRuns
  import opened LedgerTheorems
  import Billing

  lemma {:induction false} AddAllAppend(grants: seq<Grant>, moves: seq<Share>, m: Share)
    requires WithinGrants(moves + [m], |grants|)
    ensures WithinGrants(moves, |grants|) && WithinGrants([m], |grants|)
    ensures AddAll(grants, moves + [m]) == AddAll(AddAll(grants, moves), [m])
    decreases |moves|
  {
    assert (moves + [m])[|moves|] == m;
    forall i | 0 <= i < |moves| ensures moves[i].grant < |grants| { assert (moves + [m])[i] == moves[i]; }
    if moves == [] {
      assert moves + [m] == [m];
    } else {
      var g := moves[0].grant;
      assert (moves + [m])[1..] == moves[1..] + [m];
      AddAllAppend(grants[g := grants[g].(remaining := grants[g].remaining + moves[0].amount)], moves[1..], m);
    }
  }

  lemma {:induction false} LogAppend(user: nat, moves: seq<Share>, m: Share, reason: Reason, s: nat)
    ensures LogOf(user, moves + [m], reason, s)
            == LogOf(user, moves, reason, s) + [Entry(user, m.grant, m.amount, reason, Some(s))]
  {
    if moves == [] {
      assert moves + [m] == [m];
    } else {
      assert (moves + [m])[1..] == moves[1..] + [m];
      LogAppend(user, moves[1..], m, reason, s);
    }
  }

  lemma {:induction false} AcceptedAppend(grants: seq<Grant>, shares: seq<Share>, m: Share)
    ensures Accepted(grants, shares + [m]) == Accepted(grants, shares) + if Lands(grants, m) then [m] else []
  {
    if shares == [] {
      assert shares + [m] == [m];
    } else {
      assert (shares + [m])[1..] == shares[1..] + [m];
      AcceptedAppend(grants, shares[1..], m);
    }
  }

  // Crediting one more row, on the state its predecessors left.
  lemma {:induction false} CreditOneMore(t: Tables, user: nat, shares: seq<Share>, m: Share, reason: Reason, s: nat)
    requires forall i | 0 <= i < |shares| :: shares[i].grant != m.grant
    ensures var before := Move(t, user, Accepted(t.grants, shares), reason, s);
            Move(t, user, Accepted(t.grants, shares + [m]), reason, s)
            == if Lands(before.grants, m) then Move(before, user, [m], reason, s) else before
  {
    var moves := Accepted(t.grants, shares);
    AcceptedAppend(t.grants, shares, m);
    AcceptedIsSubset(t.grants, shares);
    if m.grant < |t.grants| {
      forall j | 0 <= j < |moves| ensures moves[j].grant != m.grant { assert moves[j] in shares; }
      AddAllAmounts(t.grants, moves, m.grant);
      AmountOfAbsent(moves, m.grant);
    }
    if Lands(t.grants, m) {
      AddAllAppend(t.grants, moves, m);
      LogAppend(user, moves, m, reason, s);
      assert [m][1..] == [];
      assert LogOf(user, [m], reason, s) == [Entry(user, m.grant, m.amount, reason, Some(s))];
    } else {
      assert moves + [] == moves;
    }
  }

  class Database {
    var grants: seq<Grant>
    var sessions: seq<Session>
    var entries: seq<Entry>

    function View(): Tables reads this { Tables(grants, sessions, entries) }

    ghost predicate Valid() reads this { Books(View()) }

    constructor ()
      ensures Valid() && View() == EMPTY
    {
      grants, sessions, entries := [], [], [];
    }

    // ---- Grants ----

    method CreateAdminGrant(user: nat, minutes: int)
      requires Valid()
      modifies this
      ensures Valid() && View() == Ledger.CreateAdminGrant(old(View()), user, minutes)
    {
      if minutes > 0 {
        InsertGrantBooks(View(), NewGrant(user, Admin, None, minutes, None), AdminGrant);
        entries := entries + [Entry(user, |grants|, minutes, AdminGrant, None)];
        grants := grants + [NewGrant(user, Admin, None, minutes, None)];
      }
    }

    method CreatePurchaseGrant(user: nat, event: string, minutes: int)
      requires Valid()
      modifies this
      ensures Valid() && View() == Ledger.CreatePurchaseGrant(old(View()), user, event, minutes)
    {
      if minutes > 0 && !EventSeen(View(), event) {
        InsertGrantBooks(View(), NewGrant(user, Purchase, Some(event), minutes, None), PurchaseMade);
        entries := entries + [Entry(user, |grants|, minutes, PurchaseMade, None)];
        grants := grants + [NewGrant(user, Purchase, Some(event), minutes, None)];
      }
    }

    method CreateSubscriptionGrant(user: nat, event: string, minutes: int)
      requires Valid()
      modifies this
      ensures Valid() && View() == Ledger.CreateSubscriptionGrant(old(View()), user, event, minutes)
    {
      if minutes > 0 && !EventSeen(View(), event) {
        InsertGrantBooks(View(), NewGrant(user, Subscription, Some(event), minutes, None), SubscriptionRenewal);
        entries := entries + [Entry(user, |grants|, minutes, SubscriptionRenewal, None)];
        grants := grants + [NewGrant(user, Subscription, Some(event), minutes, None)];
      }
    }

    method EnsureFreeGrant(user: nat, minutes: int, expires: Time)
      requires Valid()
      modifies this
      ensures Valid() && View() == Ledger.EnsureFreeGrant(old(View()), user, minutes, expires)
    {
      if minutes > 0 && !HasFreeGrant(View(), user) {
        InsertGrantBooks(View(), NewGrant(user, FreeGrant, None, minutes, Some(expires)), FreeTrial);
        entries := entries + [Entry(user, |grants|, minutes, FreeTrial, None)];
        grants := grants + [NewGrant(user, FreeGrant, None, minutes, Some(expires))];
      }
    }

    // ---- Moving minutes ----

    // Row i of apply_debits, after the rows before it.
    method DebitNext(ghost t: Tables, user: nat, debits: seq<Share>, i: nat, s: nat)
      requires i < |debits| && WithinGrants(Negated(debits), |t.grants|)
      requires WithinGrants(Negated(debits)[..i], |t.grants|)
      requires View() == Move(t, user, Negated(debits)[..i], SessionReserve, s)
      modifies this
      ensures WithinGrants(Negated(debits)[..i + 1], |t.grants|)
      ensures View() == Move(t, user, Negated(debits)[..i + 1], SessionReserve, s)
    {
      ghost var moves := Negated(debits);
      var g := debits[i].grant;
      assert moves[i] == Share(g, -debits[i].amount);
      assert moves[..i + 1] == moves[..i] + [moves[i]];
      AddAllAppend(t.grants, moves[..i], moves[i]);
      LogAppend(user, moves[..i], moves[i], SessionReserve, s);
      grants := grants[g := grants[g].(remaining := grants[g].remaining - debits[i].amount)];
      entries := entries + [Entry(user, g, -debits[i].amount, SessionReserve, Some(s))];
    }

    // apply_debits, one row at a time; returns the number of ledger rows written.
    method ReserveMinutes(user: nat, s: nat, minutes: int, order: seq<nat>) returns (rows: nat)
      requires NamesGrants(View(), order)
      modifies this
      ensures View() == Ledger.ReserveMinutes(old(View()), user, s, minutes, order)
      ensures rows == |Debits(old(View()), order, minutes)|
    {
      ghost var t := View();
      var debits := Debits(View(), order, minutes);
      DebitsWithin(t, order, minutes);
      assert Negated(debits)[..0] == [];
      for i := 0 to |debits|
        invariant WithinGrants(Negated(debits)[..i], |t.grants|)
        invariant View() == Move(t, user, Negated(debits)[..i], SessionReserve, s)
      {
        DebitNext(t, user, debits, i, s);
      }
      assert Negated(debits)[..|debits|] == Negated(debits);
      rows := |debits|;
    }

    // One row of apply_credits: the guard sees the grant as it is now.
    method CreditRow(user: nat, m: Share, reason: Reason, s: nat)
      modifies this
      ensures View() == if Lands(old(grants), m) then Move(old(View()), user, [m], reason, s) else old(View())
    {
      if m.grant < |grants| && m.amount > 0 && grants[m.grant].remaining + m.amount <= grants[m.grant].initial {
        assert [m][1..] == [];
        assert AddAll(grants, [m]) == grants[m.grant := grants[m.grant].(remaining := grants[m.grant].remaining + m.amount)];
        assert LogOf(user, [m], reason, s) == [Entry(user, m.grant, m.amount, reason, Some(s))];
        grants := grants[m.grant := grants[m.grant].(remaining := grants[m.grant].remaining + m.amount)];
        entries := entries + [Entry(user, m.grant, m.amount, reason, Some(s))];
      }
    }

    // Row i of apply_credits, after the rows before it.
    method CreditNext(ghost t: Tables, user: nat, shares: seq<Share>, i: nat, reason: Reason, s: nat)
      requires i < |shares| && DistinctShares(shares)
      requires View() == Move(t, user, Accepted(t.grants, shares[..i]), reason, s)
      modifies this
      ensures View() == Move(t, user, Accepted(t.grants, shares[..i + 1]), reason, s)
    {
      assert shares[..i + 1] == shares[..i] + [shares[i]];
      CreditOneMore(t, user, shares[..i], shares[i], reason, s);
      CreditRow(user, shares[i], reason, s);
    }

    method CreditAll(user: nat, shares: seq<Share>, reason: Reason, s: nat)
      requires DistinctShares(shares)
      modifies this
      ensures View() == Move(old(View()), user, Accepted(old(grants), shares), reason, s)
    {
      ghost var t := View();
      assert shares[..0] == [];
      for i := 0 to |shares|
        invariant View() == Move(t, user, Accepted(t.grants, shares[..i]), reason, s)
      {
        CreditNext(t, user, shares, i, reason, s);
      }
      assert shares[..|shares|] == shares;
    }

    method Credit(s: nat, total: int, reason: Reason, order: seq<Row>)
      requires s < |sessions| && DistinctShares(Distribute(order, total))
      modifies this
      ensures View() == Ledger.Credit(old(View()), s, total, reason, order)
    {
      if !HasReason(View(), s, SessionRefund) {
        CreditAll(sessions[s].user, Distribute(order, total), reason, s);
      }
    }

    // ---- Transactions ----

    // What other transactions commit between two statements of this one.
    method Others(between: seq<Step>)
      requires Valid() && LegalRun(View(), between)
      modifies this
      ensures Valid() && View() == Run(old(View()), between)
    {
      RunKeepsBooks(View(), between);
      var t := Run(View(), between);
      grants, sessions, entries := t.grants, t.sessions, t.entries;
    }

    // The tests lock nothing: others may write `between` them and the reservation, whose
    // failure is rolled back.
    method CreateSession(user: nat, plan: string, duration: int, questionExists: bool, now: Time,
                         between: seq<Step>, order: seq<nat>)
      returns (refused: Option<Billing.CreateError>)
      requires Valid() && LegalRun(View(), between) && IsRanking(Run(View(), between), user, now, order)
      modifies this
      ensures Valid()
      ensures refused == None ==>
                sessions == Run(old(View()), between).sessions
                            + [Session(user, Active, duration, duration, now, None, 0, false, false)]
      ensures var t := Run(old(View()), between);
              match Billing.CreateSession(old(View()), t, user, plan, duration, questionExists, now, order)
              case Ok(t') => refused == None && View() == t'
              case Refused(e) =>
                && refused == Some(e)
                && View() == if Billing.Objection(old(View()), user, plan, duration, questionExists, now).Some?
                             then old(View()) else t
    {
      refused := Test(user, plan, duration, questionExists, now);
      if refused.Some? { return; }
      Others(between);
      var ok := Reserve(user, duration, now, order);
      refused := if ok then None else Some(Billing.InsufficientBalance);
    }

    method Test(user: nat, plan: string, duration: int, questionExists: bool, now: Time)
      returns (refused: Option<Billing.CreateError>)
      ensures refused == Billing.Objection(View(), user, plan, duration, questionExists, now)
    {
      if duration < 1 || duration > 180 { return Some(Billing.InvalidDuration); }
      var balance := Billing.SnapshotTotal(View(), user, now);
      if balance > Billing.MAX_INT32 { return Some(Billing.BalanceUnreadable); }
      var limits := Billing.ResolvePlan(plan);
      if duration > limits.maxDuration { return Some(Billing.DurationExceedsPlan); }
      if Billing.CountActive(sessions, user) >= limits.concurrentSessions { return Some(Billing.ConcurrentSessionLimit); }
      if balance < duration { return Some(Billing.InsufficientBalance); }
      if !questionExists { return Some(Billing.QuestionNotFound); }
      return None;
    }

    // The insert and the reservation; no ledger rows means that it is rolled back.
    method Reserve(user: nat, duration: int, now: Time, order: seq<nat>) returns (ok: bool)
      requires Valid() && duration >= 1 && IsRanking(View(), user, now, order)
      modifies this
      ensures Valid()
      ensures var r := OpenSession(old(View()), user, duration, now, order);
              ok == r.Some? && View() == if ok then r.value else old(View())
    {
      OpenKeepsBounds(View(), user, duration, now, order);
      var before := View();
      var s := |sessions|;
      sessions := sessions + [Session(user, Active, duration, duration, now, None, 0, false, false)];
      var rows := ReserveMinutes(user, s, duration, order);
      ok := rows > 0;
      if !ok { grants, sessions, entries := before.grants, before.sessions, before.entries; }
    }

    // CompleteSession and CancelSession differ in the status they write.
    method EndSession(s: nat, cancel: bool, turnCount: int, now: Time, order: seq<Row>)
      requires Valid() && s < |sessions| && RanksReserves(View(), s, order)
      modifies this
      ensures Valid() && View() == Ledger.EndSession(old(View()), s, cancel, turnCount, now, order)
    {
      EndKeepsBooks(View(), s, cancel, turnCount, now, order);
      RankedSharesDistinct(View(), s, order);
      var row := sessions[s];
      sessions := sessions[s := row.(status := if cancel then Cancelled else Completed, ended := Some(now),
                                     turnCount := turnCount, archived := row.archived || cancel)];
      Credit(s, RefundTotal(sessions[s]), SessionRefund, order);
    }

    // The status is read without a lock: others may write `between` the read and the
    // update, which then goes through whatever the status has become.
    method FailSession(s: nat, between: seq<Step>, order: seq<Row>) returns (ok: bool)
      requires Valid() && s < |sessions|
      requires LegalRun(View(), between) && Legal(Run(View(), between), Fail(s, true, order))
      modifies this
      ensures Valid() && (ok <==> old(sessions[s].status) == Active)
      ensures View() == if ok then Ledger.FailSession(Run(old(View()), between), s, true, order) else old(View())
    {
      if sessions[s].status != Active { return false; }
      Others(between);
      FailKeepsBooks(View(), s, true, order);
      assert ReserveSound(View(), s);
      RankedSharesDistinct(View(), s, order);
      sessions := sessions[s := sessions[s].(status := Failed)];
      Credit(s, sessions[s].reserved, ErrorRefund, order);
      ok := true;
    }

    method FullRefund(s: nat, order: seq<Row>)
      requires Valid() && s < |sessions| && RanksReserves(View(), s, order)
      modifies this
      ensures Valid() && View() == FullRefundSessionMinutes(old(View()), s, SessionRefund, order)
      ensures sessions == old(sessions)
      ensures forall k: nat :: ReserveRows(entries, k) == ReserveRows(old(entries), k)
    {
      assert ReserveSound(View(), s);
      RankedSharesDistinct(View(), s, order);
      CreditKeepsBooks(View(), s, sessions[s].reserved, SessionRefund, order);
      Credit(s, sessions[s].reserved, SessionRefund, order);
    }

    method RefundEach(ids: seq<nat>, orders: seq<seq<Row>>)
      requires Valid() && |orders| == |sessions|
      requires forall i | 0 <= i < |ids| :: ids[i] < |sessions| && RanksReserves(View(), ids[i], orders[ids[i]])
      modifies this
      ensures Valid() && View() == RefundAll(old(View()), ids, orders)
    {
      ghost var t := View();
      for i := 0 to |ids|
        invariant Valid() && sessions == t.sessions
        invariant forall k: nat :: ReserveRows(entries, k) == ReserveRows(t.entries, k)
        invariant RefundAll(View(), ids[i..], orders) == RefundAll(t, ids, orders)
      {
        assert RanksReserves(t, ids[i], orders[ids[i]]);
        assert ids[i..][1..] == ids[i + 1..];
        FullRefund(ids[i], orders[ids[i]]);
      }
      assert ids[|ids|..] == [];
    }

    // Cleanup: a batch update, a loop of full refunds, a second batch update.
    method CleanupAbandonedSessions(now: Time, ids: seq<nat>, orders: seq<seq<Row>>)
      requires Valid() && Legal(View(), Clean(now, ids, orders))
      modifies this
      ensures Valid() && View() == Cleanup(old(View()), now, ids, orders)
    {
      CleanupKeepsBooks(View(), now, ids, orders);
      StatusWrites(View(), Ledger.CancelAbandonedEmptySessions(View(), now));
      sessions := Ledger.CancelAbandonedEmptySessions(View(), now).sessions;
      RefundEach(ids, orders);
      sessions := CompleteAbandonedActiveSessions(View(), now).sessions;
    }
  }

  lemma {:induction false} RankedSharesDistinct(t: Tables, s: nat, order: seq<Row>)
    requires Books(t) && s < |t.sessions| && RanksReserves(t, s, order)
    ensures forall total | total >= 0 :: DistinctShares(Distribute(order, total))
  {
    assert ReserveSound(t, s);
    ReorderKeepsShape(ReserveRows(t.entries, s), order);
    forall total | total >= 0 ensures DistinctShares(Distribute(order, total)) {
      DistributeIsGreedy(order, total);
    }
  }
}
