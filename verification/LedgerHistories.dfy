/** What rows keep over whole runs, and what a session costs from its creation on. */
module LedgerHistories {
  import opened Options
  import opened Distribution
  import opened Sessions
  import opened Ledger
  import opened LedgerTotals
  import opened LedgerInvariants
  import opened LedgerRuns
  import opened LedgerTheorems
  import Billing

  // ---- A session's terms ----

  // What no statement ever writes again.
  ghost predicate SameTerms(a: Session, b: Session) {
    a.user == b.user && a.duration == b.duration && a.reserved == b.reserved && a.started == b.started
  }

  lemma {:induction false} StepKeepsTerms(t: Tables, step: Step, k: nat)
    requires Books(t) && Legal(t, step) && k < |t.sessions|
    ensures k < |Perform(t, step).sessions| && SameTerms(t.sessions[k], Perform(t, step).sessions[k])
  {
    match step
    case AddFree(_, _, _) => GrantStepKeeps(t, step);
    case AddPurchase(_, _, _) => GrantStepKeeps(t, step);
    case AddSubscription(_, _, _) => GrantStepKeeps(t, step);
    case AddAdmin(_, _) => GrantStepKeeps(t, step);
    case Open(user, minutes, now, order) => OpenKeepsBounds(t, user, minutes, now, order);
    case Speak(_) =>
    case Lock(_) =>
    case Unlock(_) =>
    case Judge(_, _) =>
    case End(s, cancel, turnCount, now, rows) => EndSettles(t, s, cancel, turnCount, now, rows);
    case Clean(_, _, _) =>
    case Fail(s, active, rows) => FailRefundsAll(t, s, active, rows);
  }

  lemma {:induction false} RunKeepsTerms(t: Tables, steps: seq<Step>, k: nat)
    requires Books(t) && LegalRun(t, steps) && k < |t.sessions|
    ensures k < |Run(t, steps).sessions| && SameTerms(t.sessions[k], Run(t, steps).sessions[k])
    decreases |steps|
  {
    if steps == [] {
    } else {
      StepKeepsTerms(t, steps[0], k);
      StepKeepsBooks(t, steps[0]);
      RunKeepsTerms(Perform(t, steps[0]), steps[1..], k);
    }
  }

  // Every session that is created is created by a legal step.
  lemma {:induction false} CreationIsAStep(seen: Tables, t: Tables, user: nat, plan: string, duration: int,
                                           questionExists: bool, now: Time, order: seq<nat>)
    requires IsRanking(t, user, now, order)
    requires Billing.CreateSession(seen, t, user, plan, duration, questionExists, now, order).Ok?
    ensures Legal(t, Open(user, duration, now, order))
    ensures Perform(t, Open(user, duration, now, order))
            == Billing.CreateSession(seen, t, user, plan, duration, questionExists, now, order).tables
  {
  }

  // The creation went through, and `mid` led on to t1.
  ghost predicate Created(t: Tables, open: Step, mid: seq<Step>, t1: Tables) {
    && Balanced(t) && open.Open? && LegalRun(t, [open] + mid) && Run(t, [open] + mid) == t1
    && Legal(t, open) && Capacity(BalanceRows(t, open.order)) >= open.minutes
  }

  function NewRow(open: Step): Session
    requires open.Open?
  {
    Session(open.user, Active, open.minutes, open.minutes, open.now, None, 0, false, false)
  }

  // What becomes of the new row, however the run goes on.
  lemma {:induction false} CreatedRow(t: Tables, open: Step, mid: seq<Step>, t1: Tables)
    requires Created(t, open, mid, t1)
    ensures Balanced(t1) && |t.sessions| < |t1.sessions| && SameTerms(t1.sessions[|t.sessions|], NewRow(open))
  {
    assert ([open] + mid)[1..] == mid;
    RunKeepsBalance(t, [open] + mid);
    OpenKeepsBounds(t, open.user, open.minutes, open.now, open.order);
    StepKeepsBooks(t, open);
    RunKeepsTerms(Perform(t, open), mid, |t.sessions|);
  }

  // A session created at one time and first ended at another costs the least number of
  // whole minutes, at least one, that covers the time between, capped at its duration: for
  // good, if some reserved minute was left over.
  lemma {:induction false} CreatedSessionCosts(t: Tables, open: Step, mid: seq<Step>, t1: Tables, end: Step,
                                               rest: seq<Step>)
    requires Created(t, open, mid, t1)
    requires end.End? && end.s == |t.sessions| && LegalRun(t1, [end] + rest)
    requires !Refunded(t1, end.s) && UserBounded(t1, open.user)
    requires LeavesMinutes(open.minutes, end.now - open.now) || NeverReprices(rest, end.s, end.now)
    ensures IsPrice(Charge(Run(t1, [end] + rest), end.s), open.minutes, end.now - open.now)
  {
    CreatedRow(t, open, mid, t1);
    ChargeIsFixedByFirstEnd(t1, end, rest);
  }

  // Clean-up touches a session exactly when it is active and was created more than its
  // duration and five minutes ago.
  lemma {:induction false} CreatedSessionIsCleanedIff(t: Tables, open: Step, mid: seq<Step>, t1: Tables, clean: Step)
    requires Created(t, open, mid, t1) && clean.Clean? && Legal(t1, clean)
    ensures var t2, k := Perform(t1, clean), |t.sessions|;
            && k < |t1.sessions| == |t2.sessions|
            && (t2.sessions[k] != t1.sessions[k]
                <==> t1.sessions[k].status == Active && clean.now - open.now > (open.minutes + 5) * 60_000_000)
  {
    CreatedRow(t, open, mid, t1);
    CleanupSettles(t1, clean.now, clean.ids, clean.orders, |t.sessions|);
  }

  // ---- A grant's keys ----

  // What no statement writes again: everything but the remaining minutes.
  ghost predicate SameGrant(a: Grant, b: Grant) { a == b.(remaining := a.remaining) }

  ghost predicate GrantsStay(t: Tables, t': Tables) {
    |t.grants| <= |t'.grants| && forall g | 0 <= g < |t.grants| :: SameGrant(t.grants[g], t'.grants[g])
  }

  // A new grant that the unique indexes would refuse is not there.
  ghost predicate AddsOne(t: Tables, t': Tables) {
    && |t'.grants| == |t.grants| + 1 && t'.grants[..|t.grants|] == t.grants
    && var g := t'.grants[|t.grants|];
       && (g.source == FreeGrant ==> !HasFreeGrant(t, g.user))
       && (g.event.Some? ==> !EventSeen(t, g.event.value))
  }

  // UNIQUE (user_id) WHERE source = 'free_grant', and UNIQUE (stripe_event_id).
  ghost predicate KeysUnique(t: Tables) {
    forall g, h | 0 <= g < h < |t.grants| ::
      && !(t.grants[g].source == FreeGrant && t.grants[h].source == FreeGrant && t.grants[g].user == t.grants[h].user)
      && !(t.grants[g].event.Some? && t.grants[g].event == t.grants[h].event)
  }

  lemma {:induction false} MoveKeepsGrants(t: Tables, user: nat, moves: seq<Share>, reason: Reason, s: nat)
    requires WithinGrants(moves, |t.grants|)
    ensures var t' := Move(t, user, moves, reason, s); |t'.grants| == |t.grants| && GrantsStay(t, t')
  {
    var t' := Move(t, user, moves, reason, s);
    forall g | 0 <= g < |t.grants| ensures SameGrant(t.grants[g], t'.grants[g]) { AddAllAmounts(t.grants, moves, g); }
  }

  lemma {:induction false} CreditKeepsGrants(t: Tables, s: nat, total: int, reason: Reason, order: seq<Row>)
    requires s < |t.sessions|
    ensures var t' := Credit(t, s, total, reason, order); |t'.grants| == |t.grants| && GrantsStay(t, t')
  {
    if !HasReason(t, s, SessionRefund) {
      MoveKeepsGrants(t, t.sessions[s].user, Accepted(t.grants, Distribute(order, total)), reason, s);
    }
  }

  lemma {:induction false} RefundAllKeepsGrants(t: Tables, ids: seq<nat>, orders: seq<seq<Row>>)
    requires |orders| == |t.sessions| && forall i | 0 <= i < |ids| :: ids[i] < |t.sessions|
    ensures var t' := RefundAll(t, ids, orders); |t'.grants| == |t.grants| && GrantsStay(t, t')
    decreases |ids|
  {
    if ids == [] {
    } else {
      var s := ids[0];
      CreditKeepsGrants(t, s, t.sessions[s].reserved, SessionRefund, orders[s]);
      RefundAllKeepsGrants(FullRefundSessionMinutes(t, s, SessionRefund, orders[s]), ids[1..], orders);
    }
  }

  lemma {:induction false} OpenKeepsGrants(t: Tables, step: Step)
    requires step.Open? && Legal(t, step)
    ensures var t' := Perform(t, step); |t'.grants| == |t.grants| && GrantsStay(t, t')
  {
    var t1 := t.(sessions := t.sessions + [NewRow(step)]);
    var debits := Debits(t1, step.order, step.minutes);
    DebitsWithin(t1, step.order, step.minutes);
    MoveKeepsGrants(t1, step.user, Negated(debits), SessionReserve, |t.sessions|);
  }

  // Every step keeps the grants, and adds at most one that breaks no key.
  lemma {:induction false} StepKeepsGrants(t: Tables, step: Step)
    requires Legal(t, step)
    ensures var t' := Perform(t, step);
            (|t'.grants| == |t.grants| && GrantsStay(t, t')) || AddsOne(t, t')
  {
    match step
    case AddFree(_, _, _) =>
    case AddPurchase(_, _, _) =>
    case AddSubscription(_, _, _) =>
    case AddAdmin(_, _) =>
    case Open(_, _, _, _) => OpenKeepsGrants(t, step);
    case Speak(_) =>
    case Lock(_) =>
    case Unlock(_) =>
    case Judge(_, _) =>
    case End(s, cancel, turnCount, now, rows) =>
      var t1 := PutSession(t, s, EndRow(t.sessions[s], cancel, turnCount, now));
      CreditKeepsGrants(t1, s, RefundTotal(t1.sessions[s]), SessionRefund, rows);
    case Clean(now, ids, orders) => RefundAllKeepsGrants(CancelAbandonedEmptySessions(t, now), ids, orders);
    case Fail(s, active, rows) =>
      if active {
        var t1 := PutSession(t, s, t.sessions[s].(status := Failed));
        CreditKeepsGrants(t1, s, t.sessions[s].reserved, ErrorRefund, rows);
      }
  }

  lemma {:induction false} StepKeepsKeys(t: Tables, step: Step)
    requires Legal(t, step) && KeysUnique(t)
    ensures KeysUnique(Perform(t, step))
  {
    StepKeepsGrants(t, step);
    var t' := Perform(t, step);
    if AddsOne(t, t') {
      forall g | 0 <= g < |t.grants| ensures t'.grants[g] == t.grants[g] { assert t'.grants[..|t.grants|][g] == t.grants[g]; }
    }
  }

  lemma {:induction false} RunKeepsKeys(t: Tables, steps: seq<Step>)
    requires KeysUnique(t) && LegalRun(t, steps)
    ensures KeysUnique(Run(t, steps))
    decreases |steps|
  {
    if steps == [] {
    } else {
      StepKeepsKeys(t, steps[0]);
      RunKeepsKeys(Perform(t, steps[0]), steps[1..]);
    }
  }

  // In every run from the empty tables no user ever has two free grants, and no payment
  // event two grants.
  lemma {:induction false} OneGrantForEachKey(steps: seq<Step>)
    requires LegalRun(EMPTY, steps)
    ensures KeysUnique(Run(EMPTY, steps))
  {
    RunKeepsKeys(EMPTY, steps);
  }
}
