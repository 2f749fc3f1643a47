/** The main results about the ledger, over every run. */
module LedgerTheorems {
  import opened Options
  import opened Distribution
  import opened Sessions
  import opened Ledger
  import opened LedgerTotals
  import opened LedgerInvariants
  import opened LedgerRuns

  // ---- Every run keeps the invariants ----

  lemma {:induction false} GrantStepKeeps(t: Tables, step: Step)
    requires Books(t) && Legal(t, step)
    requires step.AddFree? || step.AddPurchase? || step.AddSubscription? || step.AddAdmin?
    ensures var t' := Perform(t, step);
            && Books(t') && t'.sessions == t.sessions
            && (forall k | 0 <= k < |t.sessions| && Bounded(t, k) :: Bounded(t', k))
            && (forall k: nat :: Charge(t', k) == Charge(t, k))
            && (forall k: nat, r: Reason :: HasReason(t', k, r) == HasReason(t, k, r))
  {
    var t' := Perform(t, step);
    if t' != t {
      var grant := t'.grants[|t.grants|];
      InsertGrantBooks(t, grant, t'.entries[|t.entries|].reason);
    }
  }

  lemma {:induction false} StatusStepKeeps(t: Tables, step: Step)
    requires Legal(t, step) && (step.Speak? || step.Lock? || step.Unlock? || step.Judge?)
    ensures var t' := Perform(t, step);
            && (Books(t) ==> Books(t')) && |t'.sessions| == |t.sessions|
            && (forall k | 0 <= k < |t.sessions| && Bounded(t, k) :: Bounded(t', k))
            && t'.grants == t.grants && t'.entries == t.entries
  {
    StatusWrites(t, Perform(t, step));
  }

  lemma {:induction false} StepKeepsBooks(t: Tables, step: Step)
    requires Books(t) && Legal(t, step)
    ensures Books(Perform(t, step))
  {
    match step
    case AddFree(_, _, _) => GrantStepKeeps(t, step);
    case AddPurchase(_, _, _) => GrantStepKeeps(t, step);
    case AddSubscription(_, _, _) => GrantStepKeeps(t, step);
    case AddAdmin(_, _) => GrantStepKeeps(t, step);
    case Open(user, minutes, now, order) => OpenKeepsBounds(t, user, minutes, now, order);
    case Speak(_) => StatusStepKeeps(t, step);
    case Lock(_) => StatusStepKeeps(t, step);
    case Unlock(_) => StatusStepKeeps(t, step);
    case Judge(_, _) => StatusStepKeeps(t, step);
    case End(s, cancel, turnCount, now, rows) => EndKeepsBooks(t, s, cancel, turnCount, now, rows);
    case Clean(now, ids, orders) => CleanupKeepsBooks(t, now, ids, orders);
    case Fail(s, active, rows) => FailKeepsBooks(t, s, active, rows);
  }

  lemma {:induction false} RunKeepsBooks(t: Tables, steps: seq<Step>)
    requires Books(t) && LegalRun(t, steps)
    ensures Books(Run(t, steps))
    decreases |steps|
  {
    if steps == [] {
    } else {
      StepKeepsBooks(t, steps[0]);
      RunKeepsBooks(Perform(t, steps[0]), steps[1..]);
    }
  }

  // ---- Every run keeps the balance ----

  lemma {:induction false} OthersStayBalanced(t: Tables, t': Tables, s: nat)
    requires Balanced(t) && Books(t') && OthersStay(t, t', s)
    requires s < |t.sessions| && !IsOpen(t'.sessions[s].status)
    ensures Balanced(t')
  {
  }

  lemma {:induction false} EndKeepsBalance(t: Tables, step: Step)
    requires Balanced(t) && Legal(t, step) && (step.End? || step.Fail?)
    ensures Balanced(Perform(t, step))
  {
    if step.End? {
      EndSettles(t, step.s, step.cancel, step.turnCount, step.now, step.rows);
      OthersStayBalanced(t, Perform(t, step), step.s);
    } else if step.active {
      FailRefundsAll(t, step.s, step.active, step.rows);
      OthersStayBalanced(t, Perform(t, step), step.s);
    }
  }

  lemma {:induction false} CleanKeepsBalance(t: Tables, step: Step)
    requires Balanced(t) && Legal(t, step) && step.Clean?
    ensures Balanced(Perform(t, step))
  {
    StepKeepsBooks(t, step);
    var t' := Perform(t, step);
    forall k | 0 <= k < |t'.sessions| && IsOpen(t'.sessions[k].status) ensures !Refunded(t', k) {
      assert k !in step.ids;
      CleanupFrame(t, step.now, step.ids, step.orders, k);
    }
  }

  lemma {:induction false} OthersKeepBalance(t: Tables, step: Step)
    requires Balanced(t) && Legal(t, step) && !step.End? && !step.Fail? && !step.Clean?
    ensures Balanced(Perform(t, step))
  {
    if step.Open? {
      OpenKeepsBounds(t, step.user, step.minutes, step.now, step.order);
    } else if step.Speak? || step.Lock? || step.Unlock? || step.Judge? {
      StatusStepKeeps(t, step);
      forall k: nat ensures Refunded(Perform(t, step), k) == Refunded(t, k) { SameReasons(t, Perform(t, step), k); }
    } else {
      GrantStepKeeps(t, step);
    }
  }

  lemma {:induction false} StepKeepsBalance(t: Tables, step: Step)
    requires Balanced(t) && Legal(t, step)
    ensures Balanced(Perform(t, step))
  {
    if step.End? || step.Fail? {
      EndKeepsBalance(t, step);
    } else if step.Clean? {
      CleanKeepsBalance(t, step);
    } else {
      OthersKeepBalance(t, step);
    }
  }

  lemma {:induction false} RunKeepsBalance(t: Tables, steps: seq<Step>)
    requires Balanced(t) && LegalRun(t, steps)
    ensures Balanced(Run(t, steps))
    decreases |steps|
  {
    if steps == [] {
    } else {
      StepKeepsBalance(t, steps[0]);
      RunKeepsBalance(Perform(t, steps[0]), steps[1..]);
    }
  }

  // ---- Every run keeps the bounds of a session ----

  lemma {:induction false} EndKeepsBounds(t: Tables, step: Step, s: nat)
    requires Balanced(t) && Legal(t, step) && (step.End? || step.Fail?) && !RefundsFailed(t, step, s)
    requires s < |t.sessions| ==> Bounded(t, s)
    ensures s < |Perform(t, step).sessions| ==> Bounded(Perform(t, step), s)
  {
    if step.End? {
      EndSettles(t, step.s, step.cancel, step.turnCount, step.now, step.rows);
    } else {
      FailRefundsAll(t, step.s, step.active, step.rows);
    }
  }

  lemma {:induction false} CleanKeepsBounds(t: Tables, step: Step, s: nat)
    requires Balanced(t) && Legal(t, step) && step.Clean?
    requires s < |t.sessions| ==> Bounded(t, s)
    ensures s < |Perform(t, step).sessions| ==> Bounded(Perform(t, step), s)
  {
    if s in step.ids {
      CleanupRefunds(t, step.now, step.ids, step.orders, s);
    } else {
      CleanupFrame(t, step.now, step.ids, step.orders, s);
    }
  }

  // Whatever a step does to other sessions, session s keeps its bounds unless the step
  // refunds s again after FailSession has.
  lemma {:induction false} StepKeepsBounds(t: Tables, step: Step, s: nat)
    requires Balanced(t) && Legal(t, step) && !RefundsFailed(t, step, s)
    requires s < |t.sessions| ==> Bounded(t, s)
    ensures s < |Perform(t, step).sessions| ==> Bounded(Perform(t, step), s)
  {
    match step
    case AddFree(_, _, _) => GrantStepKeeps(t, step);
    case AddPurchase(_, _, _) => GrantStepKeeps(t, step);
    case AddSubscription(_, _, _) => GrantStepKeeps(t, step);
    case AddAdmin(_, _) => GrantStepKeeps(t, step);
    case Open(user, minutes, now, order) => OpenKeepsBounds(t, user, minutes, now, order);
    case Speak(_) => StatusStepKeeps(t, step);
    case Lock(_) => StatusStepKeeps(t, step);
    case Unlock(_) => StatusStepKeeps(t, step);
    case Judge(_, _) => StatusStepKeeps(t, step);
    case End(_, _, _, _, _) => EndKeepsBounds(t, step, s);
    case Clean(_, _, _) => CleanKeepsBounds(t, step, s);
    case Fail(_, _, _) => EndKeepsBounds(t, step, s);
  }

  // In every run, whatever is refunded twice to others: a session gives back no more than
  // it took, on each grant and in all, if it is itself not refunded again after
  // FailSession has refunded it.
  lemma {:induction false} RunKeepsBounds(t: Tables, steps: seq<Step>, s: nat)
    requires Balanced(t) && LegalRun(t, steps) && NeverRefundsFailed(t, steps, s)
    requires s < |t.sessions| ==> Bounded(t, s)
    ensures s < |Run(t, steps).sessions| ==> Bounded(Run(t, steps), s)
    decreases |steps|
  {
    if steps == [] {
    } else {
      StepKeepsBounds(t, steps[0], s);
      StepKeepsBalance(t, steps[0]);
      RunKeepsBounds(Perform(t, steps[0]), steps[1..], s);
    }
  }

  predicate Fails(step: Step, s: nat) { step.Fail? && step.active && step.s == s }

  lemma {:induction false} OnlyFailRefundsInFull(t: Tables, step: Step, s: nat)
    requires Balanced(t) && Legal(t, step) && s < |t.sessions| && !Fails(step, s)
    ensures s < |Perform(t, step).sessions|
    ensures HasReason(Perform(t, step), s, ErrorRefund) == HasReason(t, s, ErrorRefund)
  {
    if step.End? {
      EndSettles(t, step.s, step.cancel, step.turnCount, step.now, step.rows);
    } else if step.Fail? {
      FailRefundsAll(t, step.s, step.active, step.rows);
    } else if step.Clean? {
      CleanupSettles(t, step.now, step.ids, step.orders, s);
    } else if step.Open? {
      OpenKeepsBounds(t, step.user, step.minutes, step.now, step.order);
    } else if step.Speak? || step.Lock? || step.Unlock? || step.Judge? {
      SameReasons(t, Perform(t, step), s);
    } else {
      GrantStepKeeps(t, step);
    }
  }

  // Without FailSession on session s there is nothing to refund again.
  lemma {:induction false} NeverFailed(t: Tables, steps: seq<Step>, s: nat)
    requires Balanced(t) && LegalRun(t, steps) && s < |t.sessions| && !HasReason(t, s, ErrorRefund)
    requires forall i | 0 <= i < |steps| :: !Fails(steps[i], s)
    ensures NeverRefundsFailed(t, steps, s)
    decreases |steps|
  {
    if steps == [] {
    } else {
      OnlyFailRefundsInFull(t, steps[0], s);
      StepKeepsBalance(t, steps[0]);
      NeverFailed(Perform(t, steps[0]), steps[1..], s);
    }
  }

  // No session of the user is refunded again after FailSession has refunded it.
  ghost predicate NeverRefundsFailedOf(steps: seq<Step>, user: nat)
    requires LegalRun(EMPTY, steps)
  {
    forall s: nat | s < |Run(EMPTY, steps).sessions| && Run(EMPTY, steps).sessions[s].user == user ::
      NeverRefundsFailed(EMPTY, steps, s)
  }

  lemma {:induction false} RunKeepsUserBounded(steps: seq<Step>, user: nat)
    requires LegalRun(EMPTY, steps) && NeverRefundsFailedOf(steps, user)
    ensures Balanced(Run(EMPTY, steps)) && UserBounded(Run(EMPTY, steps), user)
  {
    RunKeepsBalance(EMPTY, steps);
    var t := Run(EMPTY, steps);
    forall s | 0 <= s < |t.sessions| && t.sessions[s].user == user ensures Bounded(t, s) {
      RunKeepsBounds(EMPTY, steps, s);
    }
  }

  // ---- The log and the grants ----

  lemma {:induction false} GrantAgrees(t: Tables, g: nat)
    requires Books(t) && g < |t.grants|
    ensures t.grants[g].remaining == Total(t.entries, OfGrant(g))
    ensures 0 <= t.grants[g].remaining <= t.grants[g].initial
  {
    assert GrantBalanced(t, g);
    TotalSplit(t.entries, OfGrant(g), Opening(g), SpentOn(g));
  }

  // In every run from the empty database each grant's remaining minutes are the sum of
  // its ledger amounts and lie between 0 and its initial minutes: repeated refunds of
  // failed sessions included.
  lemma {:induction false} LogAgreesWithGrants(steps: seq<Step>, g: nat)
    requires LegalRun(EMPTY, steps) && g < |Run(EMPTY, steps).grants|
    ensures var t := Run(EMPTY, steps);
            t.grants[g].remaining == Total(t.entries, OfGrant(g)) && 0 <= t.grants[g].remaining <= t.grants[g].initial
  {
    RunKeepsBooks(EMPTY, steps);
    GrantAgrees(Run(EMPTY, steps), g);
  }

  // ---- Conservation ----

  // Minutes missing from the first n grants, as far as they are the user's.
  function Spent(t: Tables, user: nat, n: nat): int
    requires n <= |t.grants|
  {
    if n == 0 then 0
    else Spent(t, user, n - 1)
         + if t.grants[n - 1].user == user then t.grants[n - 1].initial - t.grants[n - 1].remaining else 0
  }

  // What the first n sessions of the user account for: an open one its reservation,
  // an ended one its net charge.
  function Accounted(t: Tables, user: nat, n: nat): int
    requires n <= |t.sessions|
  {
    if n == 0 then 0
    else Accounted(t, user, n - 1)
         + if t.sessions[n - 1].user != user then 0
           else if IsOpen(t.sessions[n - 1].status) then t.sessions[n - 1].reserved
           else Charge(t, n - 1)
  }

  lemma {:induction false} SpentIsLogged(t: Tables, user: nat, n: nat)
    requires Books(t) && n <= |t.grants|
    ensures Spent(t, user, n) == -Total(t.entries, Filter(Below(n), Present, Exactly(user)))
  {
    var f := Filter(Below(n), Present, Exactly(user));
    if n == 0 {
      TotalNone(t.entries, f);
    } else {
      var one := Filter(Exactly(n - 1), Present, Exactly(user));
      SpentIsLogged(t, user, n - 1);
      TotalSplit(t.entries, f, Filter(Below(n - 1), Present, Exactly(user)), one);
      forall i | 0 <= i < |t.entries|
        ensures t.entries[i].grant == n - 1 ==> t.entries[i].user == t.grants[n - 1].user
      {
        assert EntryFits(t, t.entries[i]);
      }
      if t.grants[n - 1].user == user {
        TotalSame(t.entries, one, SpentOn(n - 1));
        assert GrantBalanced(t, n - 1);
      } else {
        TotalNone(t.entries, one);
      }
    }
  }

  lemma {:induction false} AccountedIsLogged(t: Tables, user: nat, n: nat)
    requires Balanced(t) && n <= |t.sessions|
    ensures Accounted(t, user, n) == -Total(t.entries, Filter(Any, Below(n), Exactly(user)))
  {
    var f := Filter(Any, Below(n), Exactly(user));
    if n == 0 {
      TotalNone(t.entries, f);
    } else {
      var one := Filter(Any, Exactly(n - 1), Exactly(user));
      AccountedIsLogged(t, user, n - 1);
      TotalSplit(t.entries, f, Filter(Any, Below(n - 1), Exactly(user)), one);
      forall i | 0 <= i < |t.entries|
        ensures t.entries[i].session == Some(n - 1) ==> t.entries[i].user == t.sessions[n - 1].user
      {
        assert EntryFits(t, t.entries[i]);
      }
      if t.sessions[n - 1].user == user {
        TotalSame(t.entries, one, OfSession(n - 1));
        if IsOpen(t.sessions[n - 1].status) { ChargeBeforeRefund(t, n - 1); }
      } else {
        TotalNone(t.entries, one);
      }
    }
  }

  // For each user, the minutes gone from the grants are exactly the reservations of
  // the open sessions plus the net charges of the ended ones.
  lemma {:induction false} Conservation(t: Tables, user: nat)
    requires Balanced(t)
    ensures Spent(t, user, |t.grants|) == Accounted(t, user, |t.sessions|)
  {
    SpentIsLogged(t, user, |t.grants|);
    AccountedIsLogged(t, user, |t.sessions|);
    var byGrant := Filter(Below(|t.grants|), Present, Exactly(user));
    var bySession := Filter(Any, Below(|t.sessions|), Exactly(user));
    forall i | 0 <= i < |t.entries| ensures byGrant.Matches(t.entries[i]) <==> bySession.Matches(t.entries[i]) {
      assert EntryFits(t, t.entries[i]);
    }
    TotalSame(t.entries, byGrant, bySession);
  }

  // That holds after every run, double refunds of failed sessions included.
  lemma {:induction false} RunConserves(steps: seq<Step>, user: nat)
    requires LegalRun(EMPTY, steps)
    ensures var t := Run(EMPTY, steps); Spent(t, user, |t.grants|) == Accounted(t, user, |t.sessions|)
  {
    RunKeepsBalance(EMPTY, steps);
    Conservation(Run(EMPTY, steps), user);
  }

  // ---- A session's charge is final ----

  // The step writes session s and asks for a refund of it.
  predicate Asks(step: Step, s: nat) { (step.End? || (step.Fail? && step.active)) && step.s == s }

  // Any other step leaves an ended session's ledger alone.
  ghost predicate LeavesAlone(t: Tables, t': Tables, s: nat)
    requires s < |t.sessions|
  {
    && s < |t'.sessions|
    && (IsOpen(t.sessions[s].status) || !IsOpen(t'.sessions[s].status))
    && t'.sessions[s].started == t.sessions[s].started && t'.sessions[s].reserved == t.sessions[s].reserved
    && Charge(t', s) == Charge(t, s)
    && forall r: Reason :: HasReason(t', s, r) == HasReason(t, s, r)
  }

  lemma {:induction false} OtherStepLeavesAlone(t: Tables, step: Step, s: nat)
    requires Books(t) && Legal(t, step) && !Asks(step, s)
    requires s < |t.sessions| && !IsOpen(t.sessions[s].status)
    ensures LeavesAlone(t, Perform(t, step), s)
  {
    if step.End? {
      EndSettles(t, step.s, step.cancel, step.turnCount, step.now, step.rows);
    } else if step.Fail? {
      FailRefundsAll(t, step.s, step.active, step.rows);
    } else if step.Clean? {
      CleanupFrame(t, step.now, step.ids, step.orders, s);
    } else if step.Open? {
      OpenKeepsBounds(t, step.user, step.minutes, step.now, step.order);
    } else if step.Speak? || step.Lock? || step.Unlock? || step.Judge? {
      SameReasons(t, Perform(t, step), s);
    } else {
      GrantStepKeeps(t, step);
    }
  }

  // One step after a refund has paid session s.
  lemma {:induction false} RefundedStep(t: Tables, step: Step, s: nat)
    requires Balanced(t) && Legal(t, step) && s < |t.sessions| && Refunded(t, s)
    requires !RefundsFailed(t, step, s)
    ensures var t' := Perform(t, step);
            && s < |t'.sessions| && Charge(t', s) == Charge(t, s)
            && forall r: Reason :: HasReason(t', s, r) == HasReason(t, s, r)
  {
    if Asks(step, s) {
      if step.End? {
        EndSettles(t, s, step.cancel, step.turnCount, step.now, step.rows);
      } else {
        FailRefundsAll(t, s, step.active, step.rows);
      }
      SameReasons(t, Perform(t, step), s);
    } else {
      OtherStepLeavesAlone(t, step, s);
    }
  }

  // At most one refund statement ever pays a session, whatever happens to the others. Once
  // an end call or clean-up has refunded it, its charge is frozen in every run, however
  // often it is ended and whatever the clock says; once FailSession has, as long as no
  // later end call or FailSession asks for it again.
  lemma {:induction false} RefundedOnlyOnce(t: Tables, steps: seq<Step>, s: nat)
    requires Balanced(t) && LegalRun(t, steps) && s < |t.sessions| && Refunded(t, s)
    requires HasReason(t, s, SessionRefund) || NeverRefundsFailed(t, steps, s)
    ensures Charge(Run(t, steps), s) == Charge(t, s)
    decreases |steps|
  {
    if steps == [] {
    } else {
      RefundedStep(t, steps[0], s);
      StepKeepsBalance(t, steps[0]);
      RefundedOnlyOnce(Perform(t, steps[0]), steps[1..], s);
    }
  }

  // The step can still lower the charge of a session that ended at `first` without a
  // refund: an end call before that, or a FailSession that found the session active.
  predicate Reprices(step: Step, s: nat, first: Time) {
    Asks(step, s) && (step.Fail? || step.now < first)
  }

  predicate NeverReprices(steps: seq<Step>, s: nat, first: Time) {
    forall i | 0 <= i < |steps| :: !Reprices(steps[i], s, first)
  }

  // No reserved minute of the session is left over at that time.
  predicate UsesAll(row: Session, now: Time) { !LeavesMinutes(row.reserved, now - row.started) }

  // The session has ended with nothing to refund, then or at any later time.
  predicate AtFullPrice(t: Tables, s: nat, first: Time) {
    s < |t.sessions| && !IsOpen(t.sessions[s].status) && !Refunded(t, s) && UsesAll(t.sessions[s], first)
  }

  // Of nothing, nothing lands.
  lemma {:induction false} NothingLands(t: Tables, s: nat, order: seq<Row>)
    requires Books(t) && s < |t.sessions| && RanksReserves(t, s, order)
    ensures AllLand(t.grants, Distribute(order, 0)) && !exists m | m in Distribute(order, 0) :: Lands(t.grants, m)
  {
    assert ReserveSound(t, s);
    RefundShares(t, s, 0, order);
    AcceptedSum(t.grants, Distribute(order, 0));
  }

  lemma {:induction false} EndWithoutRefund(t: Tables, step: Step)
    requires Books(t) && Legal(t, step) && step.End? && !Refunded(t, step.s)
    requires UsesAll(t.sessions[step.s], step.now)
    ensures var t' := Perform(t, step);
            && step.s < |t'.sessions| && !Refunded(t', step.s)
            && t'.sessions[step.s] == EndRow(t.sessions[step.s], step.cancel, step.turnCount, step.now)
            && Unspent(t.sessions[step.s], step.now) == 0
  {
    assert ReserveSound(t, step.s);
    LeavesMinutesIff(t.sessions[step.s], step.now);
    NothingLands(t, step.s, step.rows);
    EndSettles(t, step.s, step.cancel, step.turnCount, step.now, step.rows);
  }

  lemma {:induction false} StepKeepsFullPrice(t: Tables, step: Step, s: nat, first: Time)
    requires Books(t) && Legal(t, step) && AtFullPrice(t, s, first) && !Reprices(step, s, first)
    ensures AtFullPrice(Perform(t, step), s, first)
    ensures Perform(t, step).sessions[s].reserved == t.sessions[s].reserved
  {
    if Asks(step, s) {
      EndWithoutRefund(t, step);
    } else {
      OtherStepLeavesAlone(t, step, s);
    }
  }

  lemma {:induction false} FullPriceIsFinal(t: Tables, steps: seq<Step>, s: nat, first: Time)
    requires Balanced(t) && LegalRun(t, steps) && AtFullPrice(t, s, first) && NeverReprices(steps, s, first)
    ensures Charge(Run(t, steps), s) == t.sessions[s].reserved
    decreases |steps|
  {
    if steps == [] {
      ChargeBeforeRefund(t, s);
    } else {
      StepKeepsFullPrice(t, steps[0], s, first);
      StepKeepsBalance(t, steps[0]);
      assert NeverReprices(steps[1..], s, first);
      FullPriceIsFinal(Perform(t, steps[0]), steps[1..], s, first);
    }
  }

  // Some share of what the end call asks back lands.
  ghost predicate Pays(t: Tables, end: Step)
    requires end.End? && Legal(t, end)
  {
    exists m | m in Distribute(end.rows, Unspent(t.sessions[end.s], end.now)) :: Lands(t.grants, m)
  }

  lemma {:induction false} PaidEndIsFinal(t: Tables, first: Step, rest: seq<Step>)
    requires Balanced(t) && first.End? && LegalRun(t, [first] + rest) && Pays(t, first)
    ensures Charge(Run(t, [first] + rest), first.s) == Charge(Perform(t, first), first.s)
  {
    assert ([first] + rest)[1..] == rest;
    EndSettles(t, first.s, first.cancel, first.turnCount, first.now, first.rows);
    StepKeepsBalance(t, first);
    RefundedOnlyOnce(Perform(t, first), rest, first.s);
  }

  lemma {:induction false} UnpaidEndIsFinal(t: Tables, first: Step, rest: seq<Step>)
    requires Balanced(t) && first.End? && LegalRun(t, [first] + rest) && !Refunded(t, first.s)
    requires UsesAll(t.sessions[first.s], first.now) && NeverReprices(rest, first.s, first.now)
    ensures Charge(Run(t, [first] + rest), first.s) == Charge(Perform(t, first), first.s)
  {
    assert ([first] + rest)[1..] == rest;
    EndWithoutRefund(t, first);
    StepKeepsBalance(t, first);
    FullPriceIsFinal(Perform(t, first), rest, first.s, first.now);
    ChargeBeforeRefund(Perform(t, first), first.s);
  }

  // What the first end call leaves is final: in every run if it paid something, and if
  // nothing was left to pay in every run that never reprices the session. It is the price
  // exactly when the filter dropped no share.
  lemma {:induction false} FirstEndIsFinal(t: Tables, first: Step, rest: seq<Step>)
    requires Balanced(t) && first.End? && LegalRun(t, [first] + rest) && !Refunded(t, first.s)
    requires Pays(t, first) || (UsesAll(t.sessions[first.s], first.now) && NeverReprices(rest, first.s, first.now))
    ensures var row := t.sessions[first.s];
            var charge := Charge(Run(t, [first] + rest), first.s);
            && charge == Charge(Perform(t, first), first.s)
            && (IsPrice(charge, row.reserved, first.now - row.started)
                <==> AllLand(t.grants, Distribute(first.rows, Unspent(row, first.now))))
  {
    EndSettles(t, first.s, first.cancel, first.turnCount, first.now, first.rows);
    if Pays(t, first) {
      PaidEndIsFinal(t, first, rest);
    } else {
      UnpaidEndIsFinal(t, first, rest);
    }
  }

  lemma {:induction false} WholeRefundLands(t: Tables, end: Step)
    requires Books(t) && end.End? && Legal(t, end) && !Refunded(t, end.s)
    requires UserBounded(t, t.sessions[end.s].user)
    ensures AllLand(t.grants, Distribute(end.rows, Unspent(t.sessions[end.s], end.now)))
    ensures Pays(t, end) <==> !UsesAll(t.sessions[end.s], end.now)
  {
    assert ReserveSound(t, end.s);
    LeavesMinutesIff(t.sessions[end.s], end.now);
    var total := Unspent(t.sessions[end.s], end.now);
    RefundIsUnspent(t, end.s, end.cancel, end.turnCount, end.now);
    FirstRefundIsExact(t, end.s, total, end.rows);
    RefundShares(t, end.s, total, end.rows);
    AcceptedSum(t.grants, Distribute(end.rows, total));
  }

  // The exact charge: a session ended by its user costs the started minutes, at least one
  // and at most the reservation, as long as no session of that user has netted a gain
  // before. If that left something to refund, no later step of anyone changes it; if not,
  // none does that comes from before the end.
  lemma {:induction false} ChargeIsFixedByFirstEnd(t: Tables, first: Step, rest: seq<Step>)
    requires Balanced(t) && first.End? && LegalRun(t, [first] + rest) && !Refunded(t, first.s)
    requires UserBounded(t, t.sessions[first.s].user)
    requires !UsesAll(t.sessions[first.s], first.now) || NeverReprices(rest, first.s, first.now)
    ensures IsPrice(Charge(Run(t, [first] + rest), first.s),
                    t.sessions[first.s].reserved, first.now - t.sessions[first.s].started)
  {
    WholeRefundLands(t, first);
    FirstEndIsFinal(t, first, rest);
  }

  // From the empty tables: whatever is done to the sessions of other users, and whatever
  // is done to his own afterwards, a user pays exactly the price.
  lemma {:induction false} UserPaysThePrice(before: seq<Step>, t: Tables, first: Step, rest: seq<Step>)
    requires LegalRun(EMPTY, before) && t == Run(EMPTY, before)
    requires first.End? && LegalRun(t, [first] + rest) && IsOpen(t.sessions[first.s].status)
    requires NeverRefundsFailedOf(before, t.sessions[first.s].user)
    requires !UsesAll(t.sessions[first.s], first.now) || NeverReprices(rest, first.s, first.now)
    ensures IsPrice(Charge(Run(t, [first] + rest), first.s),
                    t.sessions[first.s].reserved, first.now - t.sessions[first.s].started)
  {
    RunKeepsUserBounded(before, t.sessions[first.s].user);
    ChargeIsFixedByFirstEnd(t, first, rest);
  }

  // What FailSession gives back is everything, and stays so until it is asked for again.
  lemma {:induction false} FailChargeIsFinal(t: Tables, fail: Step, rest: seq<Step>)
    requires Balanced(t) && fail.Fail? && fail.active && LegalRun(t, [fail] + rest) && !Refunded(t, fail.s)
    requires UserBounded(t, t.sessions[fail.s].user) && NeverRefundsFailed(t, [fail] + rest, fail.s)
    ensures Charge(Run(t, [fail] + rest), fail.s) == 0
  {
    assert ([fail] + rest)[1..] == rest;
    FailRefundsAll(t, fail.s, fail.active, fail.rows);
    StepKeepsBalance(t, fail);
    RefundedOnlyOnce(Perform(t, fail), rest, fail.s);
  }

  // Clean-up settles a session for good. The refund that it skips for a spoken one would
  // have been 0: it costs its reservation then and after any later run that never reprices
  // it. An empty one costs nothing then and after any later run at all.
  lemma {:induction false} CleanupChargeIsFinal(t: Tables, clean: Step, rest: seq<Step>, s: nat)
    requires Balanced(t) && clean.Clean? && LegalRun(t, [clean] + rest)
    requires s < |t.sessions| && IsOverdue(t.sessions[s], clean.now)
    ensures var row, charge := t.sessions[s], Charge(Run(t, [clean] + rest), s);
            && (row.spoken && NeverReprices(rest, s, clean.now) ==> charge == row.reserved)
            && (!row.spoken && UserBounded(t, row.user) ==> charge == 0)
  {
    var t1 := Perform(t, clean);
    assert ([clean] + rest)[1..] == rest;
    CleanupSettles(t, clean.now, clean.ids, clean.orders, s);
    StepKeepsBalance(t, clean);
    if !t.sessions[s].spoken {
      if UserBounded(t, t.sessions[s].user) { RefundedOnlyOnce(t1, rest, s); }
    } else if NeverReprices(rest, s, clean.now) {
      assert ReserveSound(t, s);
      OverdueIsFullPrice(t.sessions[s], clean.now);
      LeavesMinutesIff(t.sessions[s], clean.now);
      FullPriceIsFinal(t1, rest, s, clean.now);
    }
  }
}
