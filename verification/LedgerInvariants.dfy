/** What every ledger statement keeps. `Books` and `Balanced` hold over all runs; `Bounded`
    holds of one session, whatever happens to the others, as long as it is not itself
    refunded again after FailSession has refunded it. */
module LedgerInvariants {
  import opened Options
  import opened Distribution
  import opened Sessions
  import opened Ledger
  import opened LedgerTotals

  ghost predicate EntryFits(t: Tables, e: Entry) {
    && e.grant < |t.grants|
    && e.user == t.grants[e.grant].user
    && (e.session.Some? ==> e.session.value < |t.sessions| && t.sessions[e.session.value].user == e.user)
    && (e.session.Some? <==> e.reason in {SessionReserve, SessionRefund, ErrorRefund})
  }

  function Opening(g: nat): Filter { Filter(Exactly(g), Absent, Any) }

  function SpentOn(g: nat): Filter { Filter(Exactly(g), Present, Any) }

  function OfGrant(g: nat): Filter { Filter(Exactly(g), Any, Any) }

  // The grant row agrees with the log, and stays within its minutes.
  ghost predicate GrantBalanced(t: Tables, g: nat)
    requires g < |t.grants|
  {
    && 0 <= t.grants[g].remaining <= t.grants[g].initial
    && 0 < t.grants[g].initial
    && Total(t.entries, Opening(g)) == t.grants[g].initial
    && Total(t.entries, SpentOn(g)) == t.grants[g].remaining - t.grants[g].initial
  }

  // A session reserved its minutes in one entry per grant.
  ghost predicate ReserveSound(t: Tables, s: nat)
    requires s < |t.sessions|
  {
    var rows := ReserveRows(t.entries, s);
    && DistinctRows(rows) && PositiveCaps(rows)
    && Capacity(rows) == t.sessions[s].reserved == t.sessions[s].duration
    && t.sessions[s].reserved >= 1
    && forall i | 0 <= i < |rows| :: rows[i].grant < |t.grants| && t.grants[rows[i].grant].user == t.sessions[s].user
  }

  ghost predicate Books(t: Tables) {
    && (forall i | 0 <= i < |t.entries| :: EntryFits(t, t.entries[i]))
    && (forall g | 0 <= g < |t.grants| :: GrantBalanced(t, g))
    && (forall s | 0 <= s < |t.sessions| :: ReserveSound(t, s))
  }

  predicate Refunded(t: Tables, s: nat) { HasReason(t, s, SessionRefund) || HasReason(t, s, ErrorRefund) }

  // The minutes a session has cost so far, over all grants together.
  function Charge(t: Tables, s: nat): int { -Total(t.entries, OfSession(s)) }

  // Session s has given back no more than it took, on each grant and in all.
  ghost predicate Bounded(t: Tables, s: nat)
    requires s < |t.sessions|
  {
    && (forall g: nat :: Total(t.entries, Pair(s, g)) <= 0)
    && 0 <= Charge(t, s) <= t.sessions[s].reserved
  }

  ghost predicate UserBounded(t: Tables, user: nat) {
    forall s | 0 <= s < |t.sessions| && t.sessions[s].user == user :: Bounded(t, s)
  }

  // No open session has been refunded.
  ghost predicate Balanced(t: Tables) {
    Books(t) && forall s | 0 <= s < |t.sessions| && IsOpen(t.sessions[s].status) :: !Refunded(t, s)
  }

  // Writes to the sessions table that move no minutes.
  ghost predicate SameMinutes(a: Session, b: Session) {
    a.user == b.user && a.reserved == b.reserved && a.duration == b.duration
  }

  lemma {:induction false} StatusWrites(t: Tables, t': Tables)
    requires t'.grants == t.grants && t'.entries == t.entries && |t'.sessions| == |t.sessions|
    requires forall s | 0 <= s < |t.sessions| :: SameMinutes(t.sessions[s], t'.sessions[s])
    ensures Books(t) ==> Books(t')
    ensures forall s | 0 <= s < |t.sessions| :: Charge(t', s) == Charge(t, s) && (Bounded(t, s) ==> Bounded(t', s))
  {
    if Books(t) {
      forall i | 0 <= i < |t'.entries| ensures EntryFits(t', t'.entries[i]) {
        assert EntryFits(t, t.entries[i]);
      }
      forall g | 0 <= g < |t'.grants| ensures GrantBalanced(t', g) {
        assert GrantBalanced(t, g);
      }
      forall s | 0 <= s < |t'.sessions| ensures ReserveSound(t', s) {
        assert ReserveSound(t, s) && SameMinutes(t.sessions[s], t'.sessions[s]);
      }
    }
    forall s | 0 <= s < |t.sessions|
      ensures Charge(t', s) == Charge(t, s) && (Bounded(t, s) ==> Bounded(t', s))
    {
      assert SameMinutes(t.sessions[s], t'.sessions[s]);
    }
  }

  // ---- A new grant ----

  lemma {:induction false} InsertGrantBooks(t: Tables, grant: Grant, reason: Reason)
    requires Books(t) && grant.initial > 0 && grant.remaining == grant.initial
    requires reason !in {SessionReserve, SessionRefund, ErrorRefund}
    ensures Books(InsertGrant(t, grant, reason))
    ensures forall s: nat :: Charge(InsertGrant(t, grant, reason), s) == Charge(t, s)
    ensures forall s | 0 <= s < |t.sessions| && Bounded(t, s) :: Bounded(InsertGrant(t, grant, reason), s)
  {
    var t' := InsertGrant(t, grant, reason);
    var log := [Entry(grant.user, |t.grants|, grant.initial, reason, None)];
    forall f: Filter ensures Total(t'.entries, f) == Total(t.entries, f) + if f.Matches(log[0]) then grant.initial else 0 {
      assert t'.entries[..|t'.entries| - 1] == t.entries;
    }
    forall i | 0 <= i < |t'.entries| ensures EntryFits(t', t'.entries[i]) {
      if i < |t.entries| { assert EntryFits(t, t.entries[i]); }
    }
    forall g | 0 <= g < |t'.grants| ensures GrantBalanced(t', g) {
      if g < |t.grants| {
        assert GrantBalanced(t, g);
      } else {
        forall i | 0 <= i < |t.entries| ensures t.entries[i].grant != g { assert EntryFits(t, t.entries[i]); }
        TotalNone(t.entries, Opening(g));
        TotalNone(t.entries, SpentOn(g));
      }
    }
    forall s: nat ensures ReserveRows(t'.entries, s) == ReserveRows(t.entries, s) {
      ReserveRowsAppend(t.entries, log, s);
      ReserveRowsNone(log, s);
    }
    forall s | 0 <= s < |t'.sessions| ensures ReserveSound(t', s) {
      assert ReserveSound(t, s);
    }
  }

  // ---- A statement that moves minutes ----

  lemma {:induction false} AmountCases(moves: seq<Share>, g: nat)
    requires DistinctShares(moves)
    ensures (exists i | 0 <= i < |moves| :: moves[i].grant == g && AmountOf(moves, g) == moves[i].amount)
            || (AmountOf(moves, g) == 0 && forall i | 0 <= i < |moves| :: moves[i].grant != g)
  {
    if i :| 0 <= i < |moves| && moves[i].grant == g {
      AmountOfDistinct(moves, i);
    } else {
      AmountOfAbsent(moves, g);
    }
  }

  ghost predicate MovesFit(t: Tables, user: nat, moves: seq<Share>) {
    && WithinGrants(moves, |t.grants|)
    && DistinctShares(moves)
    && forall i | 0 <= i < |moves| ::
         && t.grants[moves[i].grant].user == user
         && 0 <= t.grants[moves[i].grant].remaining + moves[i].amount <= t.grants[moves[i].grant].initial
  }

  // How a statement for session s changes the sums.
  lemma {:induction false} MoveTotals(t: Tables, user: nat, moves: seq<Share>, reason: Reason, s: nat)
    requires WithinGrants(moves, |t.grants|)
    ensures var t' := Move(t, user, moves, reason, s);
            && (forall g: nat :: Total(t'.entries, SpentOn(g)) == Total(t.entries, SpentOn(g)) + AmountOf(moves, g))
            && (forall g: nat :: Total(t'.entries, Opening(g)) == Total(t.entries, Opening(g)))
            && (forall g: nat :: Total(t'.entries, Pair(s, g)) == Total(t.entries, Pair(s, g)) + AmountOf(moves, g))
            && Total(t'.entries, OfSession(s)) == Total(t.entries, OfSession(s)) + Sum(moves)
            && (forall k: nat, g: nat | k != s :: Total(t'.entries, Pair(k, g)) == Total(t.entries, Pair(k, g)))
            && (forall k: nat | k != s :: Total(t'.entries, OfSession(k)) == Total(t.entries, OfSession(k)))
            && (forall g: nat | g < |t.grants| ::
                  t'.grants[g] == t.grants[g].(remaining := t.grants[g].remaining + AmountOf(moves, g)))
  {
    var t' := Move(t, user, moves, reason, s);
    var log := LogOf(user, moves, reason, s);
    forall g: nat
      ensures Total(t'.entries, SpentOn(g)) == Total(t.entries, SpentOn(g)) + AmountOf(moves, g)
      ensures Total(t'.entries, Opening(g)) == Total(t.entries, Opening(g))
      ensures Total(t'.entries, Pair(s, g)) == Total(t.entries, Pair(s, g)) + AmountOf(moves, g)
    {
      TotalAppend(t.entries, log, SpentOn(g));
      TotalAppend(t.entries, log, Opening(g));
      TotalAppend(t.entries, log, Pair(s, g));
      LogTotal(user, moves, reason, s, SpentOn(g));
      LogUnseen(user, moves, reason, s, Opening(g));
      LogTotal(user, moves, reason, s, Pair(s, g));
    }
    TotalAppend(t.entries, log, OfSession(s));
    LogTotal(user, moves, reason, s, OfSession(s));
    forall k: nat, g: nat | k != s ensures Total(t'.entries, Pair(k, g)) == Total(t.entries, Pair(k, g)) {
      TotalAppend(t.entries, log, Pair(k, g));
      LogUnseen(user, moves, reason, s, Pair(k, g));
    }
    forall k: nat | k != s ensures Total(t'.entries, OfSession(k)) == Total(t.entries, OfSession(k)) {
      TotalAppend(t.entries, log, OfSession(k));
      LogUnseen(user, moves, reason, s, OfSession(k));
    }
    forall g: nat | g < |t.grants|
      ensures t'.grants[g] == t.grants[g].(remaining := t.grants[g].remaining + AmountOf(moves, g))
    {
      AddAllAmounts(t.grants, moves, g);
    }
  }

  lemma {:induction false} MoveReasons(t: Tables, user: nat, moves: seq<Share>, reason: Reason, s: nat)
    requires WithinGrants(moves, |t.grants|)
    ensures var t' := Move(t, user, moves, reason, s);
            && (forall k: nat, r: Reason ::
                  HasReason(t', k, r) <==> HasReason(t, k, r) || (k == s && r == reason && moves != []))
            && (forall k: nat | k != s || reason != SessionReserve ::
                  ReserveRows(t'.entries, k) == ReserveRows(t.entries, k))
  {
    var t' := Move(t, user, moves, reason, s);
    var log := LogOf(user, moves, reason, s);
    LogShape(user, moves, reason, s);
    forall k: nat, r: Reason
      ensures HasReason(t', k, r) <==> HasReason(t, k, r) || (k == s && r == reason && moves != [])
    {
      if HasReason(t, k, r) {
        var e :| e in t.entries && e.session == Some(k) && e.reason == r;
        assert e in t'.entries;
      }
      if k == s && r == reason && moves != [] {
        assert log[0] in t'.entries;
      }
    }
    forall k: nat | k != s || reason != SessionReserve
      ensures ReserveRows(t'.entries, k) == ReserveRows(t.entries, k)
    {
      ReserveRowsAppend(t.entries, log, k);
      ReserveRowsNone(log, k);
    }
  }

  // Books survive any statement whose moves fit.
  lemma {:induction false} MoveBooks(t: Tables, user: nat, moves: seq<Share>, reason: Reason, s: nat)
    requires Books(t) && s < |t.sessions| && t.sessions[s].user == user
    requires reason == SessionRefund || reason == ErrorRefund
    requires MovesFit(t, user, moves)
    ensures Books(Move(t, user, moves, reason, s))
  {
    var t' := Move(t, user, moves, reason, s);
    MoveTotals(t, user, moves, reason, s);
    MoveReasons(t, user, moves, reason, s);
    MoveEntriesFit(t, user, moves, reason, s);
    forall g | 0 <= g < |t'.grants| ensures GrantBalanced(t', g) {
      assert GrantBalanced(t, g);
      AmountCases(moves, g);
    }
    forall k | 0 <= k < |t'.sessions| ensures ReserveSound(t', k) {
      assert ReserveSound(t, k);
    }
  }

  // Moving minutes changes no grant's owner.
  lemma {:induction false} OwnersStay(t: Tables, user: nat, moves: seq<Share>, reason: Reason, s: nat)
    requires WithinGrants(moves, |t.grants|)
    ensures var t' := Move(t, user, moves, reason, s);
            && |t'.grants| == |t.grants| && t'.sessions == t.sessions
            && forall g | 0 <= g < |t.grants| :: t'.grants[g].user == t.grants[g].user
  {
    forall g | 0 <= g < |t.grants| ensures Move(t, user, moves, reason, s).grants[g].user == t.grants[g].user {
      AddAllAmounts(t.grants, moves, g);
    }
  }

  lemma {:induction false} MoveEntriesFit(t: Tables, user: nat, moves: seq<Share>, reason: Reason, s: nat)
    requires forall i | 0 <= i < |t.entries| :: EntryFits(t, t.entries[i])
    requires s < |t.sessions| && t.sessions[s].user == user
    requires reason in {SessionReserve, SessionRefund, ErrorRefund}
    requires MovesFit(t, user, moves)
    ensures var t' := Move(t, user, moves, reason, s);
            forall i | 0 <= i < |t'.entries| :: EntryFits(t', t'.entries[i])
  {
    var t' := Move(t, user, moves, reason, s);
    var log := LogOf(user, moves, reason, s);
    OwnersStay(t, user, moves, reason, s);
    LogShape(user, moves, reason, s);
    forall i | 0 <= i < |t.entries| ensures EntryFits(t', t.entries[i]) {
      assert EntryFits(t, t.entries[i]);
    }
    forall i | 0 <= i < |log| ensures EntryFits(t', log[i]) {
      assert log[i] == Entry(user, moves[i].grant, moves[i].amount, reason, Some(s));
    }
    assert t'.entries == t.entries + log;
  }

  // ---- Refunds ----

  lemma {:induction false} AcceptedIsSubset(grants: seq<Grant>, shares: seq<Share>)
    ensures var r := Accepted(grants, shares);
            && (forall m :: m in r <==> m in shares && Lands(grants, m))
            && (DistinctShares(shares) ==> DistinctShares(r))
  {
    if shares == [] {
    } else {
      AcceptedIsSubset(grants, shares[1..]);
      var rest := Accepted(grants, shares[1..]);
      if DistinctShares(shares) {
        forall i | 0 <= i < |rest| ensures rest[i].grant != shares[0].grant {
          assert rest[i] in shares[1..];
        }
      }
    }
  }

  // Whatever was refunded before, a refund's accepted credits fit the grants.
  lemma {:induction false} CreditFits(t: Tables, s: nat, total: int, order: seq<Row>)
    requires Books(t) && s < |t.sessions|
    requires multiset(order) == multiset(ReserveRows(t.entries, s))
    requires total >= 0
    ensures MovesFit(t, t.sessions[s].user, Accepted(t.grants, Distribute(order, total)))
  {
    var rows := ReserveRows(t.entries, s);
    var shares := Distribute(order, total);
    var moves := Accepted(t.grants, shares);
    assert ReserveSound(t, s);
    ReorderKeepsShape(rows, order);
    DistributeIsGreedy(order, total);
    AcceptedIsSubset(t.grants, shares);
    forall i | 0 <= i < |moves|
      ensures && t.grants[moves[i].grant].user == t.sessions[s].user
              && 0 <= t.grants[moves[i].grant].remaining + moves[i].amount <= t.grants[moves[i].grant].initial
    {
      assert moves[i] in shares;
      var j :| 0 <= j < |shares| && shares[j] == moves[i];
      assert order[j] in rows;
      assert GrantBalanced(t, moves[i].grant);
    }
  }

  // If no session of the user nets a gain, a session's reserve row never exceeds what its
  // grant is short of.
  lemma {:induction false} RoomForReserve(t: Tables, s: nat, g: nat)
    requires Books(t) && s < |t.sessions| && g < |t.grants| && UserBounded(t, t.grants[g].user)
    ensures t.grants[g].remaining - Total(t.entries, Pair(s, g)) <= t.grants[g].initial
  {
    forall k | 0 <= k < |t.sessions| ensures Total(t.entries, Pair(k, g)) <= 0 {
      if t.sessions[k].user == t.grants[g].user {
        assert Bounded(t, k);
      } else {
        forall i | 0 <= i < |t.entries| ensures !Pair(k, g).Matches(t.entries[i]) { assert EntryFits(t, t.entries[i]); }
        TotalNone(t.entries, Pair(k, g));
      }
    }
    OneSessionBounds(t.entries, g, s, |t.sessions|);
    forall i | 0 <= i < |t.entries|
      ensures SpentOn(g).Matches(t.entries[i]) <==> Filter(Exactly(g), Below(|t.sessions|), Any).Matches(t.entries[i])
    {
      assert EntryFits(t, t.entries[i]);
    }
    TotalSame(t.entries, SpentOn(g), Filter(Exactly(g), Below(|t.sessions|), Any));
    assert GrantBalanced(t, g);
  }

  lemma {:induction false} OnlyReservesUnlessRefunded(t: Tables, s: nat)
    requires Books(t) && !Refunded(t, s)
    ensures OnlyReserves(t.entries, s)
  {
  }

  // The over-credit filter drops no share that is positive.
  predicate AllLand(grants: seq<Grant>, shares: seq<Share>) {
    forall m | m in shares && m.amount > 0 :: Lands(grants, m)
  }

  // What the filter accepts is everything exactly when no positive share is dropped.
  lemma {:induction false} AcceptedSum(grants: seq<Grant>, shares: seq<Share>)
    requires forall m | m in shares :: m.amount >= 0
    ensures 0 <= Sum(Accepted(grants, shares)) <= Sum(shares)
    ensures Sum(Accepted(grants, shares)) == Sum(shares) <==> AllLand(grants, shares)
    ensures Sum(Accepted(grants, shares)) > 0 <==> exists m | m in shares :: Lands(grants, m)
  {
    if shares == [] {
    } else {
      assert shares[0] in shares && forall m | m in shares[1..] :: m in shares;
      AcceptedSum(grants, shares[1..]);
      assert forall m :: m in shares <==> m == shares[0] || m in shares[1..];
      if Lands(grants, shares[0]) {
        assert Accepted(grants, shares)[1..] == Accepted(grants, shares[1..]);
      } else {
        assert Accepted(grants, shares) == Accepted(grants, shares[1..]);
      }
    }
  }

  // The shares of a refund: they make up the total, and none exceeds what the session
  // reserved on its grant.
  lemma {:induction false} RefundShares(t: Tables, s: nat, total: int, order: seq<Row>)
    requires Books(t) && s < |t.sessions|
    requires multiset(order) == multiset(ReserveRows(t.entries, s))
    requires 0 <= total <= t.sessions[s].reserved
    ensures var shares := Distribute(order, total);
            && Sum(shares) == total
            && DistinctShares(shares)
            && (forall m | m in shares ::
                  && 0 <= m.amount
                  && m.grant < |t.grants| && t.grants[m.grant].user == t.sessions[s].user
                  && (!Refunded(t, s) ==> m.amount <= -Total(t.entries, Pair(s, m.grant))))
  {
    var rows, shares := ReserveRows(t.entries, s), Distribute(order, total);
    assert ReserveSound(t, s);
    ReorderKeepsShape(rows, order);
    ReorderKeepsCapacity(rows, order);
    DistributeIsGreedy(order, total);
    DistributeConserves(order, total);
    forall m | m in shares
      ensures 0 <= m.amount && m.grant < |t.grants| && t.grants[m.grant].user == t.sessions[s].user
      ensures !Refunded(t, s) ==> m.amount <= -Total(t.entries, Pair(s, m.grant))
    {
      var i :| 0 <= i < |shares| && shares[i] == m;
      assert order[i] in rows;
      if !Refunded(t, s) {
        OnlyReservesUnlessRefunded(t, s);
        PairBeforeRefund(t.entries, s, m.grant);
      }
    }
  }

  // As long as no session of the user has netted a gain, the filter drops nothing of a
  // session's first refund, in any order of the reserve rows.
  lemma {:induction false} FirstRefundIsExact(t: Tables, s: nat, total: int, order: seq<Row>)
    requires Books(t) && s < |t.sessions| && !Refunded(t, s) && UserBounded(t, t.sessions[s].user)
    requires multiset(order) == multiset(ReserveRows(t.entries, s))
    requires 0 <= total <= t.sessions[s].reserved
    ensures AllLand(t.grants, Distribute(order, total))
    ensures Sum(Accepted(t.grants, Distribute(order, total))) == total
  {
    var shares := Distribute(order, total);
    RefundShares(t, s, total, order);
    forall m | m in shares && m.amount > 0 ensures Lands(t.grants, m) { RoomForReserve(t, s, m.grant); }
    AcceptedSum(t.grants, shares);
  }

  lemma {:induction false} ChargeBeforeRefund(t: Tables, s: nat)
    requires Books(t) && s < |t.sessions| && !Refunded(t, s)
    ensures Charge(t, s) == t.sessions[s].reserved
  {
    assert ReserveSound(t, s);
    OnlyReservesUnlessRefunded(t, s);
    SessionBeforeRefund(t.entries, s);
  }

  // What a refund statement leaves alone.
  lemma {:induction false} CreditFrame(t: Tables, s: nat, total: int, reason: Reason, order: seq<Row>)
    requires s < |t.sessions| && (reason == SessionRefund || reason == ErrorRefund)
    ensures var t' := Credit(t, s, total, reason, order);
            && t'.sessions == t.sessions
            && (forall k: nat | k != s :: Charge(t', k) == Charge(t, k))
            && (forall k: nat | k != s && k < |t.sessions| && Bounded(t, k) :: Bounded(t', k))
            && (forall k: nat, r: Reason | k != s || r != reason :: HasReason(t', k, r) == HasReason(t, k, r))
            && (forall k: nat :: ReserveRows(t'.entries, k) == ReserveRows(t.entries, k))
  {
    if !HasReason(t, s, SessionRefund) {
      var moves := Accepted(t.grants, Distribute(order, total));
      MoveTotals(t, t.sessions[s].user, moves, reason, s);
      MoveReasons(t, t.sessions[s].user, moves, reason, s);
    }
  }

  // A refund statement that meets no marker: it pays what the filter accepts.
  lemma {:induction false} CreditPays(t: Tables, s: nat, total: int, reason: Reason, order: seq<Row>)
    requires Books(t) && s < |t.sessions| && !HasReason(t, s, SessionRefund)
    requires multiset(order) == multiset(ReserveRows(t.entries, s))
    requires 0 <= total <= t.sessions[s].reserved
    requires reason == SessionRefund || reason == ErrorRefund
    ensures var t' := Credit(t, s, total, reason, order);
            var shares := Distribute(order, total);
            && Charge(t, s) - total <= Charge(t', s) <= Charge(t, s)
            && (Charge(t', s) == Charge(t, s) - total <==> AllLand(t.grants, shares))
            && (Charge(t', s) < Charge(t, s) <==> exists m | m in shares :: Lands(t.grants, m))
            && (HasReason(t', s, reason) <==> HasReason(t, s, reason) || exists m | m in shares :: Lands(t.grants, m))
  {
    var shares := Distribute(order, total);
    var moves := Accepted(t.grants, shares);
    RefundShares(t, s, total, order);
    AcceptedSum(t.grants, shares);
    AcceptedIsSubset(t.grants, shares);
    MoveTotals(t, t.sessions[s].user, moves, reason, s);
    MoveReasons(t, t.sessions[s].user, moves, reason, s);
    if moves != [] { assert moves[0] in moves; }
  }

  // The first refund of a session keeps it bounded, whatever was refunded to others.
  lemma {:induction false} FirstCreditBounds(t: Tables, s: nat, total: int, reason: Reason, order: seq<Row>)
    requires Books(t) && s < |t.sessions| && !Refunded(t, s)
    requires multiset(order) == multiset(ReserveRows(t.entries, s))
    requires 0 <= total <= t.sessions[s].reserved
    requires reason == SessionRefund || reason == ErrorRefund
    ensures Bounded(Credit(t, s, total, reason, order), s)
  {
    var t' := Credit(t, s, total, reason, order);
    var shares := Distribute(order, total);
    var moves := Accepted(t.grants, shares);
    ChargeBeforeRefund(t, s);
    CreditPays(t, s, total, reason, order);
    RefundShares(t, s, total, order);
    AcceptedIsSubset(t.grants, shares);
    MoveTotals(t, t.sessions[s].user, moves, reason, s);
    forall g: nat ensures Total(t'.entries, Pair(s, g)) <= 0 { NothingOwed(t, s, moves, g); }
  }

  lemma {:induction false} NothingOwed(t: Tables, s: nat, moves: seq<Share>, g: nat)
    requires Books(t) && s < |t.sessions| && !Refunded(t, s) && DistinctShares(moves)
    requires forall m | m in moves :: m.amount <= -Total(t.entries, Pair(s, m.grant))
    ensures Total(t.entries, Pair(s, g)) + AmountOf(moves, g) <= 0
  {
    AmountCases(moves, g);
    if i :| 0 <= i < |moves| && moves[i].grant == g && AmountOf(moves, g) == moves[i].amount {
      assert moves[i] in moves;
    } else {
      var rows := ReserveRows(t.entries, s);
      assert ReserveSound(t, s);
      OnlyReservesUnlessRefunded(t, s);
      PairBeforeRefund(t.entries, s, g);
      if r :| r in rows && r.grant == g {
        var j :| 0 <= j < |rows| && rows[j] == r;
      }
    }
  }

  // A refund statement on a session that no statement has refunded yet: it is charged its
  // reservation less the total exactly when the filter drops nothing.
  lemma {:induction false} FirstCredit(t: Tables, s: nat, total: int, reason: Reason, order: seq<Row>)
    requires Books(t) && s < |t.sessions| && !Refunded(t, s)
    requires multiset(order) == multiset(ReserveRows(t.entries, s))
    requires 0 <= total <= t.sessions[s].reserved
    requires reason == SessionRefund || reason == ErrorRefund
    ensures var t' := Credit(t, s, total, reason, order);
            var shares := Distribute(order, total);
            && Books(t') && Bounded(t', s)
            && t.sessions[s].reserved - total <= Charge(t', s) <= t.sessions[s].reserved
            && (Charge(t', s) == t.sessions[s].reserved - total <==> AllLand(t.grants, shares))
            && (UserBounded(t, t.sessions[s].user) ==> AllLand(t.grants, shares))
            && (HasReason(t', s, reason) <==> exists m | m in shares :: Lands(t.grants, m))
  {
    ChargeBeforeRefund(t, s);
    CreditPays(t, s, total, reason, order);
    FirstCreditBounds(t, s, total, reason, order);
    CreditFits(t, s, total, order);
    MoveBooks(t, t.sessions[s].user, Accepted(t.grants, Distribute(order, total)), reason, s);
    if UserBounded(t, t.sessions[s].user) { FirstRefundIsExact(t, s, total, order); }
  }

  // ---- Reservations ----

  lemma {:induction false} PositiveIsAll(shares: seq<Share>)
    requires forall i | 0 <= i < |shares| :: shares[i].amount > 0
    ensures Positive(shares) == shares
  {
    if shares == [] {
    } else {
      PositiveIsAll(shares[1..]);
    }
  }

  ghost predicate DebitsFit(t: Tables, user: nat, now: Time, debits: seq<Share>) {
    && WithinGrants(debits, |t.grants|)
    && DistinctShares(debits)
    && forall i | 0 <= i < |debits| ::
         && IsEligible(t.grants[debits[i].grant], user, now)
         && 0 < debits[i].amount <= t.grants[debits[i].grant].remaining
  }

  lemma {:induction false} DebitFacts(t: Tables, user: nat, now: Time, minutes: int, order: seq<nat>)
    requires IsRanking(t, user, now, order) && minutes >= 1
    ensures var balance := Capacity(BalanceRows(t, order));
            var debits := Debits(t, order, minutes);
            && DebitsFit(t, user, now, debits)
            && Sum(debits) == (if balance >= minutes then minutes else 0)
            && (debits == [] <==> balance < minutes)
            && (balance >= minutes ==> debits == Distribute(BalanceRows(t, order), minutes))
  {
    var rows := BalanceRows(t, order);
    assert PositiveCaps(rows) && DistinctRows(rows);
    DistributeIsGreedy(rows, minutes);
    DistributeConserves(rows, minutes);
    PositiveIsAll(Distribute(rows, minutes));
  }

  // The reservation of a new session: its row is the only new one, active since `now`; it is
  // bounded from the start, and no other session changes.
  lemma {:induction false} OpenKeepsBounds(t: Tables, user: nat, minutes: int, now: Time, order: seq<nat>)
    requires Books(t) && IsRanking(t, user, now, order) && minutes >= 1
    ensures var r := OpenSession(t, user, minutes, now, order);
            && (r.Some? <==> Capacity(BalanceRows(t, order)) >= minutes)
            && (r.Some? ==>
                  && Books(r.value)
                  && r.value.sessions == t.sessions + [Session(user, Active, minutes, minutes, now, None, 0, false, false)]
                  && Bounded(r.value, |t.sessions|) && !Refunded(r.value, |t.sessions|)
                  && Charge(r.value, |t.sessions|) == minutes
                  && (forall k: nat | k < |t.sessions| && Bounded(t, k) :: Bounded(r.value, k))
                  && (forall k: nat | k != |t.sessions| :: Charge(r.value, k) == Charge(t, k))
                  && (forall k: nat, r': Reason | k != |t.sessions| ::
                        HasReason(r.value, k, r') == HasReason(t, k, r')))
  {
    var s := |t.sessions|;
    var t1 := t.(sessions := t.sessions + [Session(user, Active, minutes, minutes, now, None, 0, false, false)]);
    assert BalanceRows(t1, order) == BalanceRows(t, order);
    var debits := Debits(t1, order, minutes);
    DebitFacts(t1, user, now, minutes, order);
    if debits != [] {
      ReserveKeepsBooks(t, t1, user, now, debits);
      MoveTotals(t1, user, Negated(debits), SessionReserve, s);
      MoveReasons(t1, user, Negated(debits), SessionReserve, s);
      NegatedAmounts(debits, 0);
      assert forall k: nat, r: Reason :: HasReason(t1, k, r) == HasReason(t, k, r);
      NoEntriesYet(t, s);
      NewSessionBounded(t, t1, user, now, debits);
      forall k: nat | k < s && Bounded(t, k)
        ensures Bounded(Move(t1, user, Negated(debits), SessionReserve, s), k)
      {
        OldSessionBounded(t, t1, user, now, debits, k);
      }
    }
  }

  // The opened session, and the tables with its row but not yet its reservation.
  ghost predicate Opens(t: Tables, t1: Tables, user: nat, now: Time, debits: seq<Share>) {
    && t1.grants == t.grants && t1.entries == t.entries
    && |t1.sessions| == |t.sessions| + 1 && t1.sessions[..|t.sessions|] == t.sessions
    && t1.sessions[|t.sessions|].reserved == Sum(debits) >= 0
    && DebitsFit(t1, user, now, debits) && WithinGrants(Negated(debits), |t1.grants|)
  }

  lemma {:induction false} OldSessionBounded(t: Tables, t1: Tables, user: nat, now: Time, debits: seq<Share>, k: nat)
    requires Opens(t, t1, user, now, debits) && k < |t.sessions| && Bounded(t, k)
    ensures Bounded(Move(t1, user, Negated(debits), SessionReserve, |t.sessions|), k)
  {
    MoveTotals(t1, user, Negated(debits), SessionReserve, |t.sessions|);
    assert t1.sessions[k] == t1.sessions[..|t.sessions|][k];
  }

  lemma {:induction false} PositiveAmounts(moves: seq<Share>, g: nat)
    requires DistinctShares(moves) && forall i | 0 <= i < |moves| :: moves[i].amount > 0
    ensures AmountOf(moves, g) >= 0
  {
    AmountCases(moves, g);
  }

  lemma {:induction false} OwesNothingYet(t: Tables, s: nat, g: nat)
    requires Books(t) && s >= |t.sessions|
    ensures Total(t.entries, Pair(s, g)) == 0
  {
    NoEntriesYet(t, s);
    TotalNone(t.entries, Pair(s, g));
  }

  lemma {:induction false} NewSessionBounded(t: Tables, t1: Tables, user: nat, now: Time, debits: seq<Share>)
    requires Books(t) && Opens(t, t1, user, now, debits)
    ensures Bounded(Move(t1, user, Negated(debits), SessionReserve, |t.sessions|), |t.sessions|)
  {
    var s, moves := |t.sessions|, Negated(debits);
    MoveTotals(t1, user, moves, SessionReserve, s);
    NoEntriesYet(t, s);
    NegatedAmounts(debits, 0);
    forall g: nat ensures Total(t1.entries, Pair(s, g)) + AmountOf(moves, g) <= 0 {
      OwesNothingYet(t, s, g);
      NegatedAmounts(debits, g);
      PositiveAmounts(debits, g);
    }
  }

  lemma {:induction false} NoEntriesYet(t: Tables, s: nat)
    requires Books(t) && s >= |t.sessions|
    ensures forall i | 0 <= i < |t.entries| :: t.entries[i].session != Some(s)
    ensures !Refunded(t, s) && Charge(t, s) == 0 && ReserveRows(t.entries, s) == []
  {
    forall i | 0 <= i < |t.entries| ensures t.entries[i].session != Some(s) { assert EntryFits(t, t.entries[i]); }
    TotalNone(t.entries, OfSession(s));
    ReserveRowsNone(t.entries, s);
  }

  lemma {:induction false} ReserveFits(t: Tables, user: nat, now: Time, debits: seq<Share>)
    requires Books(t) && DebitsFit(t, user, now, debits)
    ensures MovesFit(t, user, Negated(debits))
  {
    var moves := Negated(debits);
    forall i | 0 <= i < |moves|
      ensures && t.grants[moves[i].grant].user == user
              && 0 <= t.grants[moves[i].grant].remaining + moves[i].amount <= t.grants[moves[i].grant].initial
    {
      assert GrantBalanced(t, debits[i].grant);
    }
  }

  lemma {:induction false} NewReserveRows(t: Tables, user: nat, debits: seq<Share>)
    requires Books(t)
    ensures var s := |t.sessions|;
            var rows := ReserveRows(t.entries + LogOf(user, Negated(debits), SessionReserve, s), s);
            && |rows| == |debits|
            && (forall i | 0 <= i < |rows| :: rows[i] == Row(debits[i].grant, debits[i].amount))
            && Capacity(rows) == Sum(debits)
  {
    var s := |t.sessions|;
    var log := LogOf(user, Negated(debits), SessionReserve, s);
    NoEntriesYet(t, s);
    ReserveRowsAppend(t.entries, log, s);
    ReserveRowsOfLog(user, debits, s);
    assert ReserveRows(t.entries + log, s) == ReserveRows(log, s);
  }

  lemma {:induction false} ReserveKeepsBooks(t: Tables, t1: Tables, user: nat, now: Time, debits: seq<Share>)
    requires Books(t)
    requires t1.grants == t.grants && t1.entries == t.entries
    requires |t1.sessions| == |t.sessions| + 1 && t1.sessions[..|t.sessions|] == t.sessions
    requires var row := t1.sessions[|t.sessions|]; row.user == user && row.reserved == row.duration == Sum(debits) >= 1
    requires DebitsFit(t1, user, now, debits)
    ensures WithinGrants(Negated(debits), |t1.grants|)
    ensures Books(Move(t1, user, Negated(debits), SessionReserve, |t.sessions|))
  {
    var s := |t.sessions|;
    var moves := Negated(debits);
    var t' := Move(t1, user, moves, SessionReserve, s);
    assert MovesFit(t1, user, moves) by { ReserveFits(t, user, now, debits); }
    forall i | 0 <= i < |t1.entries| ensures EntryFits(t1, t1.entries[i]) {
      assert EntryFits(t, t.entries[i]);
      var e := t.entries[i];
      if e.session.Some? { assert t1.sessions[e.session.value] == t1.sessions[..s][e.session.value]; }
    }
    MoveEntriesFit(t1, user, moves, SessionReserve, s);
    MoveTotals(t1, user, moves, SessionReserve, s);
    forall g | 0 <= g < |t'.grants| ensures GrantBalanced(t', g) {
      assert GrantBalanced(t, g);
      AmountCases(moves, g);
    }
    forall k | 0 <= k < |t'.sessions| ensures ReserveSound(t', k) {
      ReserveKeepsReserveSound(t, t1, user, now, debits, k);
    }
  }

  lemma {:induction false} ReserveKeepsReserveSound(t: Tables, t1: Tables, user: nat, now: Time, debits: seq<Share>,
                                                    k: nat)
    requires Books(t)
    requires t1.grants == t.grants && t1.entries == t.entries
    requires |t1.sessions| == |t.sessions| + 1 && t1.sessions[..|t.sessions|] == t.sessions
    requires var row := t1.sessions[|t.sessions|]; row.user == user && row.reserved == row.duration == Sum(debits) >= 1
    requires DebitsFit(t1, user, now, debits) && WithinGrants(Negated(debits), |t1.grants|)
    requires k <= |t.sessions|
    ensures ReserveSound(Move(t1, user, Negated(debits), SessionReserve, |t.sessions|), k)
  {
    var s := |t.sessions|;
    MoveTotals(t1, user, Negated(debits), SessionReserve, s);
    if k < s {
      MoveReasons(t1, user, Negated(debits), SessionReserve, s);
      assert ReserveSound(t, k);
      assert t1.sessions[k] == t1.sessions[..s][k];
    } else {
      NewReserveRows(t, user, debits);
    }
  }
}
