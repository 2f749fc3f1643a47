/** The minute ledger: the tables `grants`, `interview_sessions` and
    `ledger_entries`, the SQL statements that move minutes, and the transactions
    built from them.

    The tables are append-only, so a row's id is its position. Every choice that SQL leaves
    open (the rank of tied rows, the order in which a statement returns rows) is a parameter. */
module Ledger {
  import opened Options
  import opened Distribution
  import opened Sessions

  datatype Source = FreeGrant | Subscription | Purchase | Admin

  datatype Grant = Grant(user: nat, source: Source, event: Option<string>,
                         initial: int, remaining: int, expires: Option<Time>)

  datatype Reason = FreeTrial | SubscriptionRenewal | PurchaseMade | AdminGrant
                  | SessionReserve | SessionRefund | ErrorRefund

  datatype Entry = Entry(user: nat, grant: nat, amount: int, reason: Reason, session: Option<nat>)

  datatype Tables = Tables(grants: seq<Grant>, sessions: seq<Session>, entries: seq<Entry>)

  // ---- Creating grants ----

  // Both inserts of a grant statement: the grant and its opening ledger entry.
  function InsertGrant(t: Tables, grant: Grant, reason: Reason): Tables {
    t.(grants := t.grants + [grant],
       entries := t.entries + [Entry(grant.user, |t.grants|, grant.initial, reason, None)])
  }

  function NewGrant(user: nat, source: Source, event: Option<string>, minutes: int, expires: Option<Time>): Grant {
    Grant(user, source, event, minutes, minutes, expires)
  }

  // CHECK (initial_minutes > 0): a statement that violates it changes nothing.
  function CreateAdminGrant(t: Tables, user: nat, minutes: int): Tables {
    if minutes <= 0 then t
    else InsertGrant(t, NewGrant(user, Admin, None, minutes, None), AdminGrant)
  }

  predicate EventSeen(t: Tables, event: string) {
    exists g | 0 <= g < |t.grants| :: t.grants[g].event == Some(event)
  }

  function CreatePurchaseGrant(t: Tables, user: nat, event: string, minutes: int): Tables {
    if minutes <= 0 || EventSeen(t, event) then t
    else InsertGrant(t, NewGrant(user, Purchase, Some(event), minutes, None), PurchaseMade)
  }

  function CreateSubscriptionGrant(t: Tables, user: nat, event: string, minutes: int): Tables {
    if minutes <= 0 || EventSeen(t, event) then t
    else InsertGrant(t, NewGrant(user, Subscription, Some(event), minutes, None), SubscriptionRenewal)
  }

  predicate HasFreeGrant(t: Tables, user: nat) {
    exists g | 0 <= g < |t.grants| :: t.grants[g].user == user && t.grants[g].source == FreeGrant
  }

  function EnsureFreeGrant(t: Tables, user: nat, minutes: int, expires: Time): Tables {
    if minutes <= 0 || HasFreeGrant(t, user) then t
    else InsertGrant(t, NewGrant(user, FreeGrant, None, minutes, Some(expires)), FreeTrial)
  }

  // ---- Moving minutes ----

  // The shares name existing grants.
  predicate WithinGrants(shares: seq<Share>, n: nat) { forall i | 0 <= i < |shares| :: shares[i].grant < n }

  function AddAll(grants: seq<Grant>, moves: seq<Share>): (r: seq<Grant>)
    requires WithinGrants(moves, |grants|)
    ensures |r| == |grants|
    decreases |moves|
  {
    if moves == [] then grants
    else
      var g := moves[0].grant;
      AddAll(grants[g := grants[g].(remaining := grants[g].remaining + moves[0].amount)], moves[1..])
  }

  function LogOf(user: nat, moves: seq<Share>, reason: Reason, session: nat): seq<Entry> {
    if moves == [] then []
    else [Entry(user, moves[0].grant, moves[0].amount, reason, Some(session))]
         + LogOf(user, moves[1..], reason, session)
  }

  // A data-modifying CTE: the UPDATE of grants and the INSERT of its returned rows.
  function Move(t: Tables, user: nat, moves: seq<Share>, reason: Reason, session: nat): Tables
    requires WithinGrants(moves, |t.grants|)
  {
    t.(grants := AddAll(t.grants, moves),
       entries := t.entries + LogOf(user, moves, reason, session))
  }

  // ---- ReserveMinutes ----

  predicate IsEligible(grant: Grant, user: nat, now: Time) {
    && grant.user == user
    && grant.remaining > 0
    && (grant.expires.None? || grant.expires.value > now)
  }

  // expires_at ASC NULLS LAST
  predicate NoLater(a: Option<Time>, b: Option<Time>) {
    b.None? || (a.Some? && a.value <= b.value)
  }

  predicate StrictlyEarlier(a: Option<Time>, b: Option<Time>) { !NoLater(b, a) }

  predicate NamesGrants(t: Tables, order: seq<nat>) { forall i | 0 <= i < |order| :: order[i] < |t.grants| }

  // `order` is one of the rankings the window function may produce.
  predicate IsRanking(t: Tables, user: nat, now: Time, order: seq<nat>) {
    && (forall i, j | 0 <= i < j < |order| :: order[i] != order[j])
    && NamesGrants(t, order)
    && (forall i | 0 <= i < |order| :: IsEligible(t.grants[order[i]], user, now))
    && (forall g | 0 <= g < |t.grants| && IsEligible(t.grants[g], user, now) :: g in order)
    && (forall i, j | 0 <= i < j < |order| :: NoLater(t.grants[order[i]].expires, t.grants[order[j]].expires))
  }

  function BalanceRows(t: Tables, order: seq<nat>): (rows: seq<Row>)
    requires NamesGrants(t, order)
    ensures |rows| == |order|
    ensures forall i | 0 <= i < |order| :: rows[i] == Row(order[i], t.grants[order[i]].remaining)
  {
    seq(|order|, i requires 0 <= i < |order| => Row(order[i], t.grants[order[i]].remaining))
  }

  function Positive(shares: seq<Share>): seq<Share> {
    if shares == [] then []
    else (if shares[0].amount > 0 then [shares[0]] else []) + Positive(shares[1..])
  }

  function Negated(shares: seq<Share>): (r: seq<Share>)
    ensures |r| == |shares|
    ensures forall i | 0 <= i < |shares| :: r[i] == Share(shares[i].grant, -shares[i].amount)
  {
    seq(|shares|, i requires 0 <= i < |shares| => Share(shares[i].grant, -shares[i].amount))
  }

  // The debits of apply_debits; no rows at all when the balance is too small.
  function Debits(t: Tables, order: seq<nat>, minutes: int): seq<Share>
    requires NamesGrants(t, order)
  {
    var rows := BalanceRows(t, order);
    if Capacity(rows) >= minutes then Positive(Distribute(rows, minutes)) else []
  }

  lemma {:induction false} PositiveWithin(shares: seq<Share>, n: nat)
    requires WithinGrants(shares, n)
    ensures WithinGrants(Positive(shares), n)
  {
    if shares == [] {
    } else {
      PositiveWithin(shares[1..], n);
    }
  }

  lemma {:induction false} DistributeWithin(rows: seq<Row>, request: int, n: nat)
    requires forall i | 0 <= i < |rows| :: rows[i].grant < n
    ensures WithinGrants(Distribute(rows, request), n)
  {
    if rows == [] || request <= Least(rows[0].cap, request) {
    } else {
      DistributeWithin(rows[1..], request - Least(rows[0].cap, request), n);
    }
  }

  lemma {:induction false} DebitsWithin(t: Tables, order: seq<nat>, minutes: int)
    requires NamesGrants(t, order)
    ensures WithinGrants(Debits(t, order, minutes), |t.grants|)
  {
    var rows := BalanceRows(t, order);
    DistributeWithin(rows, minutes, |t.grants|);
    PositiveWithin(Distribute(rows, minutes), |t.grants|);
  }

  function ReserveMinutes(t: Tables, user: nat, session: nat, minutes: int, order: seq<nat>): Tables
    requires NamesGrants(t, order)
  {
    DebitsWithin(t, order, minutes);
    Move(t, user, Negated(Debits(t, order, minutes)), SessionReserve, session)
  }

  // ---- RefundSessionMinutes and FullRefundSessionMinutes ----

  predicate HasReason(t: Tables, session: nat, reason: Reason) {
    exists e | e in t.entries :: e.session == Some(session) && e.reason == reason
  }

  // The session's reserve entries, as rows that can take back what they gave.
  function ReserveRows(entries: seq<Entry>, session: nat): seq<Row> {
    if entries == [] then []
    else
      var e := entries[|entries| - 1];
      ReserveRows(entries[..|entries| - 1], session)
      + if e.session == Some(session) && e.reason == SessionReserve then [Row(e.grant, -e.amount)] else []
  }

  // CEIL(seconds / 60), at least 1
  function BilledMinutes(elapsed: Time): int {
    Greatest(1, -((-elapsed) / MINUTE))
  }

  // GREATEST ignores a NULL duration.
  function RefundTotal(session: Session): int {
    Greatest(0, session.reserved
                - if session.ended.Some? then BilledMinutes(session.ended.value - session.started) else 1)
  }

  // A credit that is not positive, or would lift the grant above its initial
  // minutes, is dropped.
  predicate Lands(grants: seq<Grant>, m: Share) {
    m.grant < |grants| && m.amount > 0 && grants[m.grant].remaining + m.amount <= grants[m.grant].initial
  }

  // apply_credits
  function Accepted(grants: seq<Grant>, shares: seq<Share>): (r: seq<Share>)
    ensures WithinGrants(r, |grants|)
  {
    if shares == [] then []
    else
      (if Lands(grants, shares[0]) then [shares[0]] else []) + Accepted(grants, shares[1..])
  }

  // `order` is any order of the session's reserve rows: one statement wrote them
  // all, so they share created_at and ORDER BY created_at DESC decides nothing.
  function Credit(t: Tables, session: nat, total: int, reason: Reason, order: seq<Row>): Tables
    requires session < |t.sessions|
  {
    if HasReason(t, session, SessionRefund) then t
    else Move(t, t.sessions[session].user, Accepted(t.grants, Distribute(order, total)), reason, session)
  }

  function RefundSessionMinutes(t: Tables, session: nat, order: seq<Row>): Tables
    requires session < |t.sessions|
  {
    Credit(t, session, RefundTotal(t.sessions[session]), SessionRefund, order)
  }

  function FullRefundSessionMinutes(t: Tables, session: nat, reason: Reason, order: seq<Row>): Tables
    requires session < |t.sessions|
  {
    Credit(t, session, t.sessions[session].reserved, reason, order)
  }

  // ---- Transactions ----

  function PutSession(t: Tables, s: nat, row: Session): Tables
    requires s < |t.sessions|
  {
    t.(sessions := t.sessions[s := row])
  }

  // The INSERT of the session and the reservation; no ledger rows means that the
  // balance was too small and the transaction is rolled back.
  function OpenSession(t: Tables, user: nat, minutes: int, now: Time, order: seq<nat>): Option<Tables>
    requires NamesGrants(t, order)
  {
    var row := Session(user, Active, minutes, minutes, now, None, 0, false, false);
    var t1 := t.(sessions := t.sessions + [row]);
    if Debits(t1, order, minutes) == [] then None
    else Some(ReserveMinutes(t1, user, |t.sessions|, minutes, order))
  }

  // CompleteSession and CancelSession: the unguarded status write, then the refund.
  function EndSession(t: Tables, s: nat, cancel: bool, turnCount: int, now: Time, order: seq<Row>): Tables
    requires s < |t.sessions|
  {
    RefundSessionMinutes(PutSession(t, s, EndRow(t.sessions[s], cancel, turnCount, now)), s, order)
  }

  // `active` is what the status read found. It takes no lock, so the session may have
  // been ended by the time of the writes.
  function FailSession(t: Tables, s: nat, active: bool, order: seq<Row>): Tables
    requires s < |t.sessions|
  {
    if !active then t
    else FullRefundSessionMinutes(PutSession(t, s, t.sessions[s].(status := Failed)), s, ErrorRefund, order)
  }

  // ---- CleanupAbandonedSessions ----

  function CancelAbandonedEmptySessions(t: Tables, now: Time): Tables {
    t.(sessions := seq(|t.sessions|, s requires 0 <= s < |t.sessions| => CancelEmpty(t.sessions[s], now)))
  }

  function CompleteAbandonedActiveSessions(t: Tables, now: Time): Tables {
    t.(sessions := seq(|t.sessions|, s requires 0 <= s < |t.sessions| => CompleteSpoken(t.sessions[s], now)))
  }

  // The loop over the cancelled rows; `orders[s]` ranks the reserve rows of session s.
  function RefundAll(t: Tables, ids: seq<nat>, orders: seq<seq<Row>>): (r: Tables)
    requires |orders| == |t.sessions|
    requires forall i | 0 <= i < |ids| :: ids[i] < |t.sessions|
    ensures r.sessions == t.sessions
    decreases |ids|
  {
    if ids == [] then t
    else RefundAll(FullRefundSessionMinutes(t, ids[0], SessionRefund, orders[ids[0]]), ids[1..], orders)
  }

  // `ids` lists the cancelled rows in the order the statement returned them.
  predicate ListsCancelled(t: Tables, now: Time, ids: seq<nat>) {
    && (forall i, j | 0 <= i < j < |ids| :: ids[i] != ids[j])
    && (forall i | 0 <= i < |ids| ::
          ids[i] < |t.sessions| && IsOverdue(t.sessions[ids[i]], now) && !t.sessions[ids[i]].spoken)
    && (forall s | 0 <= s < |t.sessions| && IsOverdue(t.sessions[s], now) && !t.sessions[s].spoken :: s in ids)
  }

  function Cleanup(t: Tables, now: Time, ids: seq<nat>, orders: seq<seq<Row>>): Tables
    requires |orders| == |t.sessions| && ListsCancelled(t, now, ids)
  {
    CompleteAbandonedActiveSessions(RefundAll(CancelAbandonedEmptySessions(t, now), ids, orders), now)
  }
}
