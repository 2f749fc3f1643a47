/** Balances, entitlements and the creation of a session. */
module Billing {
  import opened Options
  import opened Distribution
  import opened Sessions
  import opened Ledger
  import opened LedgerTotals
  import opened LedgerInvariants

  // ---- Balance queries ----

  predicate Unexpired(grant: Grant, now: Time) { grant.expires.None? || grant.expires.value > now }

  function SumWhere(grants: seq<Grant>, p: Grant -> bool): int {
    if grants == [] then 0
    else
      var g := grants[|grants| - 1];
      SumWhere(grants[..|grants| - 1], p) + if p(g) then g.remaining else 0
  }

  // GetBillingSnapshot
  function Payable(user: nat, now: Time): Grant -> bool {
    (g: Grant) => g.user == user && g.remaining > 0 && Unexpired(g, now)
  }

  function SnapshotTotal(t: Tables, user: nat, now: Time): int { SumWhere(t.grants, Payable(user, now)) }

  function SnapshotPaid(t: Tables, user: nat, now: Time): int {
    SumWhere(t.grants, (g: Grant) => g.user == user && g.remaining > 0 && g.source != FreeGrant && Unexpired(g, now))
  }

  // GetUserUsageSummary
  function UsageTotal(t: Tables, user: nat, now: Time): int {
    SumWhere(t.grants, (g: Grant) => (g.user == user && g.remaining > 0) && Unexpired(g, now))
  }

  function UsageFree(t: Tables, user: nat, now: Time): int {
    SumWhere(t.grants, (g: Grant) => (g.user == user && g.remaining > 0) && g.source == FreeGrant && Unexpired(g, now))
  }

  function UsagePaid(t: Tables, user: nat, now: Time): int {
    SumWhere(t.grants, (g: Grant) => (g.user == user && g.remaining > 0) && g.source != FreeGrant && Unexpired(g, now))
  }

  lemma {:induction false} SumWhereSplits(grants: seq<Grant>, whole: Grant -> bool, left: Grant -> bool,
                                          right: Grant -> bool)
    requires forall g: Grant :: (whole(g) <==> left(g) || right(g)) && !(left(g) && right(g))
    ensures SumWhere(grants, whole) == SumWhere(grants, left) + SumWhere(grants, right)
  {
    if grants == [] {
    } else {
      SumWhereSplits(grants[..|grants| - 1], whole, left, right);
    }
  }

  lemma {:induction false} SumWhereSame(grants: seq<Grant>, p: Grant -> bool, q: Grant -> bool)
    requires forall g: Grant :: p(g) <==> q(g)
    ensures SumWhere(grants, p) == SumWhere(grants, q)
  {
    if grants == [] {
    } else {
      SumWhereSame(grants[..|grants| - 1], p, q);
    }
  }

  // ---- A ranking holds the whole balance ----

  function EligibleIds(t: Tables, user: nat, now: Time, n: nat): seq<nat>
    requires n <= |t.grants|
  {
    if n == 0 then []
    else EligibleIds(t, user, now, n - 1) + if IsEligible(t.grants[n - 1], user, now) then [n - 1] else []
  }

  // `ids` lists the eligible grants below n, each once.
  predicate Lists(t: Tables, user: nat, now: Time, n: nat, ids: seq<nat>)
    requires n <= |t.grants|
  {
    && (forall i | 0 <= i < |ids| :: ids[i] < n && IsEligible(t.grants[ids[i]], user, now))
    && (forall i, j | 0 <= i < j < |ids| :: ids[i] != ids[j])
    && (forall g: nat {:trigger g in ids} | g < n && IsEligible(t.grants[g], user, now) :: g in ids)
  }

  lemma {:induction false} ListsOneMore(t: Tables, user: nat, now: Time, n: nat, ids: seq<nat>)
    requires 0 < n <= |t.grants| && Lists(t, user, now, n - 1, ids)
    ensures Lists(t, user, now, n, ids + if IsEligible(t.grants[n - 1], user, now) then [n - 1] else [])
  {
    if IsEligible(t.grants[n - 1], user, now) {
      var more := ids + [n - 1];
      assert more[|ids|] == n - 1;
      forall g: nat | g < n && IsEligible(t.grants[g], user, now) ensures g in more {
        assert g < n - 1 ==> g in ids;
      }
    } else {
      assert ids + [] == ids;
    }
  }

  lemma {:induction false} EligibleIdsFacts(t: Tables, user: nat, now: Time, n: nat)
    requires n <= |t.grants|
    ensures Lists(t, user, now, n, EligibleIds(t, user, now, n))
  {
    if n == 0 {
    } else {
      EligibleIdsFacts(t, user, now, n - 1);
      ListsOneMore(t, user, now, n, EligibleIds(t, user, now, n - 1));
    }
  }

  lemma {:induction false} BalanceRowsAppend(t: Tables, ids: seq<nat>, g: nat)
    requires NamesGrants(t, ids) && g < |t.grants|
    ensures Capacity(BalanceRows(t, ids + [g])) == Capacity(BalanceRows(t, ids)) + t.grants[g].remaining
  {
    var last := Row(g, t.grants[g].remaining);
    assert BalanceRows(t, ids + [g]) == BalanceRows(t, ids) + [last];
    CapacitySplit(BalanceRows(t, ids), [last]);
  }

  lemma {:induction false} SumWhereNext(grants: seq<Grant>, p: Grant -> bool, n: nat)
    requires n < |grants|
    ensures SumWhere(grants[..n + 1], p) == SumWhere(grants[..n], p) + if p(grants[n]) then grants[n].remaining else 0
  {
    assert grants[..n + 1][..n] == grants[..n];
  }

  lemma {:induction false} EligibleIdsHoldBalance(t: Tables, user: nat, now: Time, n: nat)
    requires n <= |t.grants| && NamesGrants(t, EligibleIds(t, user, now, n))
    ensures Capacity(BalanceRows(t, EligibleIds(t, user, now, n)))
            == SumWhere(t.grants[..n], Payable(user, now))
  {
    if n == 0 {
    } else {
      EligibleIdsFacts(t, user, now, n - 1);
      EligibleIdsHoldBalance(t, user, now, n - 1);
      var ids := EligibleIds(t, user, now, n - 1);
      SumWhereNext(t.grants, Payable(user, now), n - 1);
      if IsEligible(t.grants[n - 1], user, now) {
        assert EligibleIds(t, user, now, n) == ids + [n - 1];
        BalanceRowsAppend(t, ids, n - 1);
      } else {
        assert EligibleIds(t, user, now, n) == ids + [] == ids;
      }
    }
  }

  lemma {:induction false} SameMembersSameRows(a: seq<Row>, b: seq<Row>)
    requires DistinctRows(a) && DistinctRows(b)
    requires forall r :: r in a <==> r in b
    ensures multiset(a) == multiset(b)
  {
    forall r ensures multiset(a)[r] == multiset(b)[r] {
      if r in a {
        var i :| 0 <= i < |a| && a[i] == r;
        var j :| 0 <= j < |b| && b[j] == r;
        DistinctOccursOnce(a, i);
        DistinctOccursOnce(b, j);
      } else {
        assert r !in multiset(a) && r !in multiset(b);
      }
    }
  }

  lemma {:induction false} RankingHoldsBalance(t: Tables, user: nat, now: Time, order: seq<nat>)
    requires IsRanking(t, user, now, order)
    ensures Capacity(BalanceRows(t, order)) == SnapshotTotal(t, user, now)
  {
    var ids := EligibleIds(t, user, now, |t.grants|);
    EligibleIdsFacts(t, user, now, |t.grants|);
    EligibleIdsHoldBalance(t, user, now, |t.grants|);
    assert t.grants[..|t.grants|] == t.grants;
    SameIdsSameBalance(t, order, ids);
  }

  lemma {:induction false} SameIdsSameBalance(t: Tables, a: seq<nat>, b: seq<nat>)
    requires NamesGrants(t, a) && NamesGrants(t, b)
    requires forall i, j | 0 <= i < j < |a| :: a[i] != a[j]
    requires forall i, j | 0 <= i < j < |b| :: b[i] != b[j]
    requires forall i | 0 <= i < |a| :: a[i] in b
    requires forall i | 0 <= i < |b| :: b[i] in a
    ensures Capacity(BalanceRows(t, a)) == Capacity(BalanceRows(t, b))
  {
    var x, y := BalanceRows(t, a), BalanceRows(t, b);
    forall r ensures r in x <==> r in y {
      RowMember(t, a, r);
      RowMember(t, b, r);
    }
    SameMembersSameRows(x, y);
    ReorderKeepsCapacity(x, y);
  }

  lemma {:induction false} RowMember(t: Tables, ids: seq<nat>, r: Row)
    requires NamesGrants(t, ids)
    ensures r in BalanceRows(t, ids) <==> r.grant in ids && r == Row(r.grant, t.grants[r.grant].remaining)
  {
  }

  // All views of a balance agree: the snapshot, the usage summary with its free and
  // paid parts, and the listed active grants.
  lemma {:induction false} BalanceViewsAgree(t: Tables, user: nat, now: Time, listed: seq<nat>)
    requires IsRanking(t, user, now, listed)
    ensures SnapshotTotal(t, user, now) == UsageTotal(t, user, now)
    ensures UsageTotal(t, user, now) == UsageFree(t, user, now) + UsagePaid(t, user, now)
    ensures SnapshotPaid(t, user, now) == UsagePaid(t, user, now)
    ensures SnapshotTotal(t, user, now) == Capacity(BalanceRows(t, listed))
  {
    var total := (g: Grant) => (g.user == user && g.remaining > 0) && Unexpired(g, now);
    var free := (g: Grant) => (g.user == user && g.remaining > 0) && g.source == FreeGrant && Unexpired(g, now);
    var paid := (g: Grant) => (g.user == user && g.remaining > 0) && g.source != FreeGrant && Unexpired(g, now);
    SumWhereSplits(t.grants, total, free, paid);
    SumWhereSame(t.grants, Payable(user, now), total);
    SumWhereSame(t.grants,
                 (g: Grant) => g.user == user && g.remaining > 0 && g.source != FreeGrant && Unexpired(g, now), paid);
    RankingHoldsBalance(t, user, now, listed);
  }

  // ---- Reserving ----

  // All or nothing, for every ranking of tied grants: a reservation succeeds exactly
  // when the balance suffices, and then takes precisely the requested minutes.
  lemma {:induction false} ReserveAllOrNothing(t: Tables, user: nat, minutes: int, now: Time, order: seq<nat>)
    requires Books(t) && IsRanking(t, user, now, order) && minutes >= 1
    ensures var r := OpenSession(t, user, minutes, now, order);
            && (r.Some? <==> SnapshotTotal(t, user, now) >= minutes)
            && (r.Some? ==> Charge(r.value, |t.sessions|) == minutes)
  {
    RankingHoldsBalance(t, user, now, order);
    OpenKeepsBounds(t, user, minutes, now, order);
  }

  // Earliest expiry first: if the reservation touches a grant, every eligible grant
  // that expires strictly earlier is drained to zero.
  lemma {:induction false} ReserveDrainsEarlierGrants(t: Tables, user: nat, minutes: int, now: Time, order: seq<nat>,
                                                      early: nat, late: nat)
    requires IsRanking(t, user, now, order) && minutes >= 1
    requires early < |t.grants| && late < |t.grants| && IsEligible(t.grants[early], user, now)
    requires var a, b := t.grants[early].expires, t.grants[late].expires;
             a.Some? && (b.None? || a.value < b.value)
    ensures var r := OpenSession(t, user, minutes, now, order);
            r.Some? && r.value.grants[late] != t.grants[late] ==> r.value.grants[early].remaining == 0
  {
    var s := |t.sessions|;
    var t1 := t.(sessions := t.sessions + [Session(user, Active, minutes, minutes, now, None, 0, false, false)]);
    var debits := Debits(t1, order, minutes);
    DebitFacts(t1, user, now, minutes, order);
    if debits != [] {
      MoveTotals(t1, user, Negated(debits), SessionReserve, s);
      NegatedAmounts(debits, late);
      NegatedAmounts(debits, early);
      if AmountOf(debits, late) != 0 { DebitsDrainEarlier(t1, user, minutes, now, order, early, late); }
    }
  }

  lemma {:induction false} DebitsDrainEarlier(t: Tables, user: nat, minutes: int, now: Time, order: seq<nat>,
                                              early: nat, late: nat)
    requires IsRanking(t, user, now, order) && minutes >= 1
    requires early < |t.grants| && late < |t.grants| && IsEligible(t.grants[early], user, now)
    requires StrictlyEarlier(t.grants[early].expires, t.grants[late].expires)
    requires AmountOf(Debits(t, order, minutes), late) != 0
    ensures AmountOf(Debits(t, order, minutes), early) == t.grants[early].remaining
  {
    var debits := Debits(t, order, minutes);
    DebitFacts(t, user, now, minutes, order);
    DistributeIsGreedy(BalanceRows(t, order), minutes);
    AmountCases(debits, late);
    var j :| 0 <= j < |debits| && debits[j].grant == late;
    var i := RankedBefore(t, user, now, order, early, late, j);
    AmountOfDistinct(debits, i);
  }

  // A strictly earlier grant ranks before a later one.
  lemma {:induction false} RankedBefore(t: Tables, user: nat, now: Time, order: seq<nat>, early: nat, late: nat, j: nat)
    returns (i: nat)
    requires IsRanking(t, user, now, order)
    requires early < |t.grants| && late < |t.grants| && IsEligible(t.grants[early], user, now)
    requires StrictlyEarlier(t.grants[early].expires, t.grants[late].expires)
    requires j < |order| && order[j] == late
    ensures i < j && order[i] == early
  {
    assert early in order;
    i :| 0 <= i < |order| && order[i] == early;
  }

  // ---- Entitlements ----

  datatype Plan = Plan(grantMinutes: int, maxDuration: int, concurrentSessions: int)

  function PlanByName(name: string): Option<Plan> {
    if name == "free" then Some(Plan(60, 30, 1))
    else if name == "pro" then Some(Plan(600, 180, 3))
    else None
  }

  function FreeTrialMinutes(): int { PlanByName("free").value.grantMinutes }

  // A plan that is not in the table falls back to the free one.
  function ResolvePlan(name: string): Plan {
    if PlanByName(name).Some? then PlanByName(name).value else PlanByName("free").value
  }

  function CountActive(sessions: seq<Session>, user: nat): nat {
    if sessions == [] then 0
    else
      var row := sessions[|sessions| - 1];
      CountActive(sessions[..|sessions| - 1], user) + if row.user == user && row.status == Active then 1 else 0
  }

  // The sessions that count against the limit.
  function ActiveOf(sessions: seq<Session>, user: nat): set<nat> {
    set s | 0 <= s < |sessions| && sessions[s].user == user && sessions[s].status == Active
  }

  lemma {:induction false} CountActiveIs(sessions: seq<Session>, user: nat)
    ensures CountActive(sessions, user) == |ActiveOf(sessions, user)|
  {
    if sessions == [] {
    } else {
      var n := |sessions| - 1;
      CountActiveIs(sessions[..n], user);
      var before := ActiveOf(sessions[..n], user);
      assert ActiveOf(sessions, user)
             == before + if sessions[n].user == user && sessions[n].status == Active then {n} else {};
    }
  }

  // ---- What a grant is worth ----

  // The user's balance grows by the minutes, for as long as they have not expired, and
  // nobody else's changes.
  ghost predicate Gains(t: Tables, t': Tables, user: nat, minutes: int, expires: Option<Time>) {
    forall u: nat, now: Time ::
      SnapshotTotal(t', u, now)
      == SnapshotTotal(t, u, now) + if u == user && (expires.None? || now < expires.value) then minutes else 0
  }

  // The grant has its one entry in the log, with the reason.
  predicate Opens(t: Tables, t': Tables, user: nat, minutes: int, reason: Reason) {
    t'.entries == t.entries + [Entry(user, |t.grants|, minutes, reason, None)]
  }

  lemma {:induction false} InsertGains(t: Tables, grant: Grant, reason: Reason)
    requires grant.remaining == grant.initial > 0
    ensures Gains(t, InsertGrant(t, grant, reason), grant.user, grant.initial, grant.expires)
    ensures Opens(t, InsertGrant(t, grant, reason), grant.user, grant.initial, reason)
  {
    var t' := InsertGrant(t, grant, reason);
    assert t'.grants[..|t'.grants| - 1] == t.grants;
  }

  // Only the free trial shows as free minutes; what is bought, renewed or given by an
  // administrator shows as paid.
  lemma {:induction false} GainShowsAs(t: Tables, grant: Grant, reason: Reason, now: Time)
    requires grant.remaining == grant.initial > 0 && (grant.expires.None? || now < grant.expires.value)
    ensures var t' := InsertGrant(t, grant, reason);
            var free, paid := UsageFree(t, grant.user, now), UsagePaid(t, grant.user, now);
            match grant.source
            case FreeGrant =>
              UsageFree(t', grant.user, now) == free + grant.initial && UsagePaid(t', grant.user, now) == paid
            case Subscription =>
              UsageFree(t', grant.user, now) == free && UsagePaid(t', grant.user, now) == paid + grant.initial
            case Purchase =>
              UsageFree(t', grant.user, now) == free && UsagePaid(t', grant.user, now) == paid + grant.initial
            case Admin =>
              UsageFree(t', grant.user, now) == free && UsagePaid(t', grant.user, now) == paid + grant.initial
  {
    var t' := InsertGrant(t, grant, reason);
    assert t'.grants[..|t'.grants| - 1] == t.grants;
  }

  // The free trial is given once: a second call, with whatever minutes, changes nothing.
  lemma {:induction false} FreeGrantOnce(t: Tables, user: nat, minutes: int, expires: Time, again: int, later: Time)
    requires minutes > 0 && forall g | 0 <= g < |t.grants| :: t.grants[g].user != user || t.grants[g].source != FreeGrant
    ensures var t' := EnsureFreeGrant(t, user, minutes, expires);
            && Gains(t, t', user, minutes, Some(expires)) && Opens(t, t', user, minutes, FreeTrial)
            && EnsureFreeGrant(t', user, again, later) == t'
  {
    var grant := NewGrant(user, FreeGrant, None, minutes, Some(expires));
    InsertGains(t, grant, FreeTrial);
    assert InsertGrant(t, grant, FreeTrial).grants[|t.grants|] == grant;
  }

  // It is worth an hour.
  lemma {:induction false} FreeTrialIsWorth(t: Tables, user: nat, expires: Time)
    requires !HasFreeGrant(t, user)
    ensures Gains(t, EnsureFreeGrant(t, user, FreeTrialMinutes(), expires), user, 60, Some(expires))
  {
    FreeGrantOnce(t, user, 60, expires, 0, 0);
  }

  // A purchase counts once for its event, and never expires.
  lemma {:induction false} PurchaseOnce(t: Tables, user: nat, event: string, minutes: int, other: nat, again: int)
    requires minutes > 0 && !EventSeen(t, event)
    ensures var t' := CreatePurchaseGrant(t, user, event, minutes);
            && Gains(t, t', user, minutes, None) && Opens(t, t', user, minutes, PurchaseMade)
            && CreatePurchaseGrant(t', other, event, again) == t' && CreateSubscriptionGrant(t', other, event, again) == t'
  {
    var grant := NewGrant(user, Purchase, Some(event), minutes, None);
    InsertGains(t, grant, PurchaseMade);
    assert InsertGrant(t, grant, PurchaseMade).grants[|t.grants|] == grant;
  }

  // So does a subscription payment.
  lemma {:induction false} SubscriptionOnce(t: Tables, user: nat, event: string, minutes: int, other: nat, again: int)
    requires minutes > 0 && !EventSeen(t, event)
    ensures var t' := CreateSubscriptionGrant(t, user, event, minutes);
            && Gains(t, t', user, minutes, None) && Opens(t, t', user, minutes, SubscriptionRenewal)
            && CreatePurchaseGrant(t', other, event, again) == t' && CreateSubscriptionGrant(t', other, event, again) == t'
  {
    var grant := NewGrant(user, Subscription, Some(event), minutes, None);
    InsertGains(t, grant, SubscriptionRenewal);
    assert InsertGrant(t, grant, SubscriptionRenewal).grants[|t.grants|] == grant;
  }

  lemma {:induction false} AdminGrantGains(t: Tables, user: nat, minutes: int)
    ensures var t' := CreateAdminGrant(t, user, minutes);
            if minutes > 0 then Gains(t, t', user, minutes, None) && Opens(t, t', user, minutes, AdminGrant) else t' == t
  {
    if minutes > 0 { InsertGains(t, NewGrant(user, Admin, None, minutes, None), AdminGrant); }
  }

  // ---- CreateSession ----

  datatype CreateError = InvalidDuration | BalanceUnreadable | DurationExceedsPlan
                       | ConcurrentSessionLimit | InsufficientBalance | QuestionNotFound

  datatype Created = Ok(tables: Tables) | Refused(error: CreateError)

  const MAX_INT32 := 0x7FFF_FFFF

  // What is tested before anything is written, and what the first failing test reports.
  function Objection(seen: Tables, user: nat, plan: string, duration: int, questionExists: bool,
                     now: Time): Option<CreateError>
  {
    if duration < 1 || duration > 180 then Some(InvalidDuration)
    else if SnapshotTotal(seen, user, now) > MAX_INT32 then Some(BalanceUnreadable)   // the ::int cast fails
    else if duration > ResolvePlan(plan).maxDuration then Some(DurationExceedsPlan)
    else if CountActive(seen.sessions, user) >= ResolvePlan(plan).concurrentSessions then Some(ConcurrentSessionLimit)
    else if SnapshotTotal(seen, user, now) < duration then Some(InsufficientBalance)
    else if !questionExists then Some(QuestionNotFound)
    else None
  }

  // The tests read `seen` and lock nothing; the reservation is made on `t`, which is
  // what other transactions have left of it.
  function CreateSession(seen: Tables, t: Tables, user: nat, plan: string, duration: int, questionExists: bool,
                         now: Time, order: seq<nat>): Created
    requires IsRanking(t, user, now, order)
  {
    var objection := Objection(seen, user, plan, duration, questionExists, now);
    if objection.Some? then Refused(objection.value)
    else
      var r := OpenSession(t, user, duration, now, order);
      if r.Some? then Ok(r.value) else Refused(InsufficientBalance)
  }

  // A session is created exactly when the tests pass on what they see and the balance
  // still suffices when it is reserved; it owes its whole duration and nothing else is
  // touched.
  lemma {:induction false} CreateSessionSucceedsIff(seen: Tables, t: Tables, user: nat, plan: string, duration: int,
                                                    questionExists: bool, now: Time, order: seq<nat>)
    requires Books(t) && IsRanking(t, user, now, order)
    ensures var r := CreateSession(seen, t, user, plan, duration, questionExists, now, order);
            && (r.Ok? <==>
                 && 1 <= duration <= (if plan == "pro" then 180 else 30)
                 && |ActiveOf(seen.sessions, user)| < (if plan == "pro" then 3 else 1)
                 && duration <= SnapshotTotal(seen, user, now) <= 0x7FFF_FFFF
                 && questionExists
                 && duration <= SnapshotTotal(t, user, now))
            && (r.Ok? ==>
                 && Books(r.tables)
                 && r.tables.sessions
                    == t.sessions + [Session(user, Active, duration, duration, now, None, 0, false, false)]
                 && Bounded(r.tables, |t.sessions|) && Charge(r.tables, |t.sessions|) == duration
                 && forall k: nat | k != |t.sessions| :: Charge(r.tables, k) == Charge(t, k))
  {
    CountActiveIs(seen.sessions, user);
    if 1 <= duration <= 180 {
      ReserveAllOrNothing(t, user, duration, now, order);
      OpenKeepsBounds(t, user, duration, now, order);
    }
  }

  // What each refusal means.
  ghost predicate Objects(seen: Tables, user: nat, plan: string, duration: int, questionExists: bool, now: Time,
                          e: CreateError)
  {
    match e
    case InvalidDuration => !(1 <= duration <= 180)
    case BalanceUnreadable => SnapshotTotal(seen, user, now) > 0x7FFF_FFFF
    case DurationExceedsPlan => duration > if plan == "pro" then 180 else 30
    case ConcurrentSessionLimit => |ActiveOf(seen.sessions, user)| >= if plan == "pro" then 3 else 1
    case InsufficientBalance => SnapshotTotal(seen, user, now) < duration
    case QuestionNotFound => !questionExists
  }

  // The order in which they are tested.
  const ORDER: seq<CreateError> := [InvalidDuration, BalanceUnreadable, DurationExceedsPlan, ConcurrentSessionLimit,
                                    InsufficientBalance, QuestionNotFound]

  // The first one that applies is reported, and none only if none applies.
  lemma {:induction false} FirstObjection(seen: Tables, user: nat, plan: string, duration: int, questionExists: bool,
                                          now: Time)
    ensures var o := Objection(seen, user, plan, duration, questionExists, now);
            if o.None? then forall e :: !Objects(seen, user, plan, duration, questionExists, now, e)
            else exists i | 0 <= i < 6 ::
                   && ORDER[i] == o.value && Objects(seen, user, plan, duration, questionExists, now, ORDER[i])
                   && forall j | 0 <= j < i :: !Objects(seen, user, plan, duration, questionExists, now, ORDER[j])
  {
    CountActiveIs(seen.sessions, user);
    var o := Objection(seen, user, plan, duration, questionExists, now);
    if o.Some? {
      var i := match o.value
               case InvalidDuration => 0 case BalanceUnreadable => 1 case DurationExceedsPlan => 2
               case ConcurrentSessionLimit => 3 case InsufficientBalance => 4 case QuestionNotFound => 5;
      assert ORDER[i] == o.value;
    }
  }

  // With no writer in between, tests that pass leave nothing for the reservation to
  // refuse.
  lemma {:induction false} UndisturbedReservationSucceeds(t: Tables, user: nat, plan: string, duration: int,
                                                          questionExists: bool, now: Time, order: seq<nat>)
    requires Books(t) && IsRanking(t, user, now, order)
    ensures CreateSession(t, t, user, plan, duration, questionExists, now, order).Ok?
            <==> Objection(t, user, plan, duration, questionExists, now).None?
  {
    if 1 <= duration { ReserveAllOrNothing(t, user, duration, now, order); }
  }

  // The balance after a successful creation is the old one minus the duration.
  lemma {:induction false} CreateSessionDebitsBalance(seen: Tables, t: Tables, user: nat, plan: string, duration: int,
                                                      questionExists: bool, now: Time, order: seq<nat>)
    requires Books(t) && IsRanking(t, user, now, order)
    requires CreateSession(seen, t, user, plan, duration, questionExists, now, order).Ok?
    ensures var t' := CreateSession(seen, t, user, plan, duration, questionExists, now, order).tables;
            SnapshotTotal(t', user, now) == SnapshotTotal(t, user, now) - duration
  {
    var s := |t.sessions|;
    var t1 := t.(sessions := t.sessions + [Session(user, Active, duration, duration, now, None, 0, false, false)]);
    var debits := Debits(t1, order, duration);
    var moves := Negated(debits);
    DebitFacts(t1, user, now, duration, order);
    NegatedAmounts(debits, 0);
    MovedBalance(t1, user, now, moves, 0);
    var t' := Move(t1, user, moves, SessionReserve, s);
    assert t'.grants[..|t'.grants|] == t'.grants && t1.grants[..|t1.grants|] == t1.grants;
    MovedBalance(t1, user, now, moves, |t1.grants|);
    AmountsBelowAll(moves, |t1.grants|);
  }

  // What the moves add to the first n grants.
  function AmountsBelow(moves: seq<Share>, n: nat): int {
    if n == 0 then 0 else AmountsBelow(moves, n - 1) + AmountOf(moves, n - 1)
  }

  lemma {:induction false} AmountsBelowAll(moves: seq<Share>, n: nat)
    requires WithinGrants(moves, n)
    ensures AmountsBelow(moves, n) == Sum(moves)
    decreases |moves|
  {
    if moves == [] {
      AmountsBelowZero(n);
    } else {
      AmountsBelowAll(moves[1..], n);
      AmountsBelowHead(moves, n);
    }
  }

  lemma {:induction false} AmountsBelowZero(n: nat)
    ensures AmountsBelow([], n) == 0
  {
    if n == 0 {
    } else {
      AmountsBelowZero(n - 1);
    }
  }

  lemma {:induction false} AmountsBelowHead(moves: seq<Share>, n: nat)
    requires moves != []
    ensures AmountsBelow(moves, n) == AmountsBelow(moves[1..], n) + if moves[0].grant < n then moves[0].amount else 0
  {
    if n == 0 {
    } else {
      AmountsBelowHead(moves, n - 1);
    }
  }

  lemma {:induction false} MovedBalance(t: Tables, user: nat, now: Time, moves: seq<Share>, n: nat)
    requires WithinGrants(moves, |t.grants|) && DistinctShares(moves) && n <= |t.grants|
    requires forall i | 0 <= i < |moves| ::
               IsEligible(t.grants[moves[i].grant], user, now) && t.grants[moves[i].grant].remaining + moves[i].amount >= 0
    ensures SumWhere(AddAll(t.grants, moves)[..n], Payable(user, now))
            == SumWhere(t.grants[..n], Payable(user, now)) + AmountsBelow(moves, n)
  {
    if n == 0 {
    } else {
      MovedBalance(t, user, now, moves, n - 1);
      AddAllAmounts(t.grants, moves, n - 1);
      AmountCases(moves, n - 1);
      var after := AddAll(t.grants, moves);
      assert after[..n][..n - 1] == after[..n - 1];
      assert t.grants[..n][..n - 1] == t.grants[..n - 1];
    }
  }
}
