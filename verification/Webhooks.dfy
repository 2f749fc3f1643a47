/** Stripe webhook events, delivered at least once and in any order. */
module Webhooks {
  import opened Options
  import opened Ledger
  import LedgerDb
  import Billing

  // The fields the handlers read; a field that is missing or does not parse is None.
  datatype Event =
    | CheckoutCompleted(id: string, payment: bool, user: Option<nat>, minutes: Option<int>)
    | InvoicePaid(id: string, customer: Option<string>)
    | SubscriptionDeleted(id: string, customer: Option<string>)
    | SubscriptionUpdated(id: string, customer: Option<string>, status: string)
    | Unhandled(id: string)

  // Which users exist, and which live user a Stripe customer is.
  datatype Directory = Directory(users: set<nat>, customers: map<string, nat>)

  datatype Store = Store(tables: Tables, plans: map<nat, string>)

  // int32(minutes)
  function WrapInt32(n: int): int { (n + 0x8000_0000) % 0x1_0000_0000 - 0x8000_0000 }

  // The grant an event asks for; None when the handler ignores the event or the
  // insert violates a constraint.
  function Payload(dir: Directory, e: Event): Option<Grant> {
    match e
    case CheckoutCompleted(id, payment, user, minutes) =>
      if payment && user.Some? && minutes.Some? && WrapInt32(minutes.value) > 0 && user.value in dir.users
      then Some(NewGrant(user.value, Purchase, Some(id), WrapInt32(minutes.value), None))
      else None
    case InvoicePaid(id, customer) =>
      if customer.Some? && customer.value in dir.customers
      then Some(NewGrant(dir.customers[customer.value], Subscription, Some(id), ProMinutes(), None))
      else None
    case _ => None
  }

  // The subscription events write a plan, whatever was delivered before.
  predicate SetsPlan(e: Event) { e.SubscriptionDeleted? || e.SubscriptionUpdated? }

  function PlanSet(e: Event): string
    requires SetsPlan(e)
  {
    if e.SubscriptionDeleted? || e.status in {"canceled", "unpaid", "past_due"} then "free" else "pro"
  }

  // UpdatePlanByStripeCustomer
  function UpdatePlan(dir: Directory, plans: map<nat, string>, customer: Option<string>, plan: string): map<nat, string> {
    if customer.None? || customer.value !in dir.customers then plans else plans[dir.customers[customer.value] := plan]
  }

  function ProMinutes(): int { Billing.PlanByName("pro").value.grantMinutes }

  function ReasonOf(source: Source): Reason {
    if source == Subscription then SubscriptionRenewal else PurchaseMade
  }

  function Handle(dir: Directory, s: Store, e: Event): Store {
    match e
    case CheckoutCompleted(id, payment, user, minutes) =>
      if !payment || user.None? || minutes.None? || user.value !in dir.users then s
      else s.(tables := CreatePurchaseGrant(s.tables, user.value, id, WrapInt32(minutes.value)))
    case InvoicePaid(id, customer) =>
      if customer.None? || customer.value !in dir.customers then s
      else
        var u := dir.customers[customer.value];
        var t := CreateSubscriptionGrant(s.tables, u, id, ProMinutes());
        if |t.grants| == |s.tables.grants| then s else Store(t, s.plans[u := "pro"])
    case SubscriptionDeleted(_, customer) => s.(plans := UpdatePlan(dir, s.plans, customer, "free"))
    case SubscriptionUpdated(_, customer, _) => s.(plans := UpdatePlan(dir, s.plans, customer, PlanSet(e)))
    case Unhandled(_) => s
  }

  function Deliver(dir: Directory, s: Store, events: seq<Event>): Store {
    if events == [] then s
    else Handle(dir, Deliver(dir, s, events[..|events| - 1]), events[|events| - 1])
  }

  // ---- What a series of deliveries leaves behind ----

  predicate Asks(dir: Directory, events: seq<Event>, g: Grant) {
    exists i | 0 <= i < |events| :: Payload(dir, events[i]) == Some(g)
  }

  // The tables of `s` start with those of `s0`, and have as many new entries as new grants.
  ghost predicate Appends(s0: Tables, s: Tables) {
    && s.sessions == s0.sessions
    && |s0.grants| <= |s.grants| && s.grants[..|s0.grants|] == s0.grants
    && |s0.entries| <= |s.entries| && s.entries[..|s0.entries|] == s0.entries
    && |s.entries| - |s0.entries| == |s.grants| - |s0.grants|
  }

  // A new grant is what some event asked for, under an id that s0 had not seen, and
  // has its opening entry.
  ghost predicate NewGrantFits(dir: Directory, s0: Tables, events: seq<Event>, s: Tables, i: nat)
    requires Appends(s0, s) && |s0.grants| <= i < |s.grants|
  {
    var g := s.grants[i];
    && g.event.Some? && !EventSeen(s0, g.event.value)
    && Asks(dir, events, g)
    && s.entries[|s0.entries| + i - |s0.grants|] == Entry(g.user, i, g.initial, ReasonOf(g.source), None)
  }

  predicate Subscribes(s0: Tables, s: Tables, u: nat) {
    exists i | |s0.grants| <= i < |s.grants| :: s.grants[i].source == Subscription && s.grants[i].user == u
  }

  predicate NoPlanSet(events: seq<Event>) { forall i | 0 <= i < |events| :: !SetsPlan(events[i]) }

  // `s` extends `s0` by one grant and one ledger entry for each event id that was new
  // and by nothing else; without subscription events, so the plans by those who paid.
  ghost predicate Extends(dir: Directory, s0: Store, events: seq<Event>, s: Store) {
    && Appends(s0.tables, s.tables)
    && (forall i | |s0.tables.grants| <= i < |s.tables.grants| :: NewGrantFits(dir, s0.tables, events, s.tables, i))
    && (forall i, j | |s0.tables.grants| <= i < j < |s.tables.grants| ::
          s.tables.grants[i].event != s.tables.grants[j].event)
    && (forall i | 0 <= i < |events| && Payload(dir, events[i]).Some? :: EventSeen(s.tables, events[i].id))
    && (NoPlanSet(events) ==> forall u: nat :: PlanFits(s0, s, u))
  }

  ghost predicate PlanFits(s0: Store, s: Store, u: nat) {
    if Subscribes(s0.tables, s.tables, u) then u in s.plans && s.plans[u] == "pro"
    else (u in s.plans <==> u in s0.plans) && (u in s.plans ==> s.plans[u] == s0.plans[u])
  }

  lemma {:induction false} HandleIsInsert(dir: Directory, s: Store, e: Event)
    ensures var p := Payload(dir, e);
            if p.Some? && !EventSeen(s.tables, e.id)
            then && p.value.event == Some(e.id) && p.value.source in {Purchase, Subscription}
                 && Handle(dir, s, e)
                    == Store(InsertGrant(s.tables, p.value, ReasonOf(p.value.source)),
                             if p.value.source == Subscription then s.plans[p.value.user := "pro"] else s.plans)
            else Handle(dir, s, e).tables == s.tables && (!SetsPlan(e) ==> Handle(dir, s, e) == s)
  {
  }

  lemma {:induction false} DeliverExtends(dir: Directory, s0: Store, events: seq<Event>)
    ensures Extends(dir, s0, events, Deliver(dir, s0, events))
  {
    if events == [] {
    } else {
      var before := events[..|events| - 1];
      var e := events[|events| - 1];
      DeliverExtends(dir, s0, before);
      HandleIsInsert(dir, Deliver(dir, s0, before), e);
      OneMoreEvent(dir, s0, before, e, Deliver(dir, s0, before));
      assert events == before + [e];
    }
  }

  lemma {:induction false} AskMore(dir: Directory, before: seq<Event>, e: Event, g: Grant)
    ensures Asks(dir, before + [e], g) <==> Asks(dir, before, g) || Payload(dir, e) == Some(g)
  {
    if i :| 0 <= i < |before| && Payload(dir, before[i]) == Some(g) {
      assert (before + [e])[i] == before[i];
    }
    assert (before + [e])[|before|] == e;
  }

  lemma {:induction false} SeenMore(t: Tables, g: Grant, reason: Reason, id: string)
    ensures EventSeen(InsertGrant(t, g, reason), id) <==> EventSeen(t, id) || g.event == Some(id)
  {
    var t' := InsertGrant(t, g, reason);
    if i :| 0 <= i < |t.grants| && t.grants[i].event == Some(id) { assert t'.grants[i] == t.grants[i]; }
    assert t'.grants[|t.grants|] == g;
  }

  lemma {:induction false} SeenBefore(s0: Tables, s: Tables, id: string)
    requires Appends(s0, s) && EventSeen(s0, id)
    ensures EventSeen(s, id)
  {
  }

  lemma {:induction false} OneMoreGrant(dir: Directory, s0: Store, before: seq<Event>, e: Event, s: Store, i: nat)
    requires Extends(dir, s0, before, s)
    requires Payload(dir, e).Some? && !EventSeen(s.tables, e.id)
    requires |s0.tables.grants| <= i <= |s.tables.grants|
    ensures var s' := Handle(dir, s, e);
            && Appends(s0.tables, s'.tables) && i < |s'.tables.grants|
            && NewGrantFits(dir, s0.tables, before + [e], s'.tables, i)
  {
    HandleIsInsert(dir, s, e);
    if i < |s.tables.grants| {
      assert NewGrantFits(dir, s0.tables, before, s.tables, i);
      AskMore(dir, before, e, s.tables.grants[i]);
    } else {
      AskMore(dir, before, e, Payload(dir, e).value);
      if EventSeen(s0.tables, e.id) { SeenBefore(s0.tables, s.tables, e.id); }
    }
  }

  lemma {:induction false} OneMorePlan(dir: Directory, s0: Store, before: seq<Event>, e: Event, s: Store, u: nat)
    requires Extends(dir, s0, before, s) && NoPlanSet(before)
    requires Payload(dir, e).Some? && !EventSeen(s.tables, e.id)
    ensures PlanFits(s0, Handle(dir, s, e), u)
  {
    HandleIsInsert(dir, s, e);
    var s' := Handle(dir, s, e);
    assert PlanFits(s0, s, u);
    assert s'.tables.grants[|s.tables.grants|] == Payload(dir, e).value;
    if Subscribes(s0.tables, s.tables, u) {
      var i :| |s0.tables.grants| <= i < |s.tables.grants|
               && s.tables.grants[i].source == Subscription && s.tables.grants[i].user == u;
      assert s'.tables.grants[i] == s.tables.grants[i];
    }
  }

  lemma {:induction false} OneMoreEvent(dir: Directory, s0: Store, before: seq<Event>, e: Event, s: Store)
    requires Extends(dir, s0, before, s)
    ensures Extends(dir, s0, before + [e], Handle(dir, s, e))
  {
    var events := before + [e];
    var s' := Handle(dir, s, e);
    HandleIsInsert(dir, s, e);
    assert NoPlanSet(events) ==> NoPlanSet(before) && !SetsPlan(e) by {
      assert events[|before|] == e;
      assert forall i | 0 <= i < |before| :: events[i] == before[i];
    }
    if Payload(dir, e).Some? && !EventSeen(s.tables, e.id) {
      var g := Payload(dir, e).value;
      forall i | |s0.tables.grants| <= i < |s'.tables.grants|
        ensures Appends(s0.tables, s'.tables) && NewGrantFits(dir, s0.tables, events, s'.tables, i)
      {
        OneMoreGrant(dir, s0, before, e, s, i);
      }
      assert forall i | 0 <= i < |s.tables.grants| :: s.tables.grants[i].event != Some(e.id);
      forall i | 0 <= i < |events| && Payload(dir, events[i]).Some? ensures EventSeen(s'.tables, events[i].id) {
        SeenMore(s.tables, g, ReasonOf(g.source), events[i].id);
        if i < |before| { assert events[i] == before[i]; }
      }
      if NoPlanSet(events) {
        forall u: nat ensures PlanFits(s0, s', u) { OneMorePlan(dir, s0, before, e, s, u); }
      }
    } else {
      forall i | |s0.tables.grants| <= i < |s.tables.grants|
        ensures NewGrantFits(dir, s0.tables, events, s.tables, i)
      {
        assert NewGrantFits(dir, s0.tables, before, s.tables, i);
        AskMore(dir, before, e, s.tables.grants[i]);
      }
      forall i | 0 <= i < |events| && Payload(dir, events[i]).Some? ensures EventSeen(s.tables, events[i].id) {
        if i < |before| { assert events[i] == before[i]; }
      }
    }
  }

  // ---- What a payment is worth ----

  // int32(n) keeps the lower 32 bits, as a signed number.
  lemma {:induction false} WrapInt32Is(n: int)
    ensures -0x8000_0000 <= WrapInt32(n) <= 0x7FFF_FFFF
    ensures (WrapInt32(n) - n) % 0x1_0000_0000 == 0
    ensures -0x8000_0000 <= n <= 0x7FFF_FFFF ==> WrapInt32(n) == n
  {
  }

  // A new paid invoice of a known customer is worth 600 minutes that never expire, and
  // makes him a pro user.
  lemma {:induction false} InvoiceIsWorth(dir: Directory, s: Store, id: string, customer: string)
    requires customer in dir.customers && !EventSeen(s.tables, id)
    ensures var u := dir.customers[customer];
            var s' := Handle(dir, s, InvoicePaid(id, Some(customer)));
            && Billing.Gains(s.tables, s'.tables, u, 600, None)
            && Billing.Opens(s.tables, s'.tables, u, 600, SubscriptionRenewal)
            && s'.plans == s.plans[u := "pro"]
  {
    Billing.SubscriptionOnce(s.tables, dir.customers[customer], id, 600, 0, 0);
  }

  // A new completed payment of n minutes for a known user is worth n minutes that never
  // expire; a checkout that is no payment, or names no user or minutes, nothing.
  lemma {:induction false} CheckoutIsWorth(dir: Directory, s: Store, id: string, payment: bool, user: Option<nat>,
                                           minutes: Option<int>)
    requires !EventSeen(s.tables, id) && (minutes.Some? ==> 1 <= minutes.value <= 0x7FFF_FFFF)
    ensures var s' := Handle(dir, s, CheckoutCompleted(id, payment, user, minutes));
            if payment && user.Some? && user.value in dir.users && minutes.Some?
            then && Billing.Gains(s.tables, s'.tables, user.value, minutes.value, None)
                 && Billing.Opens(s.tables, s'.tables, user.value, minutes.value, PurchaseMade)
                 && s'.plans == s.plans
            else s' == s
  {
    if payment && user.Some? && user.value in dir.users && minutes.Some? {
      WrapInt32Is(minutes.value);
      Billing.PurchaseOnce(s.tables, user.value, id, minutes.value, 0, 0);
    }
  }

  // The plan a subscription event leaves its known customer with.
  lemma {:induction false} SubscriptionLeaves(dir: Directory, s: Store, id: string, customer: string, status: string)
    requires customer in dir.customers
    ensures var u := dir.customers[customer];
            && Handle(dir, s, SubscriptionDeleted(id, Some(customer))) == s.(plans := s.plans[u := "free"])
            && Handle(dir, s, SubscriptionUpdated(id, Some(customer), status))
               == s.(plans := s.plans[u := if status == "canceled" || status == "unpaid" || status == "past_due"
                                           then "free" else "pro"])
  {
  }

  // ---- Set semantics ----

  // One id always names one event.
  predicate Consistent(events: seq<Event>) {
    forall i, j | 0 <= i < |events| && 0 <= j < |events| && events[i].id == events[j].id :: events[i] == events[j]
  }

  function NewGrants(s0: Store, s: Store): seq<Grant>
    requires |s0.tables.grants| <= |s.tables.grants|
  {
    s.tables.grants[|s0.tables.grants|..]
  }

  // The new grants have pairwise different event ids.
  lemma {:induction false} NewGrantOccursOnce(dir: Directory, s0: Store, events: seq<Event>, s: Store, k: nat)
    requires Extends(dir, s0, events, s) && k < |NewGrants(s0, s)|
    ensures multiset(NewGrants(s0, s))[NewGrants(s0, s)[k]] == 1
  {
    var added, n := NewGrants(s0, s), |s0.tables.grants|;
    var g := added[k];
    assert added == added[..k] + [g] + added[k + 1..];
    forall j | 0 <= j < |added| && j != k ensures added[j] != g {
      assert added[j] == s.tables.grants[n + j] && g == s.tables.grants[n + k];
    }
    assert g !in added[..k] && g !in added[k + 1..];
  }

  // After consistent deliveries the new grants are exactly what the events with new
  // ids ask for, each once.
  lemma {:induction false} NewGrantsAreTheEvents(dir: Directory, s0: Store, events: seq<Event>, s: Store, g: Grant)
    requires Consistent(events) && Extends(dir, s0, events, s)
    ensures g in NewGrants(s0, s)
            <==> g.event.Some? && Asks(dir, events, g) && !EventSeen(s0.tables, g.event.value)
    ensures multiset(NewGrants(s0, s))[g] == if g in NewGrants(s0, s) then 1 else 0
  {
    var added, n := NewGrants(s0, s), |s0.tables.grants|;
    if g in added {
      var k :| 0 <= k < |added| && added[k] == g;
      assert s.tables.grants[n + k] == g;
      assert NewGrantFits(dir, s0.tables, events, s.tables, n + k);
      NewGrantOccursOnce(dir, s0, events, s, k);
    }
    if g.event.Some? && Asks(dir, events, g) && !EventSeen(s0.tables, g.event.value) {
      AskedIsGranted(dir, s0, events, s, g);
    }
  }

  lemma {:induction false} AskedIsGranted(dir: Directory, s0: Store, events: seq<Event>, s: Store, g: Grant)
    requires Consistent(events) && Extends(dir, s0, events, s)
    requires g.event.Some? && Asks(dir, events, g) && !EventSeen(s0.tables, g.event.value)
    ensures g in NewGrants(s0, s)
  {
    var n := |s0.tables.grants|;
    var i :| 0 <= i < |events| && Payload(dir, events[i]) == Some(g);
    assert events[i].id == g.event.value;
    var k := SeenSince(s0.tables, s.tables, events[i].id);
    assert NewGrantFits(dir, s0.tables, events, s.tables, k);
    var j :| 0 <= j < |events| && Payload(dir, events[j]) == Some(s.tables.grants[k]);
    assert events[i].id == events[j].id;
    assert NewGrants(s0, s)[k - n] == g;
  }

  // An event id seen since s0 is that of a new grant.
  lemma {:induction false} SeenSince(s0: Tables, s: Tables, id: string) returns (k: nat)
    requires Appends(s0, s) && EventSeen(s, id) && !EventSeen(s0, id)
    ensures |s0.grants| <= k < |s.grants| && s.grants[k].event == Some(id)
  {
    forall j | 0 <= j < |s0.grants| ensures s.grants[j].event != Some(id) {
      assert s.grants[..|s0.grants|][j] == s0.grants[j];
    }
    k :| 0 <= k < |s.grants| && s.grants[k].event == Some(id);
  }

  // Duplicates and order do not matter: two series made of the same events leave the
  // same new grants, each with its one ledger entry, and without subscription events
  // the same plans.
  lemma {:induction false} DeliveryIsASet(dir: Directory, s0: Store, xs: seq<Event>, ys: seq<Event>)
    requires Consistent(xs) && Consistent(ys)
    requires forall e :: e in xs <==> e in ys
    ensures var x, y := Deliver(dir, s0, xs), Deliver(dir, s0, ys);
            && Extends(dir, s0, xs, x) && Extends(dir, s0, ys, y)
            && multiset(NewGrants(s0, x)) == multiset(NewGrants(s0, y))
            && (NoPlanSet(xs) ==> x.plans == y.plans)
  {
    var x, y := Deliver(dir, s0, xs), Deliver(dir, s0, ys);
    DeliverExtends(dir, s0, xs);
    DeliverExtends(dir, s0, ys);
    forall g ensures multiset(NewGrants(s0, x))[g] == multiset(NewGrants(s0, y))[g] {
      NewGrantsAreTheEvents(dir, s0, xs, x, g);
      NewGrantsAreTheEvents(dir, s0, ys, y, g);
      SameAsks(dir, xs, ys, g);
      SameAsks(dir, ys, xs, g);
    }
    if NoPlanSet(xs) {
      forall i | 0 <= i < |ys| ensures !SetsPlan(ys[i]) {
        assert ys[i] in xs;
      }
      SamePlans(dir, s0, xs, ys, x, y);
    }
  }

  lemma {:induction false} SamePlans(dir: Directory, s0: Store, xs: seq<Event>, ys: seq<Event>, x: Store, y: Store)
    requires Extends(dir, s0, xs, x) && Extends(dir, s0, ys, y) && NoPlanSet(xs) && NoPlanSet(ys)
    requires multiset(NewGrants(s0, x)) == multiset(NewGrants(s0, y))
    ensures x.plans == y.plans
  {
    forall u: nat ensures (u in x.plans <==> u in y.plans) && (u in x.plans ==> x.plans[u] == y.plans[u]) {
      SameSubscribers(s0, x, y, u);
      SameSubscribers(s0, y, x, u);
      assert PlanFits(s0, x, u) && PlanFits(s0, y, u);
    }
    assert x.plans.Keys == y.plans.Keys;
  }

  lemma {:induction false} SameAsks(dir: Directory, xs: seq<Event>, ys: seq<Event>, g: Grant)
    requires forall e :: e in xs ==> e in ys
    ensures Asks(dir, xs, g) ==> Asks(dir, ys, g)
  {
    if Asks(dir, xs, g) {
      var i :| 0 <= i < |xs| && Payload(dir, xs[i]) == Some(g);
      assert xs[i] in ys;
      var j :| 0 <= j < |ys| && ys[j] == xs[i];
    }
  }

  lemma {:induction false} SameSubscribers(s0: Store, x: Store, y: Store, u: nat)
    requires |s0.tables.grants| <= |x.tables.grants| && |s0.tables.grants| <= |y.tables.grants|
    requires multiset(NewGrants(s0, x)) == multiset(NewGrants(s0, y))
    ensures Subscribes(s0.tables, x.tables, u) ==> Subscribes(s0.tables, y.tables, u)
  {
    var n := |s0.tables.grants|;
    if i :| n <= i < |x.tables.grants| && x.tables.grants[i].source == Subscription && x.tables.grants[i].user == u {
      assert NewGrants(s0, x)[i - n] == x.tables.grants[i];
      assert x.tables.grants[i] in multiset(NewGrants(s0, y));
      var j :| 0 <= j < |NewGrants(s0, y)| && NewGrants(s0, y)[j] == x.tables.grants[i];
      assert y.tables.grants[n + j] == x.tables.grants[i];
    }
  }

  // Redelivering what was already delivered changes no table, and no plan either unless
  // it is a subscription event.
  lemma {:induction false} RedeliveryIsNoop(dir: Directory, s0: Store, events: seq<Event>, i: nat)
    requires i < |events|
    ensures var s := Deliver(dir, s0, events);
            && Handle(dir, s, events[i]).tables == s.tables
            && (!SetsPlan(events[i]) ==> Handle(dir, s, events[i]) == s)
  {
    DeliverExtends(dir, s0, events);
    HandleIsInsert(dir, Deliver(dir, s0, events), events[i]);
  }

  // A redelivered subscription event does nothing exactly when its customer is unknown
  // or already has the plan it sets.
  lemma {:induction false} SubscriptionRedeliveryIsNoopIff(dir: Directory, s: Store, e: Event)
    requires SetsPlan(e)
    ensures Handle(dir, s, e) == s
            <==> e.customer.None? || e.customer.value !in dir.customers
                 || (var u := dir.customers[e.customer.value]; u in s.plans && s.plans[u] == PlanSet(e))
  {
    if e.customer.Some? && e.customer.value in dir.customers {
      var u := dir.customers[e.customer.value];
      var plans := s.plans[u := PlanSet(e)];
      assert Handle(dir, s, e) == s.(plans := plans) && plans[u] == PlanSet(e);
    }
  }

  // The user whose plan the event writes now, and the plan: subscription events always do,
  // a paid invoice when it is new.
  function PlanWrite(dir: Directory, s: Store, e: Event): Option<(nat, string)> {
    if SetsPlan(e) && e.customer.Some? && e.customer.value in dir.customers
    then Some((dir.customers[e.customer.value], PlanSet(e)))
    else if e.InvoicePaid? && e.customer.Some? && e.customer.value in dir.customers && !EventSeen(s.tables, e.id)
    then Some((dir.customers[e.customer.value], "pro"))
    else None
  }

  function Written(plans: map<nat, string>, write: Option<(nat, string)>): map<nat, string> {
    if write.None? then plans else plans[write.value.0 := write.value.1]
  }

  lemma {:induction false} HandleWritesPlan(dir: Directory, s: Store, e: Event)
    ensures Handle(dir, s, e).plans == Written(s.plans, PlanWrite(dir, s, e))
  {
  }

  // Another event's delivery does not change what an event writes.
  lemma {:induction false} WritesAreIndependent(dir: Directory, s: Store, d: Event, e: Event)
    requires d.id != e.id || SetsPlan(d) || SetsPlan(e)
    ensures PlanWrite(dir, Handle(dir, s, d), e) == PlanWrite(dir, s, e)
  {
    if !SetsPlan(d) && !SetsPlan(e) {
      HandleIsInsert(dir, s, d);
      var t' := Handle(dir, s, d).tables;
      forall g | 0 <= g < |s.tables.grants| && s.tables.grants[g].event == Some(e.id)
        ensures EventSeen(t', e.id)
      {
        assert t'.grants[g] == s.tables.grants[g];
      }
    }
  }

  lemma {:induction false} WritesCommuteIff(plans: map<nat, string>, d: Option<(nat, string)>, e: Option<(nat, string)>)
    ensures Written(Written(plans, d), e) == Written(Written(plans, e), d)
            <==> d.None? || e.None? || d.value.0 != e.value.0 || d.value.1 == e.value.1
  {
    if d.Some? && e.Some? {
      var x, y := Written(Written(plans, d), e), Written(Written(plans, e), d);
      assert x[e.value.0] == e.value.1 && y[d.value.0] == d.value.1;
      if d.value.0 != e.value.0 || d.value.1 == e.value.1 { assert x == y; }
    }
  }

  // The order of two different events matters for the plans exactly when both write the
  // plan of one user, and not the same plan.
  lemma {:induction false} OrderMattersIff(dir: Directory, s: Store, d: Event, e: Event)
    requires d.id != e.id || SetsPlan(d) || SetsPlan(e)
    ensures Deliver(dir, s, [d, e]).plans != Deliver(dir, s, [e, d]).plans
            <==> var x, y := PlanWrite(dir, s, d), PlanWrite(dir, s, e);
                 x.Some? && y.Some? && x.value.0 == y.value.0 && x.value.1 != y.value.1
  {
    DeliverTwo(dir, s, d, e);
    DeliverTwo(dir, s, e, d);
    HandleWritesPlan(dir, s, d);
    HandleWritesPlan(dir, s, e);
    HandleWritesPlan(dir, Handle(dir, s, d), e);
    HandleWritesPlan(dir, Handle(dir, s, e), d);
    WritesAreIndependent(dir, s, d, e);
    WritesAreIndependent(dir, s, e, d);
    WritesCommuteIff(s.plans, PlanWrite(dir, s, d), PlanWrite(dir, s, e));
  }

  lemma {:induction false} DeliverTwo(dir: Directory, s: Store, d: Event, e: Event)
    ensures Deliver(dir, s, [d, e]) == Handle(dir, Handle(dir, s, d), e)
  {
    assert [d, e][..1] == [d] && [d][..0] == [];
    assert Deliver(dir, s, []) == s;
    assert Deliver(dir, s, [d]) == Handle(dir, s, d);
  }

  // ---- The handlers ----

  class Handler {
    const db: LedgerDb.Database
    const dir: Directory
    var plans: map<nat, string>

    constructor (db: LedgerDb.Database, dir: Directory, plans: map<nat, string>)
      ensures this.db == db && this.dir == dir && this.plans == plans
    {
      this.db, this.dir, this.plans := db, dir, plans;
    }

    function View(): Store reads this, db { Store(db.View(), plans) }

    method HandleStripeWebhook(e: Event)
      requires db.Valid()
      modifies this, db
      ensures db.Valid() && View() == Handle(dir, old(View()), e)
    {
      match e
      case CheckoutCompleted(id, payment, user, minutes) =>
        if payment && user.Some? && minutes.Some? && user.value in dir.users {
          db.CreatePurchaseGrant(user.value, id, WrapInt32(minutes.value));
        }
      case InvoicePaid(id, customer) =>
        if customer.Some? && customer.value in dir.customers {
          var u := dir.customers[customer.value];
          var before := |db.grants|;
          db.CreateSubscriptionGrant(u, id, ProMinutes());
          if |db.grants| != before { plans := plans[u := "pro"]; }
        }
      case SubscriptionDeleted(_, customer) => UpdatePlanByStripeCustomer(customer, "free");
      case SubscriptionUpdated(_, customer, status) =>
        var plan := "pro";
        if status == "canceled" || status == "unpaid" || status == "past_due" { plan := "free"; }
        UpdatePlanByStripeCustomer(customer, plan);
      case Unhandled(_) =>
    }

    method UpdatePlanByStripeCustomer(customer: Option<string>, plan: string)
      modifies this
      ensures plans == UpdatePlan(dir, old(plans), customer, plan)
    {
      if customer.Some? && customer.value in dir.customers {
        plans := plans[dir.customers[customer.value] := plan];
      }
    }
  }
}
