/** A run in which a user is paid twice for one session, and then charged too much for
    another. */
module FailedSessionExample {
  import opened Options
  import opened Distribution
  import opened Sessions
  import opened Ledger
  import opened LedgerTotals
  import opened LedgerInvariants
  import opened LedgerRuns

  // One 60-minute grant and two sessions of 30 minutes.
  function Free(remaining: int): Grant { Grant(0, FreeGrant, None, 60, remaining, Some(1000 * MINUTE)) }

  function Half(status: Status): Session { Session(0, status, 30, 30, 0, None, 0, false, false) }

  // The entry that step n writes.
  function EntryOf(n: nat): Entry {
    if n == 0 then Entry(0, 0, 60, FreeTrial, None)
    else if n <= 2 then Entry(0, 0, -30, SessionReserve, Some(n - 1))
    else if n == 3 then Entry(0, 0, 30, ErrorRefund, Some(0))
    else Entry(0, 0, 29, SessionRefund, Some(0))
  }

  function Log(n: nat): (log: seq<Entry>)
    ensures |log| == n
  {
    if n == 0 then [] else Log(n - 1) + [EntryOf(n - 1)]
  }

  // The row of a session ended after one minute.
  function Ended(status: Status): Session { EndRow(Half(status), false, 1, MINUTE) }

  // The tables after each of the first five steps.
  function After(n: nat): Tables
    requires n <= 5
  {
    if n == 0 then EMPTY
    else if n == 1 then Tables([Free(60)], [], Log(1))
    else if n == 2 then Tables([Free(30)], [Half(Active)], Log(2))
    else if n == 3 then Tables([Free(0)], [Half(Active), Half(Active)], Log(3))
    else if n == 4 then Tables([Free(30)], [Half(Failed), Half(Active)], Log(4))
    else Tables([Free(59)], [Ended(Failed), Half(Active)], Log(5))
  }

  // The free grant, two sessions, the failure of the first, and then the end of both.
  function TheStep(n: nat): Step {
    if n == 0 then AddFree(0, 60, 1000 * MINUTE)
    else if n <= 2 then Open(0, 30, 0, [0])
    else if n == 3 then Fail(0, true, [Row(0, 30)])
    else End(if n == 4 then 0 else 1, false, 1, MINUTE, [Row(0, 30)])
  }

  lemma {:induction false} OneMore(log: seq<Entry>, e: Entry, s: nat)
    ensures ReserveRows(log + [e], s)
            == ReserveRows(log, s) + if e.session == Some(s) && e.reason == SessionReserve then [Row(e.grant, -e.amount)] else []
    ensures Total(log + [e], OfSession(s)) == Total(log, OfSession(s)) + if e.session == Some(s) then e.amount else 0
  {
    assert (log + [e])[..|log|] == log;
  }

  predicate HasSums(log: seq<Entry>, n: nat) {
    && ReserveRows(log, 0) == (if n >= 2 then [Row(0, 30)] else [])
    && ReserveRows(log, 1) == (if n >= 3 then [Row(0, 30)] else [])
    && Total(log, OfSession(0)) == (if n == 5 then 29 else if n == 4 || n < 2 then 0 else -30)
    && Total(log, OfSession(1)) == if n >= 3 then -30 else 0
  }

  lemma {:induction false} NextSums(log: seq<Entry>, next: seq<Entry>, n: nat)
    requires 0 < n <= 5 && HasSums(log, n - 1) && next == log + [EntryOf(n - 1)]
    ensures HasSums(next, n)
  {
    OneMore(log, EntryOf(n - 1), 0);
    OneMore(log, EntryOf(n - 1), 1);
  }

  lemma {:induction false} LogSums(n: nat)
    requires n <= 5
    ensures HasSums(Log(n), n)
  {
    if n == 0 {
    } else {
      LogSums(n - 1);
      NextSums(Log(n - 1), Log(n), n);
    }
  }

  lemma {:induction false} LogReasons(n: nat)
    requires n <= 5
    ensures forall e | e in Log(n) && e.reason == SessionRefund :: n == 5 && e.session == Some(0)
    ensures forall e | e in Log(n) && e.session == Some(1) :: e.reason == SessionReserve
  {
    if n == 0 {
    } else {
      LogReasons(n - 1);
    }
  }

  lemma {:induction false} OneShare(cap: int, request: int)
    requires 0 < request <= cap
    ensures Distribute([Row(0, cap)], request) == [Share(0, request)]
    ensures Capacity([Row(0, cap)]) == cap
    ensures Positive([Share(0, request)]) == [Share(0, request)]
    ensures Negated([Share(0, request)]) == [Share(0, -request)]
  {
  }

  lemma {:induction false} OneMove(t: Tables, remaining: int, amount: int, reason: Reason, s: nat)
    requires t.grants == [Free(remaining)]
    ensures Move(t, 0, [Share(0, amount)], reason, s)
            == t.(grants := [Free(remaining + amount)], entries := t.entries + [Entry(0, 0, amount, reason, Some(s))])
    ensures Accepted(t.grants, [Share(0, amount)])
            == if amount > 0 && remaining + amount <= 60 then [Share(0, amount)] else []
  {
    var m := Share(0, amount);
    assert [m][1..] == [];
    assert AddAll([Free(remaining)], [m]) == [Free(remaining + amount)];
    assert LogOf(0, [m], reason, s) == [Entry(0, 0, amount, reason, Some(s))];
  }

  // The tables when the second half of an opening runs.
  function Opened(n: nat): Tables
    requires n == 1 || n == 2
  {
    After(n).(sessions := After(n).sessions + [Half(Active)])
  }

  lemma {:induction false} OpenDebits(n: nat)
    requires n == 1 || n == 2
    ensures Debits(Opened(n), [0], 30) == [Share(0, 30)]
  {
    var left := if n == 1 then 60 else 30;
    assert Opened(n).grants == [Free(left)];
    assert BalanceRows(Opened(n), [0]) == [Row(0, left)];
    OneShare(left, 30);
  }

  lemma {:induction false} OpenMove(n: nat)
    requires n == 1 || n == 2
    ensures Move(Opened(n), 0, [Share(0, -30)], SessionReserve, n - 1) == After(n + 1)
  {
    var left := if n == 1 then 60 else 30;
    assert Opened(n).grants == [Free(left)];
    OneMove(Opened(n), left, -30, SessionReserve, n - 1);
    assert Log(n) + [EntryOf(n)] == Log(n + 1);
  }

  lemma {:induction false} OpenStep(n: nat)
    requires n == 1 || n == 2
    ensures Legal(After(n), TheStep(n)) && Perform(After(n), TheStep(n)) == After(n + 1)
  {
    OpenDebits(n);
    OpenMove(n);
    OneShare(30, 30);
    assert |After(n).sessions| == n - 1;
    assert OpenSession(After(n), 0, 30, 0, [0]) == Some(After(n + 1));
  }

  lemma {:induction false} OneCredit(t: Tables, remaining: int, total: int, reason: Reason)
    requires t.grants == [Free(remaining)] && |t.sessions| > 0 && t.sessions[0].user == 0
    requires !HasReason(t, 0, SessionRefund) && 0 < total <= 30 && remaining + total <= 60
    ensures Credit(t, 0, total, reason, [Row(0, 30)])
            == t.(grants := [Free(remaining + total)], entries := t.entries + [Entry(0, 0, total, reason, Some(0))])
  {
    OneShare(30, total);
    OneMove(t, remaining, total, reason, 0);
  }

  lemma {:induction false} FailCredit()
    ensures var t1 := PutSession(After(3), 0, Half(Failed));
            Credit(t1, 0, 30, ErrorRefund, [Row(0, 30)]) == After(4)
  {
  }

  lemma {:induction false} FailStep()
    ensures Legal(After(3), TheStep(3)) && Perform(After(3), TheStep(3)) == After(4)
  {
    LogSums(3);
    FailCredit();
    assert After(3).sessions[0] == Half(Active) && Half(Active).(status := Failed) == Half(Failed);
    assert FailSession(After(3), 0, true, [Row(0, 30)])
        == Credit(PutSession(After(3), 0, Half(Failed)), 0, 30, ErrorRefund, [Row(0, 30)]);
  }

  lemma {:induction false} EndCredit(t: Tables)
    requires t == After(4).(sessions := [Ended(Failed), Half(Active)])
    ensures RefundSessionMinutes(t, 0, [Row(0, 30)]) == After(5)
  {
    LogReasons(4);
    assert RefundTotal(t.sessions[0]) == 29;
    OneCredit(t, 30, 29, SessionRefund);
    assert Log(5) == Log(4) + [EntryOf(4)];
  }

  lemma {:induction false} EndStep()
    ensures Legal(After(4), TheStep(4)) && Perform(After(4), TheStep(4)) == After(5)
  {
    LogSums(4);
    var t1 := PutSession(After(4), 0, Ended(Failed));
    assert t1.sessions == [Ended(Failed), Half(Active)];
    EndCredit(t1);
  }

  // The tables after all six steps: the end of session 1 writes its row and nothing else.
  const LAST := Tables([Free(59)], [Ended(Failed), Ended(Active)], Log(5))

  lemma {:induction false} LastCredit(t: Tables)
    requires t == LAST
    ensures RefundSessionMinutes(t, 1, [Row(0, 30)]) == t
  {
    LogReasons(5);
    assert RefundTotal(t.sessions[1]) == 29;
    OneShare(30, 29);
    OneMove(t, 59, 29, SessionRefund, 1);
    assert t.entries + LogOf(0, [], SessionRefund, 1) == t.entries;
  }

  lemma {:induction false} LastStep()
    ensures Legal(After(5), TheStep(5)) && Perform(After(5), TheStep(5)) == LAST
  {
    LogSums(5);
    var t1 := PutSession(After(5), 1, Ended(Active));
    assert t1.sessions == [Ended(Failed), Ended(Active)];
    LastCredit(t1);
  }

  lemma {:induction false} GrantStep()
    ensures Legal(EMPTY, TheStep(0)) && Perform(EMPTY, TheStep(0)) == After(1)
  {
  }

  lemma {:induction false} Prepend(t: Tables, step: Step, steps: seq<Step>)
    requires Legal(t, step) && LegalRun(Perform(t, step), steps)
    ensures LegalRun(t, [step] + steps) && Run(t, [step] + steps) == Run(Perform(t, step), steps)
  {
  }

  // The steps from n to m.
  function Steps(n: nat, m: nat): seq<Step>
    requires n <= m <= 6
    decreases m - n
  {
    if n == m then [] else [TheStep(n)] + Steps(n + 1, m)
  }

  lemma {:induction false} FirstFive(m: nat)
    requires m == 5 || (m == 6 && LegalRun(After(5), Steps(5, 6)))
    ensures LegalRun(EMPTY, Steps(0, m)) && Run(EMPTY, Steps(0, m)) == Run(After(5), Steps(5, m))
  {
    EndStep();
    Prepend(After(4), TheStep(4), Steps(5, m));
    FailStep();
    Prepend(After(3), TheStep(3), Steps(4, m));
    OpenStep(2);
    Prepend(After(2), TheStep(2), Steps(3, m));
    OpenStep(1);
    Prepend(After(1), TheStep(1), Steps(2, m));
    GrantStep();
    Prepend(EMPTY, TheStep(0), Steps(1, m));
  }

  // Ending the failed session after one minute pays 29 minutes on top of the full
  // refund: the session is charged -29, and 59 minutes remain while 30 are reserved.
  lemma {:induction false} EndingFailedSessionOverpays()
    ensures LegalRun(EMPTY, Steps(0, 5))
    ensures var t := Run(EMPTY, Steps(0, 5)); Charge(t, 0) == -29 && t.grants == [Free(59)]
  {
    FirstFive(5);
    LogSums(5);
  }

  lemma {:induction false} LastFacts()
    ensures Charge(LAST, 1) == 30 && !Refunded(LAST, 1)
  {
    LogSums(5);
    LogReasons(5);
  }

  // The other session has never failed. Ended after one minute as well, it should cost
  // one; but the grant has no room for its 29 minutes, and it keeps costing 30.
  lemma {:induction false} OtherSessionIsOvercharged()
    ensures LegalRun(EMPTY, Steps(0, 6)) && Run(EMPTY, Steps(0, 6)) == LAST
    ensures LAST.sessions[1].status == Completed && IsPrice(1, LAST.sessions[1].reserved, MINUTE)
    ensures Charge(LAST, 1) == 30 && !Refunded(LAST, 1)
  {
    LastStep();
    Prepend(After(5), TheStep(5), Steps(6, 6));
    FirstFive(6);
    LastFacts();
  }
}
