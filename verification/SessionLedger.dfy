/** The session machine and the ledger see the same row: every run of a session, with any
    transactions of other sessions between its steps, is matched by a run of the ledger, so
    what is proved of ledger runs holds of it. */
module SessionLedger {
  import opened Options
  import opened Sessions
  import opened Ledger
  import L = LedgerRuns
  import LedgerInvariants
  import LedgerTheorems
  import M = SessionMachine
  import SessionInvariants

  // Session k of the ledger is the machine's.
  ghost predicate Matches(t: Tables, k: nat, row: Session) {
    LedgerInvariants.Balanced(t) && k < |t.sessions| && t.sessions[k] == row
  }

  // The ledger steps a session can cause.
  predicate Plain(step: L.Step, k: nat) {
    match step
    case Lock(s) => s == k
    case Unlock(s) => s == k
    case Speak(s) => s == k
    case Judge(s, _) => s == k
    case End(s, _, _, _, _) => s == k
    case Clean(_, _, _) => true
    case Fail(s, active, _) => s == k && active
    case _ => false
  }

  // ---- How a machine step moves the row ----

  // The ledger's choices that SQL leaves open, made in table order.
  function EmptyOverdue(sessions: seq<Session>, now: Time): (ids: seq<nat>) {
    if sessions == [] then []
    else
      var n := |sessions| - 1;
      EmptyOverdue(sessions[..n], now) + if IsOverdue(sessions[n], now) && !sessions[n].spoken then [n] else []
  }

  // `ids` lists the empty overdue ones among the first n sessions, each once.
  ghost predicate ListsEmpty(sessions: seq<Session>, now: Time, n: nat, ids: seq<nat>) {
    && (forall i, j | 0 <= i < j < |ids| :: ids[i] != ids[j])
    && (forall i | 0 <= i < |ids| :: ids[i] < n)
    && (forall s: nat :: s in ids <==> s < n && s < |sessions| && IsOverdue(sessions[s], now) && !sessions[s].spoken)
  }

  lemma {:induction false} EmptyOverdueLists(sessions: seq<Session>, now: Time)
    ensures ListsEmpty(sessions, now, |sessions|, EmptyOverdue(sessions, now))
  {
    if sessions == [] {
    } else {
      var n := |sessions| - 1;
      EmptyOverdueLists(sessions[..n], now);
      ListsOneMore(sessions, now, n, EmptyOverdue(sessions[..n], now));
    }
  }

  lemma {:induction false} ListsOneMore(sessions: seq<Session>, now: Time, n: nat, ids: seq<nat>)
    requires n == |sessions| - 1 && ListsEmpty(sessions[..n], now, n, ids)
    ensures ListsEmpty(sessions, now, |sessions|,
                       ids + if IsOverdue(sessions[n], now) && !sessions[n].spoken then [n] else [])
  {
    var more := ids + if IsOverdue(sessions[n], now) && !sessions[n].spoken then [n] else [];
    forall s: nat
      ensures s in more <==> s < |sessions| && IsOverdue(sessions[s], now) && !sessions[s].spoken
    {
      assert s in more <==> s in ids || (s == n && IsOverdue(sessions[n], now) && !sessions[n].spoken);
      assert s < n ==> sessions[..n][s] == sessions[s];
    }
  }

  function CleanStep(t: Tables, now: Time): L.Step {
    L.Clean(now, EmptyOverdue(t.sessions, now), seq(|t.sessions|, s requires 0 <= s => ReserveRows(t.entries, s)))
  }

  lemma {:induction false} CleanStepLegal(t: Tables, now: Time)
    ensures L.Legal(t, CleanStep(t, now))
  {
    EmptyOverdueLists(t.sessions, now);
    var ids := EmptyOverdue(t.sessions, now);
    forall i | 0 <= i < |ids|
      ensures ids[i] < |t.sessions| && IsOverdue(t.sessions[ids[i]], now) && !t.sessions[ids[i]].spoken
    {
      assert ids[i] in ids;
    }
  }

  // The steps that can move minutes even where they leave the row as it was.
  predicate MovesMinutes(step: M.Step) {
    match step
    case OfEnd(_, end) => end.Write? && end.commit
    case OfRow(r) => r.Fail? || r.Abandon?
    case _ => false
  }

  // The ledger step that matches a machine step, if one is needed.
  function Match(t: Tables, k: nat, s: M.State, step: M.Step): Option<L.Step>
    requires M.Enabled(s, step)
  {
    var row := M.Next(s, step).row;
    if row == s.row && !MovesMinutes(step) then None
    else
      match step
      case OfTurn(_, turn) => Some(if turn.Acquire? then L.Lock(k) else L.Unlock(k))
      case OfMessage(_, _) => Some(L.Speak(k))
      case OfEnd(_, end) => Some(L.End(k, end.Write? && end.cancel, row.turnCount, s.now, ReserveRows(t.entries, k)))
      case OfJudge(_, _) => Some(L.Judge(k, row.status))
      case OfRow(r) => Some(MatchRow(t, k, s, r, row))
  }

  function MatchRow(t: Tables, k: nat, s: M.State, r: M.RowStep, row: Session): L.Step {
    if r.Recover? then L.Unlock(k)
    else if r.Abandon? then CleanStep(t, s.now)
    else if r.Fail? then L.Fail(k, true, ReserveRows(t.entries, k))
    else L.Judge(k, row.status)
  }

  // ---- The match is right ----

  lemma {:induction false} TurnMatches(t: Tables, k: nat, s: M.State, id: nat, turn: M.TurnStep)
    requires Matches(t, k, s.row) && M.TurnEnabled(s, id, turn) && M.TurnNext(s, id, turn).row != s.row
    ensures L.Perform(t, if turn.Acquire? then L.Lock(k) else L.Unlock(k)).sessions[k] == M.TurnNext(s, id, turn).row
  {
    match turn
    case Acquire(told) =>
    case LoadMessages =>
    case LoadSequence =>
    case Release(applied) =>
    case Abort =>
    case Finish(applied) =>
    case Crash =>
  }

  lemma {:induction false} MessageMatches(t: Tables, k: nat, s: M.State, id: nat, message: M.MessageStep)
    requires Matches(t, k, s.row) && M.MessageEnabled(s, id, message) && M.MessageNext(s, id, message).row != s.row
    ensures L.Perform(t, L.Speak(k)).sessions[k] == M.MessageNext(s, id, message).row
  {
    if message.Answer? {
      SessionInvariants.AnswerStores(s, id, message);
    } else {
      SessionInvariants.ReplyStores(s, id, message);
    }
  }

  lemma {:induction false} EndMatches(t: Tables, k: nat, s: M.State, id: nat, end: M.EndStep)
    requires Matches(t, k, s.row) && M.EndEnabled(s, id, end)
    requires M.EndNext(s, id, end).row != s.row || (end.Write? && end.commit)
    ensures end.Write?
    ensures M.EndNext(s, id, end).row == EndRow(s.row, end.cancel, M.EndNext(s, id, end).row.turnCount, s.now)
  {
  }

  lemma {:induction false} JudgeMatches(s: M.State, id: nat, judge: M.JudgeStep)
    requires M.JudgeEnabled(s, id, judge)
    ensures var row := M.JudgeNext(s, id, judge).row;
            row == s.row || (row.status in {Evaluating, Reviewed, EvaluationFailed} && row == s.row.(status := row.status))
  {
    match judge
    case Start =>
    case Collect =>
    case Mark => assert M.JudgeNext(s, id, judge) == M.MarkNext(s, id);
    case Commit(raw, commit) => assert M.JudgeNext(s, id, judge) == M.CommitNext(s, id, raw, commit);
    case Drop =>
  }

  lemma {:induction false} RowMatches(s: M.State, r: M.RowStep)
    requires M.RowEnabled(s, r) && (M.RowNext(s, r).row != s.row || r.Fail? || r.Abandon?)
    ensures var row := M.RowNext(s, r).row;
            if r.Fail? then row == s.row.(status := Failed)
            else if r.Recover? then s.row.status == Generating && row == s.row.(status := Active)
            else if r.Abandon? then row == CompleteSpoken(CancelEmpty(s.row, s.now), s.now)
            else row == s.row.(status := row.status) && row.status in {Evaluating, EvaluationFailed}
  {
    match r
    case Tick(time) =>
    case Recover =>
    case Abandon =>
    case CheckFail =>
    case Fail =>
    case GiveUp =>
    case CheckRetry =>
    case Retry(commit) =>
  }

  lemma {:induction false} CleanMovesRow(t: Tables, k: nat, now: Time)
    requires k < |t.sessions|
    ensures L.Legal(t, CleanStep(t, now))
    ensures var t' := L.Perform(t, CleanStep(t, now));
            |t'.sessions| == |t.sessions| && t'.sessions[k] == CompleteSpoken(CancelEmpty(t.sessions[k], now), now)
  {
    CleanStepLegal(t, now);
  }

  lemma {:induction false} FailMovesRow(t: Tables, k: nat)
    requires k < |t.sessions|
    ensures L.Legal(t, L.Fail(k, true, ReserveRows(t.entries, k)))
    ensures L.Perform(t, L.Fail(k, true, ReserveRows(t.entries, k))).sessions
            == t.sessions[k := t.sessions[k].(status := Failed)]
  {
  }

  lemma {:induction false} RowStepMatches(t: Tables, k: nat, s: M.State, r: M.RowStep)
    requires Matches(t, k, s.row) && M.RowEnabled(s, r)
    requires M.RowNext(s, r).row != s.row || r.Fail? || r.Abandon?
    ensures var m := MatchRow(t, k, s, r, M.RowNext(s, r).row);
            && Plain(m, k) && L.Legal(t, m) && k < |L.Perform(t, m).sessions|
            && L.Perform(t, m).sessions[k] == M.RowNext(s, r).row
  {
    RowMatches(s, r);
    if r.Abandon? {
      CleanMovesRow(t, k, s.now);
    } else if r.Fail? {
      FailMovesRow(t, k);
    }
  }

  lemma {:induction false} MatchIsRight(t: Tables, k: nat, s: M.State, step: M.Step)
    requires Matches(t, k, s.row) && M.Enabled(s, step)
    ensures var m := Match(t, k, s, step);
            if m.None? then M.Next(s, step).row == s.row && !MovesMinutes(step)
            else
              && Plain(m.value, k) && L.Legal(t, m.value)
              && k < |L.Perform(t, m.value).sessions|
              && L.Perform(t, m.value).sessions[k] == M.Next(s, step).row
  {
    if M.Next(s, step).row != s.row || MovesMinutes(step) {
      match step
      case OfTurn(id, turn) => TurnMatches(t, k, s, id, turn);
      case OfMessage(id, message) => MessageMatches(t, k, s, id, message);
      case OfEnd(id, end) => EndMatches(t, k, s, id, end);
      case OfJudge(id, judge) => JudgeMatches(s, id, judge);
      case OfRow(r) => RowStepMatches(t, k, s, r);
    }
  }

  // Every committed end call, clean-up and FailSession has its ledger step, even where it
  // leaves the row as it was.
  lemma {:induction false} MinutesAlwaysMove(t: Tables, k: nat, s: M.State, step: M.Step)
    requires M.Enabled(s, step)
    ensures step.OfEnd? && step.end.Write? && step.end.commit ==>
              var m := Match(t, k, s, step);
              m.Some? && m.value.End? && m.value.s == k && m.value.cancel == step.end.cancel && m.value.now == s.now
    ensures step == M.OfRow(M.Abandon) ==> Match(t, k, s, step) == Some(CleanStep(t, s.now))
    ensures step == M.OfRow(M.Fail) ==> Match(t, k, s, step) == Some(L.Fail(k, true, ReserveRows(t.entries, k)))
  {
  }

  // ---- Runs ----

  // What happens next: a step of session k, or a ledger transaction of others.
  datatype Event = Own(step: M.Step) | Foreign(move: L.Step)

  // The ledger, and session k of it as the machine sees it.
  datatype Joint = Joint(tables: Tables, state: M.State)

  // The transaction is none of session k's. A clean-up that finds it overdue is: that one
  // is the machine's own step `Abandon`.
  predicate Elsewhere(t: Tables, step: L.Step, k: nat)
    requires k < |t.sessions|
  {
    match step
    case Speak(s) => s != k
    case Lock(s) => s != k
    case Unlock(s) => s != k
    case Judge(s, _) => s != k
    case End(s, _, _, _, _) => s != k
    case Fail(s, _, _) => s != k
    case Clean(now, _, _) => !IsOverdue(t.sessions[k], now)
    case _ => true
  }

  predicate Possible(j: Joint, k: nat, e: Event) {
    match e
    case Own(step) => M.Enabled(j.state, step)
    case Foreign(move) => k < |j.tables.sessions| && L.Legal(j.tables, move) && Elsewhere(j.tables, move, k)
  }

  // The ledger step that the event takes, if it takes one.
  function Moves(j: Joint, k: nat, e: Event): Option<L.Step>
    requires Possible(j, k, e)
  {
    match e
    case Own(step) =>
      var m := Match(j.tables, k, j.state, step);
      if m.Some? && L.Legal(j.tables, m.value) then m else None
    case Foreign(move) => Some(move)
  }

  function After(j: Joint, k: nat, e: Event): Joint
    requires Possible(j, k, e)
  {
    var m := Moves(j, k, e);
    Joint(if m.Some? then L.Perform(j.tables, m.value) else j.tables,
          if e.Own? then M.Next(j.state, e.step) else j.state)
  }

  predicate LegalRun(j: Joint, k: nat, events: seq<Event>)
    decreases |events|
  {
    events == [] || (Possible(j, k, events[0]) && LegalRun(After(j, k, events[0]), k, events[1..]))
  }

  function Run(j: Joint, k: nat, events: seq<Event>): Joint
    requires LegalRun(j, k, events)
    decreases |events|
  {
    if events == [] then j else Run(After(j, k, events[0]), k, events[1..])
  }

  function AsSeq<T>(x: Option<T>): seq<T> { if x.Some? then [x.value] else [] }

  function OwnStep(e: Event): Option<M.Step> { if e.Own? then Some(e.step) else None }

  // The machine's side of a run, and the ledger's.
  function OwnSteps(events: seq<Event>): seq<M.Step> {
    if events == [] then [] else AsSeq(OwnStep(events[0])) + OwnSteps(events[1..])
  }

  function Shadow(j: Joint, k: nat, events: seq<Event>): seq<L.Step>
    requires LegalRun(j, k, events)
    decreases |events|
  {
    if events == [] then []
    else AsSeq(Moves(j, k, events[0])) + Shadow(After(j, k, events[0]), k, events[1..])
  }

  lemma {:induction false} ElsewhereKeepsRow(t: Tables, step: L.Step, k: nat)
    requires k < |t.sessions| && L.Legal(t, step) && Elsewhere(t, step, k)
    ensures k < |L.Perform(t, step).sessions| && L.Perform(t, step).sessions[k] == t.sessions[k]
  {
  }

  lemma {:induction false} OwnKeepsMatch(j: Joint, k: nat, step: M.Step)
    requires Matches(j.tables, k, j.state.row) && M.Enabled(j.state, step)
    ensures var j1 := After(j, k, Own(step)); Matches(j1.tables, k, j1.state.row)
  {
    MatchIsRight(j.tables, k, j.state, step);
    var m := Match(j.tables, k, j.state, step);
    if m.Some? { LedgerTheorems.StepKeepsBalance(j.tables, m.value); }
  }

  lemma {:induction false} EventKeepsMatch(j: Joint, k: nat, e: Event)
    requires Matches(j.tables, k, j.state.row) && Possible(j, k, e)
    ensures var j1 := After(j, k, e); Matches(j1.tables, k, j1.state.row)
  {
    if e.Own? {
      OwnKeepsMatch(j, k, e.step);
    } else {
      ElsewhereKeepsRow(j.tables, e.move, k);
      LedgerTheorems.StepKeepsBalance(j.tables, e.move);
    }
  }

  lemma {:induction false} RunKeepsMatch(j: Joint, k: nat, events: seq<Event>)
    requires Matches(j.tables, k, j.state.row) && LegalRun(j, k, events)
    ensures var j' := Run(j, k, events); Matches(j'.tables, k, j'.state.row)
    decreases |events|
  {
    if events == [] {
    } else {
      EventKeepsMatch(j, k, events[0]);
      RunKeepsMatch(After(j, k, events[0]), k, events[1..]);
    }
  }

  lemma {:induction false} LedgerSide(j: Joint, k: nat, events: seq<Event>)
    requires LegalRun(j, k, events)
    ensures L.LegalRun(j.tables, Shadow(j, k, events))
    ensures L.Run(j.tables, Shadow(j, k, events)) == Run(j, k, events).tables
    decreases |events|
  {
    if events == [] {
    } else {
      var j1, m := After(j, k, events[0]), Moves(j, k, events[0]);
      LedgerSide(j1, k, events[1..]);
      MovesAreLegal(j, k, events[0]);
      Prepended(j.tables, m, j1.tables, Shadow(j1, k, events[1..]));
    }
  }

  lemma {:induction false} MovesAreLegal(j: Joint, k: nat, e: Event)
    requires Possible(j, k, e)
    ensures var m := Moves(j, k, e);
            if m.Some? then L.Legal(j.tables, m.value) && After(j, k, e).tables == L.Perform(j.tables, m.value)
            else After(j, k, e).tables == j.tables
  {
  }

  lemma {:induction false} Prepended(t: Tables, m: Option<L.Step>, t1: Tables, rest: seq<L.Step>)
    requires if m.Some? then L.Legal(t, m.value) && t1 == L.Perform(t, m.value) else t1 == t
    requires L.LegalRun(t1, rest)
    ensures var moves := AsSeq(m) + rest; L.LegalRun(t, moves) && L.Run(t, moves) == L.Run(t1, rest)
  {
    if m.Some? {
      assert ([m.value] + rest)[1..] == rest;
    } else {
      assert [] + rest == rest;
    }
  }

  lemma {:induction false} MachineSide(j: Joint, k: nat, events: seq<Event>)
    requires LegalRun(j, k, events)
    ensures M.LegalRun(j.state, OwnSteps(events))
    ensures M.Run(j.state, OwnSteps(events)) == Run(j, k, events).state
    decreases |events|
  {
    if events == [] {
    } else {
      var j1, step := After(j, k, events[0]), OwnStep(events[0]);
      MachineSide(j1, k, events[1..]);
      OwnIsEnabled(j, k, events[0]);
      OwnPrepended(j.state, step, j1.state, OwnSteps(events[1..]));
    }
  }

  lemma {:induction false} OwnIsEnabled(j: Joint, k: nat, e: Event)
    requires Possible(j, k, e)
    ensures var step := OwnStep(e);
            if step.Some? then M.Enabled(j.state, step.value) && After(j, k, e).state == M.Next(j.state, step.value)
            else After(j, k, e).state == j.state
  {
  }

  lemma {:induction false} OwnPrepended(s: M.State, step: Option<M.Step>, s1: M.State, rest: seq<M.Step>)
    requires if step.Some? then M.Enabled(s, step.value) && s1 == M.Next(s, step.value) else s1 == s
    requires M.LegalRun(s1, rest)
    ensures var steps := AsSeq(step) + rest; M.LegalRun(s, steps) && M.Run(s, steps) == M.Run(s1, rest)
  {
    if step.Some? {
      assert ([step.value] + rest)[1..] == rest;
    } else {
      assert [] + rest == rest;
    }
  }

  // The ledger's side of a run of session k, with any transactions of others between its
  // steps, is a legal ledger run to the same tables; the machine's side is a legal machine
  // run to the same state; and the two see the same row, with the books balanced.
  lemma {:induction false} SessionRunsAreLedgerRuns(j: Joint, k: nat, events: seq<Event>)
    requires Matches(j.tables, k, j.state.row) && LegalRun(j, k, events)
    ensures var j' := Run(j, k, events);
            && Matches(j'.tables, k, j'.state.row)
            && L.LegalRun(j.tables, Shadow(j, k, events)) && L.Run(j.tables, Shadow(j, k, events)) == j'.tables
            && M.LegalRun(j.state, OwnSteps(events)) && M.Run(j.state, OwnSteps(events)) == j'.state
  {
    RunKeepsMatch(j, k, events);
    LedgerSide(j, k, events);
    MachineSide(j, k, events);
  }

  function Alone(steps: seq<M.Step>): (events: seq<Event>)
    ensures |events| == |steps| && forall i | 0 <= i < |steps| :: events[i] == Own(steps[i])
  {
    seq(|steps|, i requires 0 <= i < |steps| => Own(steps[i]))
  }

  // Every run of the machine is the machine's side of such a run.
  lemma {:induction false} EveryRunHasAShadow(j: Joint, k: nat, steps: seq<M.Step>)
    requires M.LegalRun(j.state, steps)
    ensures LegalRun(j, k, Alone(steps)) && OwnSteps(Alone(steps)) == steps
    decreases |steps|
  {
    if steps == [] {
    } else {
      assert Alone(steps)[1..] == Alone(steps[1..]);
      EveryRunHasAShadow(After(j, k, Own(steps[0])), k, steps[1..]);
    }
  }

  lemma {:induction false} MoveIsPlain(j: Joint, k: nat, e: Event)
    requires Matches(j.tables, k, j.state.row) && Possible(j, k, e)
    ensures var m := Moves(j, k, e); m.Some? ==> Plain(m.value, k) || e == Foreign(m.value)
  {
    if e.Own? { MatchIsRight(j.tables, k, j.state, e.step); }
  }

  // The shadow's steps are the session's own and the foreign ones.
  lemma {:induction false} ShadowIsPlain(j: Joint, k: nat, events: seq<Event>)
    requires Matches(j.tables, k, j.state.row) && LegalRun(j, k, events)
    ensures forall m | m in Shadow(j, k, events) :: Plain(m, k) || Foreign(m) in events
    decreases |events|
  {
    if events == [] {
    } else {
      var e, rest := events[0], events[1..];
      EventKeepsMatch(j, k, e);
      ShadowIsPlain(After(j, k, e), k, rest);
      MoveIsPlain(j, k, e);
      forall m | m in Shadow(j, k, events) ensures Plain(m, k) || Foreign(m) in events {
        assert m in AsSeq(Moves(j, k, e)) || m in Shadow(After(j, k, e), k, rest);
      }
    }
  }

  // ---- What the session costs ----

  predicate WithoutFail(events: seq<Event>) { Own(M.OfRow(M.Fail)) !in events }

  lemma {:induction false} ClockRunsForward(s: M.State, step: M.Step)
    requires M.Enabled(s, step)
    ensures M.Next(s, step).now >= s.now
  {
    match step
    case OfTurn(id, turn) => ClockStandsInTurns(s, id, turn);
    case OfMessage(id, message) =>
    case OfEnd(id, end) =>
    case OfJudge(id, judge) =>
    case OfRow(r) =>
  }

  lemma {:induction false} ClockStandsInTurns(s: M.State, id: nat, turn: M.TurnStep)
    requires M.TurnEnabled(s, id, turn)
    ensures M.TurnNext(s, id, turn).now == s.now
  {
  }

  // An end call writes at the time of the machine's clock.
  lemma {:induction false} OwnMovesDoNotReprice(t: Tables, k: nat, s: M.State, step: M.Step, first: Time)
    requires M.Enabled(s, step) && step != M.OfRow(M.Fail) && first <= s.now
    ensures var m := Match(t, k, s, step); m.Some? ==> !LedgerTheorems.Reprices(m.value, k, first)
  {
  }

  lemma {:induction false} MovesDoNotReprice(j: Joint, k: nat, e: Event, first: Time)
    requires Possible(j, k, e) && e != Own(M.OfRow(M.Fail)) && first <= j.state.now
    ensures var m := Moves(j, k, e); m.Some? ==> !LedgerTheorems.Reprices(m.value, k, first)
    ensures first <= After(j, k, e).state.now
  {
    if e.Own? {
      OwnMovesDoNotReprice(j.tables, k, j.state, e.step, first);
      ClockRunsForward(j.state, e.step);
    }
  }

  // The machine's clock never runs backwards, so no end call comes from before `first`.
  lemma {:induction false} ShadowNeverReprices(j: Joint, k: nat, events: seq<Event>, first: Time)
    requires Matches(j.tables, k, j.state.row) && LegalRun(j, k, events) && WithoutFail(events)
    requires first <= j.state.now
    ensures LedgerTheorems.NeverReprices(Shadow(j, k, events), k, first)
    decreases |events|
  {
    if events == [] {
    } else {
      MovesDoNotReprice(j, k, events[0], first);
      EventKeepsMatch(j, k, events[0]);
      ShadowNeverReprices(After(j, k, events[0]), k, events[1..], first);
    }
  }

  lemma {:induction false} ShadowHead(j: Joint, k: nat, e: Event, rest: seq<Event>)
    requires Matches(j.tables, k, j.state.row) && LegalRun(j, k, [e] + rest)
    ensures Possible(j, k, e) && LegalRun(After(j, k, e), k, rest)
    ensures var j1, moves := After(j, k, e), AsSeq(Moves(j, k, e)) + Shadow(After(j, k, e), k, rest);
            && Matches(j1.tables, k, j1.state.row)
            && L.LegalRun(j.tables, moves) && L.Run(j.tables, moves) == Run(j, k, [e] + rest).tables
  {
    assert ([e] + rest)[1..] == rest;
    EventKeepsMatch(j, k, e);
    SessionRunsAreLedgerRuns(j, k, [e] + rest);
  }

  // A session that the machine has ended costs the started minutes, at least one and at
  // most the reservation, in every later state, whatever the session and all others do:
  // for good if that left something to refund, and otherwise as long as FailSession does
  // not write it. Only earlier gains of the same user could spoil it.
  lemma {:induction false} EndedSessionCostsItsPrice(j: Joint, k: nat, id: nat, end: M.EndStep, rest: seq<Event>)
    requires Matches(j.tables, k, j.state.row) && LegalRun(j, k, [Own(M.OfEnd(id, end))] + rest)
    requires end.Write? && end.commit && !LedgerInvariants.Refunded(j.tables, k)
    requires LedgerInvariants.UserBounded(j.tables, j.state.row.user)
    requires !LedgerTheorems.UsesAll(j.state.row, j.state.now) || WithoutFail(rest)
    ensures L.IsPrice(LedgerInvariants.Charge(Run(j, k, [Own(M.OfEnd(id, end))] + rest).tables, k),
                      j.state.row.reserved, j.state.now - j.state.row.started)
  {
    var e := Own(M.OfEnd(id, end));
    ShadowHead(j, k, e, rest);
    MatchIsRight(j.tables, k, j.state, e.step);
    var j1, first := After(j, k, e), Match(j.tables, k, j.state, e.step);
    if WithoutFail(rest) { ShadowNeverReprices(j1, k, rest, j.state.now); }
    LedgerTheorems.ChargeIsFixedByFirstEnd(j.tables, first.value, Shadow(j1, k, rest));
  }

  lemma {:induction false} AbandonCleans(j: Joint, k: nat)
    ensures Moves(j, k, Own(M.OfRow(M.Abandon))) == Some(CleanStep(j.tables, j.state.now))
    ensures After(j, k, Own(M.OfRow(M.Abandon))).state.now == j.state.now
  {
    CleanStepLegal(j.tables, j.state.now);
  }

  // A session that clean-up finds abandoned costs its reservation if the candidate spoke,
  // as long as FailSession does not write it, and otherwise nothing.
  lemma {:induction false} AbandonedSessionCosts(j: Joint, k: nat, rest: seq<Event>)
    requires Matches(j.tables, k, j.state.row) && LegalRun(j, k, [Own(M.OfRow(M.Abandon))] + rest)
    requires IsOverdue(j.state.row, j.state.now)
    ensures var charge := LedgerInvariants.Charge(Run(j, k, [Own(M.OfRow(M.Abandon))] + rest).tables, k);
            && (j.state.row.spoken && WithoutFail(rest) ==> charge == j.state.row.reserved)
            && (!j.state.row.spoken && LedgerInvariants.UserBounded(j.tables, j.state.row.user) ==> charge == 0)
  {
    var e := Own(M.OfRow(M.Abandon));
    ShadowHead(j, k, e, rest);
    AbandonCleans(j, k);
    var j1 := After(j, k, e);
    if WithoutFail(rest) { ShadowNeverReprices(j1, k, rest, j.state.now); }
    LedgerTheorems.CleanupChargeIsFinal(j.tables, CleanStep(j.tables, j.state.now), Shadow(j1, k, rest), k);
  }

  // Without FailSession a session never gives back more than it took, whatever happens to
  // the others.
  lemma {:induction false} RunKeepsSessionBounded(j: Joint, k: nat, events: seq<Event>)
    requires Matches(j.tables, k, j.state.row) && LegalRun(j, k, events) && WithoutFail(events)
    requires LedgerInvariants.Bounded(j.tables, k) && !HasReason(j.tables, k, ErrorRefund)
    ensures var t := Run(j, k, events).tables; k < |t.sessions| && LedgerInvariants.Bounded(t, k)
  {
    SessionRunsAreLedgerRuns(j, k, events);
    ShadowNeverReprices(j, k, events, j.state.now);
    var moves := Shadow(j, k, events);
    forall i | 0 <= i < |moves| ensures !LedgerTheorems.Fails(moves[i], k) {
      assert !LedgerTheorems.Reprices(moves[i], k, j.state.now);
    }
    LedgerTheorems.NeverFailed(j.tables, moves, k);
    LedgerTheorems.RunKeepsBounds(j.tables, moves, k);
  }
}
