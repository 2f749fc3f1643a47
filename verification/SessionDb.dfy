/** The session as it is kept: a row, its messages and its evaluation, updated in place.
    Each operation, run on its own, performs exactly the steps of SessionMachine named
    in its contract, whatever fails on the way. */
module SessionDb {
  import opened Options
  import opened Sessions
  import opened Transcript
  import opened Evaluation
  import opened SessionMachine
  import opened SessionInvariants
  import opened SessionTheorems
  import opened SessionTurns

  const POLL: nat := 500_000

  lemma {:induction false} ClockAdvances(s: State, steps: seq<Step>)
    requires LegalRun(s, steps)
    ensures s.now <= Run(s, steps).now
    decreases |steps|
  {
    if steps == [] {
    } else {
      ClockStep(s, steps[0]);
      ClockAdvances(Next(s, steps[0]), steps[1..]);
    }
  }

  lemma {:induction false} ClockStep(s: State, step: Step)
    requires Enabled(s, step)
    ensures s.now <= Next(s, step).now
  {
    match step
    case OfTurn(id, turn) => TurnFrame(s, id, turn);
    case OfMessage(id, message) => MessageFrame(s, id, message);
    case OfEnd(id, end) => EndFrame(s, id, end);
    case OfJudge(id, judge) => JudgeFrame(s, id, judge);
    case OfRow(row) => RowClock(s, row);
  }

  lemma {:induction false} RowClock(s: State, step: RowStep)
    requires RowEnabled(s, step)
    ensures s.now <= RowNext(s, step).now
  {
    match step
    case Tick(time) =>
    case Recover =>
    case Abandon =>
    case CheckFail =>
    case Fail =>
    case GiveUp =>
    case CheckRetry =>
    case Retry(commit) =>
  }

  // One round of a waiting end call: whether the status can be read, whether the recovery
  // of a stale lock goes through, and whether the caller gives up meanwhile.
  datatype Round = Round(readable: bool, recovers: bool, cancelled: bool)

  // The lock is still held, or has just been recovered; it is not stale, unless the
  // statement that recovers it has failed.
  predicate SleepsRightly(s: State, round: Round) {
    (s.row.status == Generating || round.recovers) && (IsStale(s) ==> !round.recovers)
  }

  datatype Waited = Settled | TimedOut | Unreadable | GaveUp

  // ---- The steps of an attempt ----

  function JudgeSteps(id: nat, raw: Option<RawInput>, commit: bool, messages: seq<Message>): seq<Step> {
    [OfJudge(id, Collect), OfJudge(id, Mark)]
    + if messages == [] then []
      else if raw.None? then [OfJudge(id, Drop)]
      else [OfJudge(id, Commit(raw.value, commit))]
  }

  class Database {
    var row: Session
    var since: Option<Time>
    var messages: seq<Message>
    var evaluation: Option<Stored>
    var enqueued: bool
    var now: Time
    ghost var others: State     // the processes, and the history

    ghost function Whole(): State reads this {
      others.(row := row, since := since, messages := messages, evaluation := evaluation,
              enqueued := enqueued, now := now)
    }

    constructor (row: Session, now: Time, ghost others: State)
      ensures Whole() == others.(row := row, since := None, messages := [], evaluation := None,
                                 enqueued := false, now := now)
    {
      this.row, this.now, this.others := row, now, others;
      since, messages, evaluation, enqueued := None, [], None, false;
    }

    // ---- Statements ----

    method AcquireGeneratingStatus() returns (acquired: bool)
      modifies this`row, this`since
      ensures acquired <==> old(row.status) == Active
      ensures Whole() == AcquireLock(old(Whole()))
    {
      acquired := row.status == Active;
      if acquired { row, since := row.(status := Generating), Some(now); }
    }

    method ReleaseGeneratingStatus()
      modifies this`row, this`since
      ensures Whole() == ReleaseLock(old(Whole()))
    {
      if row.status == Generating { row, since := row.(status := Active), None; }
    }

    method RecoverStaleGenerating()
      modifies this`row, this`since
      ensures Whole() == Next(old(Whole()), OfRow(Recover))
    {
      if row.status == Generating && since.Some? && since.value < now - STALE {
        row, since := row.(status := Active), None;
      }
    }

    method InsertMessage(m: Message) returns (ok: bool)
      modifies this`row, this`messages
      ensures ok <==> Insert(old(messages), m).Some?
      ensures Whole() == if ok then Store(old(Whole()), m) else old(Whole())
    {
      var r := Insert(messages, m);
      ok := r.Some?;
      if ok { messages, row := r.value, row.(spoken := row.spoken || m.role == Candidate); }
    }

    method UpdateSessionStatusOnly(status: Status)
      modifies this`row
      ensures Whole() == SetStatus(old(Whole()), status)
    {
      row := row.(status := status);
    }

    method CleanupAbandoned()
      modifies this`row, this`enqueued
      ensures Whole() == Next(old(Whole()), OfRow(Abandon))
    {
      var overdue := row.status == Active && row.started + (row.duration + 5) * MINUTE < now;
      if overdue && !row.spoken {
        row := row.(status := Cancelled, ended := Some(now), archived := true);
      } else if overdue {
        row, enqueued := row.(status := Completed, ended := Some(now)), true;
      }
    }

    // ---- Waiting for a turn ----

    // Whatever other processes do meanwhile: callers know only that it is a run.
    method Interfere() returns (ghost steps: seq<Step>)
      modifies this
      ensures LegalRun(old(Whole()), steps) && Whole() == Run(old(Whole()), steps)
    {
      steps := [];
    }

    method Sleep(time: nat)
      modifies this`now
      ensures Whole() == Next(old(Whole()), OfRow(Tick(time)))
    {
      now := now + time;
    }

    // The statement that recovers a stale lock, if it goes through.
    method RecoverIfStale(works: bool) returns (ghost steps: seq<Step>)
      modifies this`row, this`since
      ensures LegalRun(old(Whole()), steps) && Whole() == Run(old(Whole()), steps)
      ensures IsStale(Whole()) ==> !works
      ensures row.status == old(row.status) || works
      ensures now == old(now)
    {
      steps := [];
      if since.Some? && now - since.value > STALE && works {
        RunSnoc(Whole(), [], OfRow(Recover));
        steps := [] + [OfRow(Recover)];
        RecoverStaleGenerating();
      }
    }

    method SleepAmongOthers() returns (ghost steps: seq<Step>)
      modifies this
      ensures LegalRun(old(Whole()), steps) && Whole() == Run(old(Whole()), steps)
      ensures now >= old(now) + POLL
    {
      ghost var s := Whole();
      RunSnoc(s, [], OfRow(Tick(POLL)));
      steps := [] + [OfRow(Tick(POLL))];
      Sleep(POLL);
      ghost var s1 := Whole();
      ghost var more := Interfere();
      ClockAdvances(s1, more);
      RunSplit(s, steps, more);
      steps := steps + more;
    }

    // Polls until no turn holds the lock, and gives up a minute on, not before and without
    // going to sleep again. It goes to sleep on a stale lock only when the statement that
    // recovers it has failed.
    method WaitForGeneration(polls: nat -> Round)
      returns (outcome: Waited, ghost steps: seq<Step>, ghost asleep: seq<State>)
      modifies this
      ensures LegalRun(old(Whole()), steps) && Whole() == Run(old(Whole()), steps)
      ensures match outcome
              case Settled => row.status != Generating
              case TimedOut => now > old(now) + MINUTE && asleep != []
              case Unreadable => !polls(|asleep|).readable
              case GaveUp => asleep != [] && polls(|asleep| - 1).cancelled
      ensures forall i: nat | i < |asleep| :: SleepsRightly(asleep[i], polls(i)) && asleep[i].now <= old(now) + MINUTE
    {
      ghost var s := Whole();
      var deadline := now + MINUTE;
      var n: nat := 0;
      steps, asleep := [], [];
      while now <= deadline
        invariant LegalRun(s, steps) && Whole() == Run(s, steps)
        invariant |asleep| == n && (now > deadline ==> n > 0)
        invariant forall i: nat | i < n :: SleepsRightly(asleep[i], polls(i)) && asleep[i].now <= deadline
        decreases deadline - now
      {
        ghost var more, state;
        var decided;
        decided, more, state := PollOnce(polls(n));
        RunSplit(s, steps, more);
        steps, asleep := steps + more, asleep + state;
        if decided.Some? { return decided.value, steps, asleep; }
        n := n + 1;
      }
      outcome := TimedOut;
    }

    // One round; it returns the state it went to sleep in, if it did.
    method PollOnce(round: Round) returns (decided: Option<Waited>, ghost steps: seq<Step>, ghost asleep: seq<State>)
      modifies this
      ensures LegalRun(old(Whole()), steps) && Whole() == Run(old(Whole()), steps)
      ensures match decided
              case None => |asleep| == 1 && now >= old(now) + POLL
              case Some(Settled) => asleep == [] && row.status != Generating
              case Some(Unreadable) => asleep == [] && !round.readable
              case Some(GaveUp) => |asleep| == 1 && round.cancelled
              case Some(TimedOut) => false
      ensures forall i | 0 <= i < |asleep| :: SleepsRightly(asleep[i], round) && asleep[i].now == old(now)
    {
      ghost var s := Whole();
      if !round.readable { return Some(Unreadable), [], []; }
      if row.status != Generating { return Some(Settled), [], []; }
      steps := RecoverIfStale(round.recovers);
      asleep := [Whole()];
      if round.cancelled { return Some(GaveUp), steps, asleep; }
      ghost var more := SleepAmongOthers();
      RunSplit(s, steps, more);
      return None, steps + more, asleep;
    }

    // ---- End calls ----

    // WaitAndCompleteSession and WaitAndCancelSession, from the poll that settles the
    // wait: a turn at work makes them fail and change nothing.
    method WaitAndEnd(ghost id: nat, cancel: bool, commit: bool) returns (ok: bool, ghost steps: seq<Step>)
      requires id !in others.ends
      modifies this
      ensures LegalRun(old(Whole()), steps) && Whole() == Run(old(Whole()), steps)
      ensures ok <==> old(row.status) != Generating && commit
      ensures ok ==> steps == [OfEnd(id, Poll), OfEnd(id, CountTurns), OfEnd(id, Write(cancel, true))]
      ensures !ok ==> row == old(row) && enqueued == old(enqueued)
    {
      ok, steps := false, [];
      if row.status == Generating { return; }
      ghost var s := Whole();
      others := others.(ends := others.ends[id := None]);
      RunSnoc(s, [], OfEnd(id, Poll));
      steps := [] + [OfEnd(id, Poll)];
      var turnCount := InterviewerCount(messages);
      others := others.(ends := others.ends[id := Some(turnCount)]);
      RunSnoc(s, steps, OfEnd(id, CountTurns));
      steps := steps + [OfEnd(id, CountTurns)];
      RunSnoc(s, steps, OfEnd(id, Write(cancel, commit)));
      steps := steps + [OfEnd(id, Write(cancel, commit))];
      EndSession(id, cancel, turnCount, commit);
      ok := commit;
    }

    // CompleteSession and CancelSession: one transaction, whatever the status.
    method EndSession(ghost id: nat, cancel: bool, turnCount: nat, commit: bool)
      requires id in others.ends && others.ends[id] == Some(turnCount)
      modifies this
      ensures Whole() == WriteNext(old(Whole()), id, cancel, commit)
    {
      if commit {
        row := EndRow(row, cancel, turnCount, now);
        if !cancel && turnCount > 1 { enqueued := true; }
      }
      others := others.(ends := others.ends - {id});
    }

    // ---- A turn ----

    // Steps 3 to 7: load, decide what kind of turn this is, store the answer. The turn
    // goes on to ask the LLM with what is returned.
    method TakeAnswer(ghost id: nat, input: Input, m1: nat, luck: Luck)
      returns (ask: Option<(seq<Message>, int)>, ghost steps: seq<Step>)
      requires Possible(luck) && AtPhase(Whole(), id, Acquired)
      modifies this
      ensures steps == AnswerSteps(id, input, m1, luck)
      ensures LegalRun(old(Whole()), steps) && Whole() == Run(old(Whole()), steps)
      ensures id in others.turns && others.turns[id].released == old(others).turns[id].released
      ensures ask.None? ==> AtPhase(Whole(), id, Done)
      ensures ask.Some? ==> AtPhase(Whole(), id, Replying) && others.turns[id].messages == ask.value.0
                            && others.turns[id].sequence == ask.value.1
    {
      ghost var s := Whole();
      if !luck.loads {
        Leave(id);
        RunSnoc(s, [], OfTurn(id, Abort));
        steps := [] + [OfTurn(id, Abort)];
        return None, steps;
      }
      RunSnoc(s, [], OfTurn(id, LoadMessages));
      steps := [] + [OfTurn(id, LoadMessages)];
      var loaded := GetMessages(id);
      if !luck.sequences {
        RunSnoc(s, steps, OfTurn(id, Abort));
        steps := steps + [OfTurn(id, Abort)];
        Leave(id);
        return None, steps;
      }
      RunSnoc(s, steps, OfTurn(id, LoadSequence));
      steps := steps + [OfTurn(id, LoadSequence)];
      var sequence := GetMaxSeq(id);
      ghost var answer := OfMessage(id, Answer(input, m1, luck.answerStored, luck.answerTold));
      RunSnoc(s, steps, answer);
      ask := StoreAnswer(id, input, m1, luck, loaded, sequence);
      steps := steps + [answer];
    }

    method GetMessages(ghost id: nat) returns (loaded: seq<Message>)
      requires AtPhase(Whole(), id, Acquired)
      modifies this`others
      ensures Whole() == TurnNext(old(Whole()), id, LoadMessages)
      ensures loaded == messages && AtPhase(Whole(), id, Loaded) && others.turns[id].messages == loaded
      ensures others.turns[id].released == old(others).turns[id].released
    {
      loaded := messages;
      others := PutTurn(others, id, others.turns[id].(phase := Loaded, messages := loaded));
    }

    method GetMaxSeq(ghost id: nat) returns (sequence: int)
      requires AtPhase(Whole(), id, Loaded)
      modifies this`others
      ensures Whole() == TurnNext(old(Whole()), id, LoadSequence)
      ensures AtPhase(Whole(), id, Ready) && others.turns[id].sequence == sequence
      ensures others.turns[id].messages == old(others).turns[id].messages
      ensures others.turns[id].released == old(others).turns[id].released
    {
      sequence := MaxSeq(messages);
      others := PutTurn(others, id, others.turns[id].(phase := Ready, sequence := sequence));
    }

    method StoreAnswer(ghost id: nat, input: Input, m1: nat, luck: Luck, loaded: seq<Message>, sequence: int)
      returns (ask: Option<(seq<Message>, int)>)
      requires Possible(luck) && AtPhase(Whole(), id, Ready)
      requires others.turns[id].messages == loaded && others.turns[id].sequence == sequence
      modifies this
      ensures Whole() == AnswerNext(old(Whole()), id, input, m1, luck.answerStored, luck.answerTold)
      ensures id in others.turns && others.turns[id].released == old(others).turns[id].released
      ensures ask.None? ==> AtPhase(Whole(), id, Done)
      ensures ask.Some? ==> AtPhase(Whole(), id, Replying) && others.turns[id].messages == ask.value.0
                            && others.turns[id].sequence == ask.value.1
    {
      var isOpeningQuestion := |loaded| == 0 && input == Text("");
      var isCrashRecovery := |loaded| > 0 && loaded[|loaded| - 1].role == Candidate;
      if isOpeningQuestion || isCrashRecovery {
        BeginReply(id, loaded, sequence);
        return Some((loaded, sequence));
      }
      var heard := CandidateContent(input);
      ask := StoreHeard(id, heard, m1, luck, loaded, sequence);
    }

    method StoreHeard(ghost id: nat, heard: Heard, m1: nat, luck: Luck, loaded: seq<Message>, sequence: int)
      returns (ask: Option<(seq<Message>, int)>)
      requires AtPhase(Whole(), id, Ready)
      requires others.turns[id].messages == loaded && others.turns[id].sequence == sequence
      modifies this
      ensures Whole() == HeardNext(old(Whole()), id, heard, m1, luck.answerStored, luck.answerTold)
      ensures id in others.turns && others.turns[id].released == old(others).turns[id].released
      ensures ask.None? ==> AtPhase(Whole(), id, Done)
      ensures ask.Some? ==> AtPhase(Whole(), id, Replying) && others.turns[id].messages == ask.value.0
                            && others.turns[id].sequence == ask.value.1
    {
      if heard.Refused? {
        Leave(id);
        return None;
      }
      ask := StoreCandidate(id, Message(m1, sequence + 1, Candidate, heard.text), luck, loaded);
    }

    method StoreCandidate(ghost id: nat, m: Message, luck: Luck, loaded: seq<Message>)
      returns (ask: Option<(seq<Message>, int)>)
      requires AtPhase(Whole(), id, Ready) && others.turns[id].messages == loaded
      modifies this
      ensures Whole() == CandidateNext(old(Whole()), id, m, luck.answerStored, luck.answerTold)
      ensures ask.None? ==> AtPhase(Whole(), id, Done)
      ensures ask.Some? ==> AtPhase(Whole(), id, Replying) && ask.value == (loaded + [m], m.number)
      ensures id in others.turns && others.turns[id].released == old(others).turns[id].released
      ensures ask.Some? ==> others.turns[id].messages == ask.value.0 && others.turns[id].sequence == ask.value.1
    {
      var stored := false;
      if luck.answerStored { stored := InsertMessage(m); }
      if !stored || !luck.answerTold {
        Leave(id);
        return None;
      }
      BeginReply(id, loaded + [m], m.number);
      return Some((loaded + [m], m.number));
    }

    ghost method Leave(id: nat)
      requires id in others.turns
      modifies this`others
      ensures Whole() == EndTurn(old(Whole()), id)
    {
      others := EndTurn(others, id);
    }

    ghost method BeginReply(id: nat, messages: seq<Message>, sequence: int)
      requires id in others.turns
      modifies this`others
      ensures Whole() == StartReply(old(Whole()), id,
                                    old(others).turns[id].(messages := messages, sequence := sequence))
    {
      others := StartReply(others, id, others.turns[id].(messages := messages, sequence := sequence));
    }

    // streamInterviewerResponse: the reply is stored, and the lock released early.
    method StreamReply(ghost id: nat, sequence: int, m2: nat, luck: Luck)
      returns (released: bool, ghost steps: seq<Step>)
      requires Possible(luck) && AtPhase(Whole(), id, Replying)
      requires others.turns[id].sequence == sequence && !others.turns[id].released
      modifies this
      ensures steps == ReplySteps(id, m2, luck, released)
      ensures LegalRun(old(Whole()), steps) && Whole() == Run(old(Whole()), steps)
      ensures AtPhase(Whole(), id, Done) && others.turns[id].released == released
    {
      ghost var s := Whole();
      released := false;
      if luck.reply.None? {
        Leave(id);
        RunSnoc(s, [], OfTurn(id, Abort));
        steps := [] + [OfTurn(id, Abort)];
        return;
      }
      ghost var reply := OfMessage(id, Reply(luck.reply.value, m2, luck.replyStored, luck.replyTold));
      RunSnoc(s, [], reply);
      steps := [] + [reply];
      var saved := StoreReply(id, sequence, luck.reply.value, m2, luck);
      if !saved { return; }
      RunSnoc(s, steps, OfTurn(id, Release(luck.releaseApplied)));
      steps := steps + [OfTurn(id, Release(luck.releaseApplied))];
      if luck.releaseApplied { ReleaseGeneratingStatus(); }
      released := true;
      others := PutTurn(others, id, others.turns[id].(phase := Done, released := true));
    }

    method StoreReply(ghost id: nat, sequence: int, text: string, m2: nat, luck: Luck) returns (saved: bool)
      requires Possible(luck) && AtPhase(Whole(), id, Replying) && others.turns[id].sequence == sequence
      modifies this
      ensures Whole() == ReplyNext(old(Whole()), id, text, m2, luck.replyStored, luck.replyTold)
      ensures id in others.turns && others.turns[id].released == old(others).turns[id].released
      ensures AtPhase(Whole(), id, if saved then Saved else Done)
    {
      var stored := false;
      if luck.replyStored { stored := InsertMessage(Message(m2, sequence + 1, Interviewer, text)); }
      if !stored || !luck.replyTold {
        Leave(id);
        return false;
      }
      others := PutTurn(others, id, others.turns[id].(phase := Saved));
      return true;
    }

    // What runs between taking the lock and the deferred release.
    method TurnBody(ghost id: nat, input: Input, m1: nat, m2: nat, luck: Luck)
      returns (released: bool, ghost asked: bool, ghost steps: seq<Step>)
      requires Possible(luck) && AtPhase(Whole(), id, Acquired) && !others.turns[id].released
      modifies this
      ensures steps == BodySteps(id, input, m1, m2, luck, asked, released)
      ensures LegalRun(old(Whole()), steps) && Whole() == Run(old(Whole()), steps)
      ensures AtPhase(Whole(), id, Done) && others.turns[id].released == released
    {
      ghost var s := Whole();
      released := false;
      var ask;
      ask, steps := TakeAnswer(id, input, m1, luck);
      asked := ask.Some?;
      if ask.Some? {
        ghost var more;
        released, more := StreamReply(id, ask.value.1, m2, luck);
        RunSplit(s, steps, more);
        steps := steps + more;
      } else {
        assert steps + [] == steps;
      }
    }

    // A turn leaves nothing of itself behind but its messages; and it lets go of the lock
    // on every path, if the release it makes there takes effect.
    method ExecuteTurn(ghost id: nat, input: Input, m1: nat, m2: nat, luck: Luck)
      returns (ghost steps: seq<Step>, ghost asked: bool, ghost saved: bool)
      requires Possible(luck) && id !in others.turns
      modifies this
      ensures steps == if old(row.status) == Active && luck.acquireTold
                       then ExecuteSteps(id, input, m1, m2, luck, asked, saved)
                       else [OfTurn(id, Acquire(luck.acquireTold))]
      ensures LegalRun(old(Whole()), steps) && Whole() == Run(old(Whole()), steps)
      ensures id !in others.turns
      ensures old(row.status) != Active ==> Whole() == old(Whole())
      ensures old(row.status) == Active && luck.acquireTold && Gapless(old(messages)) ==>
                Leaves(old(Whole()), Whole(), input, m1, m2, luck)
    {
      ghost var s := Whole();
      asked, saved := false, false;
      RunSnoc(s, [], OfTurn(id, Acquire(luck.acquireTold)));
      steps := [] + [OfTurn(id, Acquire(luck.acquireTold))];
      var acquired := BeginTurn(id, luck);
      if !acquired || !luck.acquireTold { return; }
      ghost var more;
      more, asked, saved := RunTurn(id, input, m1, m2, luck);
      RunSplit(s, steps, more);
      steps := steps + more;
      TurnEnds(s, Whole(), id, input, m1, m2, luck, asked, saved);
    }

    // A turn that has the lock.
    method RunTurn(ghost id: nat, input: Input, m1: nat, m2: nat, luck: Luck)
      returns (ghost steps: seq<Step>, ghost asked: bool, ghost saved: bool)
      requires Possible(luck) && AtPhase(Whole(), id, Acquired) && !others.turns[id].released
      modifies this
      ensures steps == BodySteps(id, input, m1, m2, luck, asked, saved) + [OfTurn(id, Finish(luck.finishApplied))]
      ensures LegalRun(old(Whole()), steps) && Whole() == Run(old(Whole()), steps)
      ensures id !in others.turns
    {
      ghost var s := Whole();
      var released;
      released, asked, steps := TurnBody(id, input, m1, m2, luck);
      saved := released;
      RunSnoc(s, steps, OfTurn(id, Finish(luck.finishApplied)));
      steps := steps + [OfTurn(id, Finish(luck.finishApplied))];
      LeaveTurn(id, released, luck);
    }

    method BeginTurn(ghost id: nat, luck: Luck) returns (acquired: bool)
      requires id !in others.turns
      modifies this
      ensures Whole() == TurnNext(old(Whole()), id, Acquire(luck.acquireTold))
      ensures acquired <==> old(row.status) == Active
      ensures !acquired ==> Whole() == old(Whole())
      ensures acquired && luck.acquireTold ==> AtPhase(Whole(), id, Acquired) && !others.turns[id].released
      ensures !(acquired && luck.acquireTold) ==> id !in others.turns
    {
      acquired := AcquireGeneratingStatus();
      if acquired && luck.acquireTold {
        others := PutTurn(others, id, Turn(now, Acquired, [], 0, false)).(holder := Some(id));
      } else if acquired {
        others := others.(holder := None);
      }
    }

    // The deferred release, unless the early one has been made.
    method LeaveTurn(ghost id: nat, released: bool, luck: Luck)
      requires AtPhase(Whole(), id, Done) && others.turns[id].released == released
      modifies this
      ensures Whole() == TurnNext(old(Whole()), id, Finish(luck.finishApplied))
      ensures id !in others.turns
    {
      if !released && luck.finishApplied { ReleaseGeneratingStatus(); }
      others := others.(turns := others.turns - {id});
    }

    // ---- Evaluation ----

    // One attempt of the job; `raw` is the evaluator's tool input, if it comes.
    method EvaluateSession(ghost id: nat, raw: Option<RawInput>, commit: bool) returns (ghost steps: seq<Step>)
      requires enqueued && id !in others.judges
      modifies this
      ensures steps == [OfJudge(id, Start)] + if old(evaluation).Some? then [] else JudgeSteps(id, raw, commit, old(messages))
      ensures LegalRun(old(Whole()), steps) && Whole() == Run(old(Whole()), steps)
    {
      ghost var s := Whole();
      RunSnoc(s, [], OfJudge(id, Start));
      steps := [] + [OfJudge(id, Start)];
      if evaluation.Some? { return; }
      others := others.(judges := others.judges[id := Started]);
      ghost var more := JudgeSession(id, raw, commit);
      RunSplit(s, steps, more);
      steps := steps + more;
    }

    method JudgeSession(ghost id: nat, raw: Option<RawInput>, commit: bool) returns (ghost steps: seq<Step>)
      requires id in others.judges && others.judges[id].Started?
      modifies this
      ensures steps == JudgeSteps(id, raw, commit, old(messages))
      ensures LegalRun(old(Whole()), steps) && Whole() == Run(old(Whole()), steps)
    {
      ghost var s := Whole();
      var loaded := messages;
      others := others.(judges := others.judges[id := Collected(loaded)]);
      RunSnoc(s, [], OfJudge(id, Collect));
      steps := [] + [OfJudge(id, Collect)];
      RunSnoc(s, steps, OfJudge(id, Mark));
      steps := steps + [OfJudge(id, Mark)];
      MarkSession(id, loaded);
      if |loaded| == 0 { return; }
      if raw.None? {
        RunSnoc(s, steps, OfJudge(id, Drop));
        steps := steps + [OfJudge(id, Drop)];
        others := others.(judges := others.judges - {id});
        return;
      }
      RunSnoc(s, steps, OfJudge(id, Commit(raw.value, commit)));
      steps := steps + [OfJudge(id, Commit(raw.value, commit))];
      PersistEvaluation(id, raw.value, loaded, commit);
    }

    method MarkSession(ghost id: nat, loaded: seq<Message>)
      requires id in others.judges && others.judges[id] == Collected(loaded)
      modifies this
      ensures Whole() == MarkNext(old(Whole()), id)
    {
      if |loaded| == 0 {
        UpdateSessionStatusOnly(EvaluationFailed);
        others := others.(judges := others.judges - {id});
      } else {
        UpdateSessionStatusOnly(Evaluating);
        others := others.(judges := others.judges[id := Judging(loaded)]);
      }
    }

    // The transaction: evaluation, annotations and status, or nothing.
    method PersistEvaluation(ghost id: nat, raw: RawInput, loaded: seq<Message>, commit: bool)
      requires id in others.judges && others.judges[id] == Judging(loaded)
      modifies this
      ensures Whole() == CommitNext(old(Whole()), id, raw, commit)
    {
      others := others.(judges := others.judges - {id});
      var e := Evaluate(raw, loaded);
      if e.Some? && evaluation.None? && commit {
        evaluation := e;
        UpdateSessionStatusOnly(Reviewed);
      }
    }

    method RetryEvaluation(commit: bool) returns (ok: bool, ghost steps: seq<Step>)
      modifies this
      ensures steps == if old(row.status) == EvaluationFailed then [OfRow(CheckRetry), OfRow(Retry(commit))] else []
      ensures LegalRun(old(Whole()), steps) && Whole() == Run(old(Whole()), steps)
      ensures ok <==> old(row.status) == EvaluationFailed && commit
      ensures others == old(others)
    {
      ghost var s := Whole();
      ok, steps := false, [];
      if row.status != EvaluationFailed { return; }
      RunSnoc(s, [], OfRow(CheckRetry));
      assert [] + [OfRow(CheckRetry)] == [OfRow(CheckRetry)];
      RunSnoc(s, [OfRow(CheckRetry)], OfRow(Retry(commit)));
      steps := [OfRow(CheckRetry)] + [OfRow(Retry(commit))];
      if commit {
        UpdateSessionStatusOnly(Evaluating);
        enqueued, ok := true, true;
      }
    }

    // A failed attempt of the job: only the last one marks the session.
    method HandleError(attempt: int, maxAttempts: int)
      requires enqueued
      modifies this`row
      ensures Whole() == if attempt < maxAttempts then old(Whole()) else Next(old(Whole()), OfRow(GiveUp))
    {
      if attempt < maxAttempts { return; }
      UpdateSessionStatusOnly(EvaluationFailed);
    }
  }
}
