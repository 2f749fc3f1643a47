/** What holds of whole runs of a session. */
module SessionTheorems {
  import opened Options
  import opened Splitter
  import opened Sessions
  import opened Transcript
  import opened Evaluation
  import opened SessionMachine
  import opened SessionInvariants

  // ---- Every run ----

  lemma {:induction false} RunKeepsInv(s: State, steps: seq<Step>)
    requires Inv(s) && LegalRun(s, steps)
    ensures Inv(Run(s, steps)) && s.messages <= Run(s, steps).messages
    decreases |steps|
  {
    if steps == [] {
    } else {
      StepKeepsInv(s, steps[0]);
      RunKeepsInv(Next(s, steps[0]), steps[1..]);
    }
  }

  // Whatever interleaves, crashes or overstays: messages are numbered 1..n, every answer
  // says something, every prompt is one the LLM can answer, a reviewed session has a
  // sound evaluation, the turn count is backed by messages, and the lock has a time exactly
  // as long as it is held, on an open session.
  lemma {:induction false} AnyRun(s: State, steps: seq<Step>)
    requires Fresh(s) && LegalRun(s, steps)
    ensures var s' := Run(s, steps);
            && Gapless(s'.messages)
            && (forall i | 0 <= i < |s'.messages| && s'.messages[i].role == Candidate ::
                  !AllSpace(s'.messages[i].content))
            && (forall i | 0 <= i < |s'.prompts| :: s'.prompts[i] != [] && s'.prompts[i][|s'.prompts[i]| - 1].User?)
            && (s'.row.status == Reviewed ==> s'.evaluation.Some?)
            && (s'.evaluation.Some? ==> Sound(s'.evaluation.value, s'.messages))
            && s'.row.turnCount <= InterviewerCount(s'.messages)
            && (s'.row.status == Generating ==> s'.since.Some?) && (s'.row.status == Active ==> s'.since.None?)
            && (s'.enqueued ==> !IsOpen(s'.row.status))
  {
    FreshInv(s);
    RunKeepsInv(s, steps);
    var s' := Run(s, steps);
    forall i | 0 <= i < |s'.prompts| ensures s'.prompts[i] != [] && s'.prompts[i][|s'.prompts[i]| - 1].User? {
      assert Answerable(s'.prompts[i]);
    }
  }

  lemma {:induction false} StepKeepsEnded(s: State, step: Step)
    requires Enabled(s, step) && !IsOpen(s.row.status)
    ensures !IsOpen(Next(s, step).row.status)
  {
    match step
    case OfTurn(id, turn) => TurnStatus(s, id, turn);
    case OfMessage(id, message) => MessageFrame(s, id, message);
    case OfEnd(id, end) => EndFrame(s, id, end);
    case OfJudge(id, judge) => JudgeFrame(s, id, judge);
    case OfRow(row) => RowStatus(s, row);
  }

  // Once ended, a session is never active or generating again.
  lemma {:induction false} EndedStaysEnded(s: State, steps: seq<Step>)
    requires LegalRun(s, steps) && !IsOpen(s.row.status)
    ensures !IsOpen(Run(s, steps).row.status)
    decreases |steps|
  {
    if steps == [] {
    } else {
      StepKeepsEnded(s, steps[0]);
      EndedStaysEnded(Next(s, steps[0]), steps[1..]);
    }
  }

  // ---- Evaluations ----

  // Steps that overwrite the status whatever it is.
  predicate RewritesStatus(step: Step) {
    match step
    case OfTurn(_, _) => false
    case OfMessage(_, _) => false
    case OfEnd(_, end) => end.Write? && end.commit
    case OfJudge(_, judge) => judge.Mark?
    case OfRow(row) => row.GiveUp? || row.Fail? || row == Retry(true)
  }

  lemma {:induction false} RowOnEvaluated(s: State, step: RowStep)
    requires RowEnabled(s, step)
    ensures RowNext(s, step).row.status == Reviewed
            <==> s.row.status == Reviewed && !(step.GiveUp? || step.Fail? || step == Retry(true))
  {
    match step
    case Tick(time) =>
    case Recover =>
    case Abandon =>
    case CheckFail =>
    case Fail =>
    case GiveUp =>
    case CheckRetry =>
    case Retry(commit) =>
  }

  lemma {:induction false} JudgeOnEvaluated(s: State, id: nat, step: JudgeStep)
    requires JudgeEnabled(s, id, step) && s.evaluation.Some?
    ensures JudgeNext(s, id, step).evaluation == s.evaluation
    ensures JudgeNext(s, id, step).row.status == Reviewed <==> s.row.status == Reviewed && !step.Mark?
  {
    match step
    case Start =>
    case Collect =>
    case Mark =>
    case Commit(raw, commit) =>
    case Drop =>
  }

  lemma {:induction false} EndOnEvaluated(s: State, id: nat, step: EndStep)
    requires EndEnabled(s, id, step)
    ensures EndNext(s, id, step).row.status == Reviewed
            <==> s.row.status == Reviewed && !(step.Write? && step.commit)
  {
  }

  lemma {:induction false} EvaluatedStep(s: State, step: Step)
    requires Enabled(s, step) && s.evaluation.Some?
    ensures Next(s, step).evaluation == s.evaluation
    ensures Next(s, step).row.status == Reviewed <==> s.row.status == Reviewed && !RewritesStatus(step)
  {
    match step
    case OfTurn(id, turn) => TurnFrame(s, id, turn); TurnStatus(s, id, turn);
    case OfMessage(id, message) => MessageFrame(s, id, message);
    case OfEnd(id, end) => EndFrame(s, id, end); EndOnEvaluated(s, id, end);
    case OfJudge(id, judge) => JudgeOnEvaluated(s, id, judge);
    case OfRow(row) => RowFrame(s, row); RowOnEvaluated(s, row);
  }

  lemma {:induction false} ReviewNotRegained(s: State, steps: seq<Step>)
    requires LegalRun(s, steps) && s.evaluation.Some? && s.row.status != Reviewed
    ensures Run(s, steps).row.status != Reviewed
    decreases |steps|
  {
    if steps == [] {
    } else {
      EvaluatedStep(s, steps[0]);
      ReviewNotRegained(Next(s, steps[0]), steps[1..]);
    }
  }

  // An evaluation is written once. The session shows it as reviewed exactly until some
  // step overwrites the status (a late end call, a retry, a job's last failure), and then
  // never again, since an attempt that finds an evaluation does nothing.
  lemma {:induction false} ReviewedSurvivesIff(s: State, steps: seq<Step>)
    requires LegalRun(s, steps) && s.evaluation.Some? && s.row.status == Reviewed
    ensures Run(s, steps).evaluation == s.evaluation
    ensures Run(s, steps).row.status == Reviewed <==> forall i | 0 <= i < |steps| :: !RewritesStatus(steps[i])
    decreases |steps|
  {
    if steps == [] {
    } else {
      var s1 := Next(s, steps[0]);
      EvaluatedStep(s, steps[0]);
      EvaluationIsFinal(s1, steps[1..]);
      if RewritesStatus(steps[0]) {
        ReviewNotRegained(s1, steps[1..]);
      } else {
        ReviewedSurvivesIff(s1, steps[1..]);
        assert forall i | 1 <= i < |steps| :: steps[i] == steps[1..][i - 1];
      }
    }
  }

  lemma {:induction false} EvaluationIsFinal(s: State, steps: seq<Step>)
    requires LegalRun(s, steps) && s.evaluation.Some?
    ensures Run(s, steps).evaluation == s.evaluation
    decreases |steps|
  {
    if steps == [] {
    } else {
      EvaluatedStep(s, steps[0]);
      EvaluationIsFinal(Next(s, steps[0]), steps[1..]);
    }
  }

  // ---- Timely runs: the lock ----

  predicate HoldsLock(s: State, id: nat)
    requires id in s.turns
  {
    s.row.status == Generating && s.holder == Some(id) && s.since == Some(s.turns[id].since)
  }

  // The one live turn holds the lock, unless the session has ended under it.
  predicate LockOk(s: State) {
    && (forall id | id in s.turns && s.turns[id].released :: s.turns[id].phase == Done)
    && (forall id | id in s.turns && IsLive(s, id) :: HoldsLock(s, id) || !IsOpen(s.row.status))
    && (forall a, b | a in s.turns && b in s.turns && IsLive(s, a) && IsLive(s, b) :: a == b)
  }

  lemma {:induction false} AcquireKeepsLock(s: State, id: nat, told: bool)
    requires LockOk(s) && TurnEnabled(s, id, Acquire(told))
    ensures LockOk(TurnNext(s, id, Acquire(told)))
  {
  }

  // A live turn that lets go of the lock is the one that holds it.
  lemma {:induction false} LettingGoKeepsLock(s: State, id: nat, step: TurnStep)
    requires LockOk(s) && TurnEnabled(s, id, step) && (step.Release? || step.Finish?)
    ensures LockOk(TurnNext(s, id, step))
  {
    var s' := TurnNext(s, id, step);
    assert forall k | k in s'.turns && k != id :: k in s.turns && s'.turns[k] == s.turns[k];
    if !s.turns[id].released {
      assert IsLive(s, id);
      assert forall k | k in s.turns && IsLive(s, k) :: k == id;
    }
  }

  lemma {:induction false} TurnKeepsLock(s: State, id: nat, step: TurnStep)
    requires LockOk(s) && TurnEnabled(s, id, step)
    ensures LockOk(TurnNext(s, id, step))
  {
    match step
    case Acquire(told) => AcquireKeepsLock(s, id, told);
    case LoadMessages =>
    case LoadSequence =>
    case Release(applied) => LettingGoKeepsLock(s, id, step);
    case Abort =>
    case Finish(applied) => LettingGoKeepsLock(s, id, step);
    case Crash =>
  }

  // Saving a message touches only the turn that saves it.
  lemma {:induction false} MessageMovesTurn(s: State, id: nat, step: MessageStep)
    requires MessageEnabled(s, id, step)
    ensures var s' := MessageNext(s, id, step);
            && id in s'.turns && s'.turns == s.turns[id := s'.turns[id]]
            && s'.turns[id].since == s.turns[id].since && s'.turns[id].released == s.turns[id].released
  {
    if step.Answer? { AnswerMovesTurn(s, id, step); } else { ReplyStores(s, id, step); }
  }

  lemma {:induction false} MessageKeepsLock(s: State, id: nat, step: MessageStep)
    requires LockOk(s) && MessageEnabled(s, id, step)
    ensures LockOk(MessageNext(s, id, step))
  {
    MessageFrame(s, id, step);
    MessageMovesTurn(s, id, step);
    assert !s.turns[id].released;
    SameLock(s, MessageNext(s, id, step));
  }

  // Nothing changes for the lock unless a turn's hold on it, or the row, does.
  lemma {:induction false} SameLock(s: State, s': State)
    requires LockOk(s) && s'.turns.Keys == s.turns.Keys
    requires forall k | k in s.turns ::
               && s'.turns[k].since == s.turns[k].since && s'.turns[k].released == s.turns[k].released
               && (s'.turns[k].phase == s.turns[k].phase || !s.turns[k].released)
    requires s'.holder == s.holder
    requires (s'.row.status == s.row.status && s'.since == s.since) || !IsOpen(s'.row.status)
    ensures LockOk(s')
  {
    assert forall k | k in s.turns :: IsLive(s', k) == IsLive(s, k);
  }

  lemma {:induction false} RowKeepsLock(s: State, step: RowStep)
    requires LockOk(s) && Timely(s) && RowEnabled(s, step)
    ensures LockOk(RowNext(s, step))
  {
    RowFrame(s, step);
    RowStatus(s, step);
    if step == Recover && IsStale(s) {
      assert forall k | k in s.turns :: !IsLive(s, k);
    } else {
      SameLock(s, RowNext(s, step));
    }
  }

  lemma {:induction false} StepKeepsLock(s: State, step: Step)
    requires LockOk(s) && Timely(s) && Enabled(s, step)
    ensures LockOk(Next(s, step))
  {
    match step
    case OfTurn(id, turn) => TurnKeepsLock(s, id, turn);
    case OfMessage(id, message) => MessageKeepsLock(s, id, message);
    case OfEnd(id, end) => EndFrame(s, id, end);
    case OfJudge(id, judge) => JudgeFrame(s, id, judge);
    case OfRow(row) => RowKeepsLock(s, row);
  }

  // ---- Timely runs: the conversation ----

  // What a live turn has read is still the whole truth.
  predicate UpToDate(s: State, turn: Turn) {
    && (turn.phase in {Loaded, Ready, Replying} ==> turn.messages == s.messages)
    && (turn.phase in {Ready, Replying} ==> turn.sequence == |s.messages|)
    && (turn.phase == Replying ==> s.messages == [] || EndsWithCandidate(s.messages))
  }

  predicate ConversationOk(s: State) {
    && Alternating(s.messages)
    && forall id | id in s.turns && IsLive(s, id) :: UpToDate(s, s.turns[id])
  }

  // Only a live turn writes, and it is the only one.
  lemma {:induction false} WriterIsAlone(s: State, id: nat, step: MessageStep)
    requires LockOk(s) && MessageEnabled(s, id, step)
    ensures IsLive(s, id) && forall k | k in s.turns && IsLive(s, k) :: k == id
  {
  }

  lemma {:induction false} AnswerKeepsConversation(s: State, id: nat, step: MessageStep)
    requires TranscriptOk(s) && LockOk(s) && ConversationOk(s) && MessageEnabled(s, id, step) && step.Answer?
    ensures ConversationOk(MessageNext(s, id, step))
  {
    AnswerStores(s, id, step);
    AnswerMovesTurn(s, id, step);
    WriterIsAlone(s, id, step);
    assert UpToDate(s, s.turns[id]);
    var m := Answered(s, id, step);
    if m.Some? {
      assert TurnFits(s, s.turns[id]);
      InsertIntoGapless(s.messages, m.value);
    }
  }

  lemma {:induction false} ReplyKeepsConversation(s: State, id: nat, step: MessageStep)
    requires TranscriptOk(s) && LockOk(s) && ConversationOk(s) && MessageEnabled(s, id, step) && step.Reply?
    ensures ConversationOk(MessageNext(s, id, step))
  {
    ReplyStores(s, id, step);
    WriterIsAlone(s, id, step);
    assert UpToDate(s, s.turns[id]);
    InsertIntoGapless(s.messages, Message(step.key, s.turns[id].sequence + 1, Interviewer, step.text));
  }

  lemma {:induction false} TurnKeepsConversation(s: State, id: nat, step: TurnStep)
    requires TranscriptOk(s) && ConversationOk(s) && TurnEnabled(s, id, step)
    ensures ConversationOk(TurnNext(s, id, step))
  {
    WritesNothing(s, id, step);
    MaxSeqIsCount(s.messages);
    TurnMoves(s, id, step);
    if id in s.turns && IsLive(s, id) { assert UpToDate(s, s.turns[id]); }
    SameConversation(s, TurnNext(s, id, step), id);
  }

  lemma {:induction false} SameConversation(s: State, s': State, id: nat)
    requires ConversationOk(s) && s'.messages == s.messages
    requires forall k | k in s'.turns && k != id :: k in s.turns && s'.turns[k] == s.turns[k]
    requires id in s'.turns && IsLive(s', id) ==> UpToDate(s, s'.turns[id])
    ensures ConversationOk(s')
  {
    forall k | k in s'.turns && IsLive(s', k) ensures UpToDate(s', s'.turns[k]) {
      assert k != id ==> IsLive(s, k) && UpToDate(s, s.turns[k]);
    }
  }

  lemma {:induction false} StepKeepsConversation(s: State, step: Step)
    requires TranscriptOk(s) && LockOk(s) && ConversationOk(s) && Enabled(s, step)
    ensures ConversationOk(Next(s, step))
  {
    match step
    case OfTurn(id, turn) => TurnKeepsConversation(s, id, turn);
    case OfMessage(id, message) =>
      if message.Answer? { AnswerKeepsConversation(s, id, message); } else { ReplyKeepsConversation(s, id, message); }
    case OfEnd(id, end) => EndFrame(s, id, end);
    case OfJudge(id, judge) => JudgeFrame(s, id, judge);
    case OfRow(row) => RowFrame(s, row);
  }

  // ---- Timely runs: evaluation ----

  predicate InterviewOk(s: State) {
    && (s.enqueued ==> HasCandidate(s.messages))
    && (forall id | id in s.judges && !s.judges[id].Started? :: HasCandidate(s.judges[id].messages))
  }

  lemma {:induction false} CandidateStays(earlier: seq<Message>, messages: seq<Message>)
    requires earlier <= messages && HasCandidate(earlier)
    ensures HasCandidate(messages)
  {
  }

  lemma {:induction false} JudgeKeepsInterview(s: State, id: nat, step: JudgeStep)
    requires StatusOk(s) && InterviewOk(s) && JudgeEnabled(s, id, step)
    ensures InterviewOk(JudgeNext(s, id, step))
  {
  }

  // An end call enqueues an evaluation only after counting two interviewer messages.
  lemma {:induction false} EndKeepsInterview(s: State, id: nat, step: EndStep)
    requires Inv(s) && ConversationOk(s) && InterviewOk(s) && EndEnabled(s, id, step)
    ensures InterviewOk(EndNext(s, id, step))
  {
    EndFrame(s, id, step);
    if InterviewerCount(s.messages) > 1 { TwoTurnsMeanAnInterview(s.messages); }
  }

  lemma {:induction false} RowKeepsInterview(s: State, step: RowStep)
    requires Inv(s) && InterviewOk(s) && RowEnabled(s, step)
    ensures InterviewOk(RowNext(s, step))
  {
    RowFrame(s, step);
    match step
    case Tick(time) =>
    case Recover =>
    case Abandon =>
    case CheckFail =>
    case Fail =>
    case GiveUp =>
    case CheckRetry =>
    case Retry(commit) =>
  }

  lemma {:induction false} StepKeepsInterview(s: State, step: Step)
    requires Inv(s) && ConversationOk(s) && InterviewOk(s) && Enabled(s, step)
    ensures InterviewOk(Next(s, step))
  {
    match step
    case OfTurn(id, turn) => TurnFrame(s, id, turn); WritesNothing(s, id, turn);
    case OfMessage(id, message) =>
      MessageFrame(s, id, message);
      StepKeepsTranscript(s, step);
      if s.enqueued { CandidateStays(s.messages, Next(s, step).messages); }
    case OfEnd(id, end) => EndKeepsInterview(s, id, end);
    case OfJudge(id, judge) => JudgeKeepsInterview(s, id, judge);
    case OfRow(row) => RowKeepsInterview(s, row);
  }

  // ---- Timely runs: main results ----

  predicate TimelyInv(s: State) {
    Inv(s) && LockOk(s) && ConversationOk(s) && InterviewOk(s)
  }

  lemma {:induction false} StepKeepsTimelyInv(s: State, step: Step)
    requires TimelyInv(s) && Timely(s) && Enabled(s, step)
    ensures TimelyInv(Next(s, step))
  {
    StepKeepsInv(s, step);
    StepKeepsLock(s, step);
    StepKeepsInterview(s, step);
    StepKeepsConversation(s, step);
  }

  lemma {:induction false} TimelyRunKeepsInv(s: State, steps: seq<Step>)
    requires TimelyInv(s) && LegalRun(s, steps) && TimelyRun(s, steps)
    ensures TimelyInv(Run(s, steps)) && Timely(Run(s, steps))
    decreases |steps|
  {
    if steps == [] {
    } else {
      StepKeepsTimelyInv(s, steps[0]);
      TimelyRunKeepsInv(Next(s, steps[0]), steps[1..]);
    }
  }

  lemma {:induction false} ReachTimely(s: State, steps: seq<Step>)
    requires Fresh(s) && LegalRun(s, steps) && TimelyRun(s, steps)
    ensures TimelyInv(Run(s, steps)) && Timely(Run(s, steps))
  {
    FreshInv(s);
    TimelyRunKeepsInv(s, steps);
  }

  // If live turns end or crash within five minutes of taking the lock, at most one is
  // live, roles alternate strictly, and whoever is asked to evaluate has an interview.
  lemma {:induction false} MutualExclusion(s: State, steps: seq<Step>)
    requires Fresh(s) && LegalRun(s, steps) && TimelyRun(s, steps)
    ensures var s' := Run(s, steps);
            && (forall a, b | IsLive(s', a) && IsLive(s', b) :: a == b)
            && Alternating(s'.messages)
            && (s'.enqueued ==> HasCandidate(s'.messages))
            && (forall id | id in s'.judges && s'.judges[id].Collected? :: s'.judges[id].messages != [])
  {
    ReachTimely(s, steps);
    var s' := Run(s, steps);
    forall id | id in s'.judges && s'.judges[id].Collected? ensures s'.judges[id].messages != [] {
      assert HasCandidate(s'.judges[id].messages);
    }
  }

  // No release, early or deferred, frees a lock that another turn has taken.
  lemma {:induction false} ReleasesFreeOwnLock(s: State, steps: seq<Step>, id: nat, step: TurnStep)
    requires Fresh(s) && LegalRun(s, steps) && TimelyRun(s, steps)
    requires TurnEnabled(Run(s, steps), id, step) && (step.Release? || step.Finish?)
    requires TurnNext(Run(s, steps), id, step).row != Run(s, steps).row
    ensures var s' := Run(s, steps);
            s'.holder == Some(id) && s'.since == Some(s'.turns[id].since)
  {
    ReachTimely(s, steps);
    var s' := Run(s, steps);
    assert IsLive(s', id);
  }

  // An end call whose poll succeeds on an open session finds no turn at work.
  lemma {:induction false} PollFindsNoTurn(s: State, steps: seq<Step>, id: nat)
    requires Fresh(s) && LegalRun(s, steps) && TimelyRun(s, steps)
    requires EndEnabled(Run(s, steps), id, Poll) && IsOpen(Run(s, steps).row.status)
    ensures forall k :: !IsLive(Run(s, steps), k)
  {
    ReachTimely(s, steps);
    var s' := Run(s, steps);
    forall k ensures !IsLive(s', k) { assert IsLive(s', k) ==> HoldsLock(s', k); }
  }

  // A turn that asks the LLM sends the whole transcript.
  lemma {:induction false} AsksWholeTranscript(s: State, steps: seq<Step>, id: nat, step: MessageStep)
    requires Fresh(s) && LegalRun(s, steps) && TimelyRun(s, steps)
    requires MessageEnabled(Run(s, steps), id, step) && step.Answer?
    ensures var s' := Run(s, steps);
            var s'' := MessageNext(s', id, step);
            || (s''.turns == s'.turns[id := s'.turns[id].(phase := Done)] && s''.prompts == s'.prompts)
            || (AtPhase(s'', id, Replying) && s''.prompts == s'.prompts + [Prompt(s''.messages)])
  {
    ReachTimely(s, steps);
    var s' := Run(s, steps);
    WriterIsAlone(s', id, step);
    assert UpToDate(s', s'.turns[id]);
    AnswerStores(s', id, step);
    AnswerMovesTurn(s', id, step);
    var m := Answered(s', id, step);
    if m.Some? { InsertIntoGapless(s'.messages, m.value); }
  }

  // The assumption is needed: whenever a turn that still holds the lock is older than
  // five minutes, a recovery and one more request make two live turns.
  lemma {:induction false} OverstayBreaksExclusion(s: State, id: nat, other: nat)
    requires IsLive(s, id) && HoldsLock(s, id) && s.now - s.turns[id].since > 5 * 60_000_000 && other !in s.turns
    ensures var steps := [OfRow(Recover), OfTurn(other, Acquire(true))];
            && LegalRun(s, steps)
            && other != id && IsLive(Run(s, steps), id) && IsLive(Run(s, steps), other)
  {
    var recover, acquire := OfRow(Recover), OfTurn(other, Acquire(true));
    RunSnoc(s, [], recover);
    assert [] + [recover] == [recover];
    RunSnoc(s, [recover], acquire);
    assert [recover] + [acquire] == [recover, acquire];
  }

  // ---- A turn that nothing disturbs ----

  lemma {:induction false} RunSnoc(s: State, steps: seq<Step>, step: Step)
    requires LegalRun(s, steps) && Enabled(Run(s, steps), step)
    ensures LegalRun(s, steps + [step]) && Run(s, steps + [step]) == Next(Run(s, steps), step)
    decreases |steps|
  {
    if steps == [] {
      assert [] + [step] == [step] && [step][1..] == [];
      assert LegalRun(Next(s, step), []);
    } else {
      assert (steps + [step])[1..] == steps[1..] + [step];
      RunSnoc(Next(s, steps[0]), steps[1..], step);
    }
  }

  lemma {:induction false} RunSplit(s: State, first: seq<Step>, rest: seq<Step>)
    requires LegalRun(s, first) && LegalRun(Run(s, first), rest)
    ensures LegalRun(s, first + rest) && Run(s, first + rest) == Run(Run(s, first), rest)
    decreases |first|
  {
    if first == [] {
      assert [] + rest == rest;
    } else {
      assert (first + rest)[1..] == first[1..] + rest;
      RunSplit(Next(s, first[0]), first[1..], rest);
    }
  }

  function Loading(id: nat): seq<Step> {
    [OfTurn(id, Acquire(true)), OfTurn(id, LoadMessages), OfTurn(id, LoadSequence)]
  }

  function Asking(id: nat, input: Input, m1: nat): seq<Step> {
    Loading(id) + [OfMessage(id, Answer(input, m1, true, true))]
  }

  function Delivering(id: nat, text: string, m2: nat): seq<Step> {
    [OfMessage(id, Reply(text, m2, true, true))] + [OfTurn(id, Release(true)), OfTurn(id, Finish(true))]
  }

  function TurnSteps(id: nat, input: Input, m1: nat, text: string, m2: nat): seq<Step> {
    Asking(id, input, m1) + Delivering(id, text, m2)
  }

  // The transcript the LLM is asked with, and the one with its reply.
  function Asked(messages: seq<Message>, input: Input, m1: nat): seq<Message>
    requires SkipsInput(messages, input) || CandidateContent(input).Content?
  {
    if SkipsInput(messages, input) then messages
    else messages + [Message(m1, |messages| + 1, Candidate, CandidateContent(input).text)]
  }

  function Replied(messages: seq<Message>, text: string, m2: nat): seq<Message> {
    messages + [Message(m2, |messages| + 1, Interviewer, text)]
  }

  lemma {:induction false} Loads(s: State, id: nat)
    requires Gapless(s.messages) && s.row.status == Active && id !in s.turns
    ensures LegalRun(s, Loading(id))
    ensures Run(s, Loading(id)) == AcquireLock(s).(
              turns := s.turns[id := Turn(s.now, Ready, s.messages, |s.messages|, false)], holder := Some(id))
  {
    var a, b, c := OfTurn(id, Acquire(true)), OfTurn(id, LoadMessages), OfTurn(id, LoadSequence);
    MaxSeqIsCount(s.messages);
    RunSnoc(s, [], a);
    assert [] + [a] == [a];
    RunSnoc(s, [a], b);
    assert [a] + [b] == [a, b];
    RunSnoc(s, [a, b], c);
    assert [a, b] + [c] == Loading(id);
  }

  lemma {:induction false} AnswerToReady(s: State, id: nat, input: Input, m1: nat)
    requires Gapless(s.messages) && AtPhase(s, id, Ready)
    requires s.turns[id].messages == s.messages && s.turns[id].sequence == |s.messages|
    requires SkipsInput(s.messages, input) || CandidateContent(input).Content?
    ensures var s' := MessageNext(s, id, Answer(input, m1, true, true));
            var asked := Asked(s.messages, input, m1);
            && s'.messages == asked
            && s'.prompts == s.prompts + [Prompt(asked)]
            && s'.turns == s.turns[id := s.turns[id].(phase := Replying, messages := asked, sequence := |asked|)]
            && s'.row == s.row.(spoken := s'.row.spoken)
  {
  }

  lemma {:induction false} Asks(s: State, id: nat, input: Input, m1: nat)
    requires Gapless(s.messages) && s.row.status == Active && id !in s.turns
    requires SkipsInput(s.messages, input) || CandidateContent(input).Content?
    ensures LegalRun(s, Asking(id, input, m1))
    ensures var s' := Run(s, Asking(id, input, m1));
            var asked := Asked(s.messages, input, m1);
            && s'.messages == asked
            && s'.prompts == s.prompts + [Prompt(asked)]
            && s'.turns == s.turns[id := Turn(s.now, Replying, asked, |asked|, false)]
            && s'.row == s.row.(status := Generating, spoken := s'.row.spoken)
  {
    Loads(s, id);
    AnswerToReady(Run(s, Loading(id)), id, input, m1);
    RunSnoc(s, Loading(id), OfMessage(id, Answer(input, m1, true, true)));
  }

  lemma {:induction false} ReplySaved(s: State, id: nat, text: string, m2: nat)
    requires Gapless(s.messages) && AtPhase(s, id, Replying) && s.turns[id].sequence == |s.messages|
    ensures var s' := MessageNext(s, id, Reply(text, m2, true, true));
            && s'.messages == Replied(s.messages, text, m2)
            && s'.row == s.row && s'.prompts == s.prompts
            && s'.turns == s.turns[id := s.turns[id].(phase := Saved)]
  {
  }

  lemma {:induction false} LockHandedBack(s: State, id: nat)
    requires AtPhase(s, id, Saved) && s.row.status == Generating
    ensures LegalRun(s, [OfTurn(id, Release(true)), OfTurn(id, Finish(true))])
    ensures var s' := Run(s, [OfTurn(id, Release(true)), OfTurn(id, Finish(true))]);
            && s'.messages == s.messages && s'.prompts == s.prompts
            && s'.row == s.row.(status := Active) && s'.since == None && s'.turns == s.turns - {id}
  {
    var e, f := OfTurn(id, Release(true)), OfTurn(id, Finish(true));
    var s1 := TurnNext(s, id, Release(true));
    assert s1.turns - {id} == s.turns - {id};
    RunSnoc(s, [], e);
    assert [] + [e] == [e];
    RunSnoc(s, [e], f);
    assert [e] + [f] == [e, f];
  }

  lemma {:induction false} Delivers(s: State, id: nat, text: string, m2: nat)
    requires Gapless(s.messages) && AtPhase(s, id, Replying)
    requires s.turns[id].sequence == |s.messages| && s.row.status == Generating
    ensures LegalRun(s, Delivering(id, text, m2))
    ensures var s' := Run(s, Delivering(id, text, m2));
            && s'.messages == Replied(s.messages, text, m2)
            && s'.row == s.row.(status := Active) && s'.since == None
            && s'.turns == s.turns - {id} && s'.prompts == s.prompts
  {
    var reply := OfMessage(id, Reply(text, m2, true, true));
    ReplySaved(s, id, text, m2);
    LockHandedBack(Next(s, reply), id);
    RunSnoc(s, [], reply);
    assert [] + [reply] == [reply];
    RunSplit(s, [reply], [OfTurn(id, Release(true)), OfTurn(id, Finish(true))]);
    assert Next(s, reply).turns - {id} == s.turns - {id};
  }

  // A turn on an active session with a usable input asks the LLM with the whole
  // transcript, appends exactly the exchange, and hands the session back.
  lemma {:induction false} UndisturbedTurn(s: State, id: nat, input: Input, m1: nat, text: string, m2: nat)
    requires Gapless(s.messages) && s.row.status == Active && id !in s.turns
    requires SkipsInput(s.messages, input) || CandidateContent(input).Content?
    ensures LegalRun(s, TurnSteps(id, input, m1, text, m2))
    ensures var s' := Run(s, TurnSteps(id, input, m1, text, m2));
            var asked := Asked(s.messages, input, m1);
            && s'.messages == Replied(asked, text, m2)
            && s'.prompts == s.prompts + [Prompt(asked)]
            && s'.row == s.row.(spoken := s'.row.spoken) && s'.since == None && s'.turns == s.turns
  {
    var asking := Asking(id, input, m1);
    Asks(s, id, input, m1);
    var s1 := Run(s, asking);
    Delivers(s1, id, text, m2);
    RunSplit(s, asking, Delivering(id, text, m2));
    assert s1.turns - {id} == s.turns;
  }

  lemma {:induction false} Recovers(s: State, wait: nat)
    requires Inv(s) && s.row.status == Generating && s.since.value < s.now + wait - STALE
    ensures LegalRun(s, [OfRow(Tick(wait)), OfRow(Recover)])
    ensures var s' := Run(s, [OfRow(Tick(wait)), OfRow(Recover)]);
            && Inv(s') && s'.row.status == Active && s'.messages == s.messages && s'.turns == s.turns
            && s'.prompts == s.prompts
  {
    var tick, recover := OfRow(Tick(wait)), OfRow(Recover);
    StepKeepsInv(s, tick);
    StepKeepsInv(Next(s, tick), recover);
    RunSnoc(s, [], tick);
    assert [] + [tick] == [tick];
    RunSnoc(s, [tick], recover);
    assert [tick] + [recover] == [tick, recover];
  }

  // A turn that crashed between the answer and the reply costs nothing: once the lock is
  // stale, recovery frees it, and the next turn, whatever its input, replies to the
  // stored answer.
  lemma {:induction false} CrashLosesNothing(s: State, id: nat, input: Input, m1: nat, text: string, m2: nat, wait: nat)
    requires Inv(s) && s.row.status == Generating && s.turns == map[] && EndsWithCandidate(s.messages)
    requires s.since.value < s.now + wait - STALE
    ensures var steps := [OfRow(Tick(wait)), OfRow(Recover)] + TurnSteps(id, input, m1, text, m2);
            && LegalRun(s, steps)
            && var s' := Run(s, steps);
               && s'.messages == Replied(s.messages, text, m2)
               && s'.prompts == s.prompts + [Prompt(s.messages)]
               && s'.row.status == Active && s'.turns == map[]
  {
    Recovers(s, wait);
    var s1 := Run(s, [OfRow(Tick(wait)), OfRow(Recover)]);
    UndisturbedTurn(s1, id, input, m1, text, m2);
    RunSplit(s, [OfRow(Tick(wait)), OfRow(Recover)], TurnSteps(id, input, m1, text, m2));
  }

  // The same from the start: a turn that stores its answer and crashes while the LLM is
  // asked; five minutes on the next turn replies to that answer.
  lemma {:induction false} CrashedTurnIsResumed(s: State, id: nat, input: Input, m1: nat, next: nat, other: Input,
                                                m: nat, text: string, m2: nat, wait: nat)
    requires Inv(s) && s.row.status == Active && s.turns == map[] && wait > 5 * 60_000_000
    requires CandidateContent(input).Content? && !SkipsInput(s.messages, input)
    ensures var first := Asking(id, input, m1) + [OfTurn(id, Crash)];
            var later := [OfRow(Tick(wait)), OfRow(Recover)] + TurnSteps(next, other, m, text, m2);
            && LegalRun(s, first + later)
            && var s' := Run(s, first + later);
               && s'.messages == Replied(Asked(s.messages, input, m1), text, m2)
               && s'.row.status == Active && s'.turns == map[]
  {
    var asking, crash := Asking(id, input, m1), OfTurn(id, Crash);
    Asks(s, id, input, m1);
    RunKeepsInv(s, asking);
    var s1 := Run(s, asking);
    SinceAsking(s, id, input, m1);
    RunSnoc(s, asking, crash);
    StepKeepsInv(s1, crash);
    var s2 := Next(s1, crash);
    assert s2.turns == map[];
    CrashLosesNothing(s2, next, other, m, text, m2, wait);
    RunSplit(s, asking + [crash], [OfRow(Tick(wait)), OfRow(Recover)] + TurnSteps(next, other, m, text, m2));
  }

  lemma {:induction false} SinceAsking(s: State, id: nat, input: Input, m1: nat)
    requires Gapless(s.messages) && s.row.status == Active && id !in s.turns
    requires SkipsInput(s.messages, input) || CandidateContent(input).Content?
    requires LegalRun(s, Asking(id, input, m1))
    ensures var s' := Run(s, Asking(id, input, m1)); s'.since == Some(s.now) && s'.now == s.now
  {
    Loads(s, id);
    AnswerToReady(Run(s, Loading(id)), id, input, m1);
    MessageFrame(Run(s, Loading(id)), id, Answer(input, m1, true, true));
    RunSnoc(s, Loading(id), OfMessage(id, Answer(input, m1, true, true)));
  }

  // ---- An attempt and an end call that nothing disturbs ----

  lemma {:induction false} RunOfFour(s: State, a: Step, b: Step, c: Step, d: Step)
    requires Enabled(s, a) && Enabled(Next(s, a), b) && Enabled(Next(Next(s, a), b), c)
    requires Enabled(Next(Next(Next(s, a), b), c), d)
    ensures LegalRun(s, [a, b, c, d]) && Run(s, [a, b, c, d]) == Next(Next(Next(Next(s, a), b), c), d)
  {
    RunSnoc(s, [], a);
    assert [] + [a] == [a];
    RunSnoc(s, [a], b);
    assert [a] + [b] == [a, b];
    RunSnoc(s, [a, b], c);
    assert [a, b] + [c] == [a, b, c];
    RunSnoc(s, [a, b, c], d);
    assert [a, b, c] + [d] == [a, b, c, d];
  }

  function Attempt(id: nat, raw: RawInput): seq<Step> {
    [OfJudge(id, Start), OfJudge(id, Collect), OfJudge(id, Mark), OfJudge(id, Commit(raw, true))]
  }

  // The first attempt that gets an acceptable verdict stores it and marks the session
  // reviewed; any other leaves the session evaluating, without an evaluation.
  lemma {:induction false} UndisturbedAttempt(s: State, id: nat, raw: RawInput)
    requires s.enqueued && s.evaluation.None? && s.messages != [] && id !in s.judges
    ensures var steps := Attempt(id, raw);
            && LegalRun(s, steps)
            && var s' := Run(s, steps);
               && s'.evaluation == Evaluated(raw, s.messages)
               && s'.row == s.row.(status := if s'.evaluation.Some? then Reviewed else Evaluating)
               && s'.messages == s.messages && s'.judges == s.judges
  {
    var s1 := JudgeNext(s, id, Start);
    var s2 := JudgeNext(s1, id, Collect);
    var s3 := JudgeNext(s2, id, Mark);
    assert s2.judges[id] == Collected(s.messages) && s3.judges[id] == Judging(s.messages);
    var s4 := JudgeNext(s3, id, Commit(raw, true));
    assert s4.judges == s.judges;
    RunOfFour(s, OfJudge(id, Start), OfJudge(id, Collect), OfJudge(id, Mark), OfJudge(id, Commit(raw, true)));
  }

  // An end call on a session no turn is at work on records the interviewer's messages as
  // the turn count, and asks for an evaluation when it completes one with several.
  lemma {:induction false} UndisturbedEnd(s: State, id: nat, cancel: bool)
    requires s.row.status != Generating && id !in s.ends
    ensures var steps := [OfEnd(id, Poll), OfEnd(id, CountTurns), OfEnd(id, Write(cancel, true))];
            && LegalRun(s, steps)
            && var s' := Run(s, steps);
               && s'.row == s.row.(status := if cancel then Cancelled else Completed, ended := Some(s.now),
                                   turnCount := InterviewerCount(s.messages), archived := s.row.archived || cancel)
               && s'.enqueued == (s.enqueued || (!cancel && InterviewerCount(s.messages) > 1))
               && s'.messages == s.messages && s'.turns == s.turns && s'.ends == s.ends
  {
    var a, b, c := OfEnd(id, Poll), OfEnd(id, CountTurns), OfEnd(id, Write(cancel, true));
    var s1 := EndNext(s, id, Poll);
    var s2 := EndNext(s1, id, CountTurns);
    assert s2.ends - {id} == s.ends;
    RunSnoc(s, [], a);
    assert [] + [a] == [a];
    RunSnoc(s, [a], b);
    assert [a] + [b] == [a, b];
    RunSnoc(s, [a, b], c);
    assert [a, b] + [c] == [a, b, c];
  }

  // One without messages has nothing to judge, and one without a verdict leaves the session
  // evaluating; both are gone afterwards.
  lemma {:induction false} FruitlessAttempt(s: State, id: nat)
    requires s.enqueued && s.evaluation.None? && id !in s.judges
    ensures var steps := [OfJudge(id, Start), OfJudge(id, Collect), OfJudge(id, Mark)]
                         + if s.messages == [] then [] else [OfJudge(id, Drop)];
            && LegalRun(s, steps)
            && Run(s, steps) == s.(row := s.row.(status := if s.messages == [] then EvaluationFailed else Evaluating))
  {
    var a, b, c := OfJudge(id, Start), OfJudge(id, Collect), OfJudge(id, Mark);
    var s1 := JudgeNext(s, id, Start);
    var s2 := JudgeNext(s1, id, Collect);
    var s3 := JudgeNext(s2, id, Mark);
    assert s2.judges[id] == Collected(s.messages);
    if s.messages == [] {
      assert s3.judges == s.judges;
      RunOfThree(s, a, b, c);
      assert [a, b, c] + [] == [a, b, c];
    } else {
      assert s3.judges[id] == Judging(s.messages) && JudgeNext(s3, id, Drop).judges == s.judges;
      RunOfFour(s, a, b, c, OfJudge(id, Drop));
      assert [a, b, c] + [OfJudge(id, Drop)] == [a, b, c, OfJudge(id, Drop)];
    }
  }

  lemma {:induction false} RunOfThree(s: State, a: Step, b: Step, c: Step)
    requires Enabled(s, a) && Enabled(Next(s, a), b) && Enabled(Next(Next(s, a), b), c)
    ensures LegalRun(s, [a, b, c]) && Run(s, [a, b, c]) == Next(Next(Next(s, a), b), c)
  {
    RunSnoc(s, [], a);
    assert [] + [a] == [a];
    RunSnoc(s, [a], b);
    assert [a] + [b] == [a, b];
    RunSnoc(s, [a, b], c);
    assert [a, b] + [c] == [a, b, c];
  }

  // An abandoned session in which the candidate spoke is completed and evaluated: clean-up
  // and one attempt with an acceptable verdict make it a reviewed one.
  lemma {:induction false} AbandonedIsReviewed(s: State, id: nat, raw: RawInput)
    requires s.row.status == Active && s.now - s.row.started > (s.row.duration + 5) * 60_000_000 && s.row.spoken
    requires s.evaluation.None? && s.messages != [] && id !in s.judges && Evaluated(raw, s.messages).Some?
    ensures var steps := [OfRow(Abandon)] + Attempt(id, raw);
            && LegalRun(s, steps)
            && var s' := Run(s, steps);
               && s'.row == s.row.(status := Reviewed, ended := Some(s.now))
               && s'.evaluation == Evaluated(raw, s.messages)
  {
    var s1 := Next(s, OfRow(Abandon));
    UndisturbedAttempt(s1, id, raw);
    RunSnoc(s, [], OfRow(Abandon));
    assert [] + [OfRow(Abandon)] == [OfRow(Abandon)];
    RunSplit(s, [OfRow(Abandon)], Attempt(id, raw));
  }

  // A session whose evaluation has failed can be retried, and the next attempt with an
  // acceptable verdict makes it a reviewed one.
  lemma {:induction false} RetriedIsReviewed(s: State, id: nat, raw: RawInput)
    requires s.row.status == EvaluationFailed && s.evaluation.None? && s.messages != [] && id !in s.judges
    requires Evaluated(raw, s.messages).Some?
    ensures var steps := [OfRow(CheckRetry), OfRow(Retry(true))] + Attempt(id, raw);
            && LegalRun(s, steps)
            && var s' := Run(s, steps);
               s'.row == s.row.(status := Reviewed) && s'.evaluation == Evaluated(raw, s.messages)
  {
    RunSnoc(s, [], OfRow(CheckRetry));
    assert [] + [OfRow(CheckRetry)] == [OfRow(CheckRetry)];
    RunSnoc(s, [OfRow(CheckRetry)], OfRow(Retry(true)));
    assert [OfRow(CheckRetry)] + [OfRow(Retry(true))] == [OfRow(CheckRetry), OfRow(Retry(true))];
    var retry := [OfRow(CheckRetry), OfRow(Retry(true))];
    UndisturbedAttempt(Run(s, retry), id, raw);
    RunSplit(s, retry, Attempt(id, raw));
  }

  // The last attempt fails the evaluation, from which it can be retried.
  lemma {:induction false} GivenUpIsReviewed(s: State, id: nat, raw: RawInput)
    requires s.enqueued && s.evaluation.None? && s.messages != [] && id !in s.judges && Evaluated(raw, s.messages).Some?
    ensures var steps := [OfRow(GiveUp)] + ([OfRow(CheckRetry), OfRow(Retry(true))] + Attempt(id, raw));
            LegalRun(s, steps) && Run(s, steps).row == s.row.(status := Reviewed)
  {
    var s1 := Next(s, OfRow(GiveUp));
    RetriedIsReviewed(s1, id, raw);
    RunSnoc(s, [], OfRow(GiveUp));
    assert [] + [OfRow(GiveUp)] == [OfRow(GiveUp)];
    RunSplit(s, [OfRow(GiveUp)], [OfRow(CheckRetry), OfRow(Retry(true))] + Attempt(id, raw));
  }

  // FailSession goes through exactly on an active session; it marks it as failed and is gone.
  lemma {:induction false} UndisturbedFail(s: State)
    ensures LegalRun(s, [OfRow(CheckFail), OfRow(Fail)]) <==> s.row.status == Active
    ensures s.row.status == Active ==>
              Run(s, [OfRow(CheckFail), OfRow(Fail)]) == s.(row := s.row.(status := Failed))
  {
    if s.row.status == Active {
      RunSnoc(s, [], OfRow(CheckFail));
      assert [] + [OfRow(CheckFail)] == [OfRow(CheckFail)];
      RunSnoc(s, [OfRow(CheckFail)], OfRow(Fail));
      assert [OfRow(CheckFail)] + [OfRow(Fail)] == [OfRow(CheckFail), OfRow(Fail)];
    }
  }
}
