/** What every step of a session keeps. The first part holds of every run; the second,
    under `SessionMachine.Timely`. */
module SessionInvariants {
  import opened Options
  import opened Splitter
  import opened Sessions
  import opened Transcript
  import opened Evaluation
  import opened SessionMachine

  // ---- Without any assumption ----

  // Numbers 1..n, no blank answers, and no turn counts past the end.
  predicate TranscriptOk(s: State) {
    && Gapless(s.messages)
    && (s.row.spoken <==> HasCandidate(s.messages))
    && (forall i | 0 <= i < |s.messages| && s.messages[i].role == Candidate :: !AllSpace(s.messages[i].content))
    && (forall id | id in s.turns :: TurnFits(s, s.turns[id]))
  }

  predicate TurnFits(s: State, turn: Turn) {
    turn.phase in {Ready, Replying} ==> 0 <= turn.sequence <= |s.messages|
  }

  // Every prompt is non-empty and ends with the user.
  predicate PromptsOk(s: State) {
    forall i | 0 <= i < |s.prompts| :: Answerable(s.prompts[i])
  }

  // A reviewed session has an evaluation, and an evaluation is sound.
  predicate EvaluationOk(s: State) {
    && (s.row.status == Reviewed ==> s.evaluation.Some?)
    && (s.evaluation.Some? ==> Sound(s.evaluation.value, s.messages))
    && (forall id | id in s.judges && !s.judges[id].Started? :: s.judges[id].messages <= s.messages)
  }

  // Evaluation jobs exist only for sessions that have ended.
  predicate StatusOk(s: State) {
    && (s.row.status == Generating ==> s.since.Some?) && (s.row.status == Active ==> s.since.None?)
    && (s.enqueued ==> !IsOpen(s.row.status))
    && (s.row.status in {Evaluating, Reviewed, EvaluationFailed} ==> s.enqueued)
    && (s.judges != map[] ==> s.enqueued)
    && (s.retrying > 0 ==> s.enqueued)
  }

  predicate CountsOk(s: State) {
    && s.row.turnCount <= InterviewerCount(s.messages)
    && forall id | id in s.ends && s.ends[id].Some? :: s.ends[id].value <= InterviewerCount(s.messages)
  }

  predicate Inv(s: State) {
    TranscriptOk(s) && PromptsOk(s) && EvaluationOk(s) && StatusOk(s) && CountsOk(s)
  }

  // ---- Messages ----

  lemma {:induction false} StoreAppends(s: State, m: Message)
    requires TranscriptOk(s) && 1 <= m.number <= |s.messages| + 1 && Insert(s.messages, m).Some?
    requires m.role == Candidate ==> !AllSpace(m.content)
    ensures Store(s, m).messages == s.messages + [m] && m.number == |s.messages| + 1
    ensures TranscriptOk(Store(s, m))
  {
    InsertIntoGapless(s.messages, m);
    var after := s.messages + [m];
    assert HasCandidate(after) <==> HasCandidate(s.messages) || m.role == Candidate by {
      assert after[|s.messages|] == m;
      if HasCandidate(s.messages) {
        var i :| 0 <= i < |s.messages| && s.messages[i].role == Candidate;
        assert after[i].role == Candidate;
      }
    }
  }

  // ---- What the steps leave alone ----

  lemma {:induction false} TurnFrame(s: State, id: nat, step: TurnStep)
    requires TurnEnabled(s, id, step)
    ensures var s' := TurnNext(s, id, step);
            && s'.ends == s.ends && s'.judges == s.judges && s'.evaluation == s.evaluation
            && s'.enqueued == s.enqueued && s'.retrying == s.retrying && s'.now == s.now
            && s'.row.turnCount == s.row.turnCount
  {
    match step
    case Acquire(told) =>
    case LoadMessages =>
    case LoadSequence =>
    case Release(applied) =>
    case Abort =>
    case Finish(applied) =>
    case Crash =>
  }

  lemma {:induction false} TurnStatus(s: State, id: nat, step: TurnStep)
    requires TurnEnabled(s, id, step)
    ensures var s' := TurnNext(s, id, step);
            s'.row.status == s.row.status || (IsOpen(s.row.status) && IsOpen(s'.row.status))
  {
    match step
    case Acquire(told) =>
    case LoadMessages =>
    case LoadSequence =>
    case Release(applied) =>
    case Abort =>
    case Finish(applied) =>
    case Crash =>
  }

  lemma {:induction false} CandidateFrame(s: State, id: nat, m: Message, stored: bool, told: bool)
    requires id in s.turns
    ensures var s' := CandidateNext(s, id, m, stored, told);
            && s'.ends == s.ends && s'.judges == s.judges && s'.evaluation == s.evaluation
            && s'.enqueued == s.enqueued && s'.retrying == s.retrying
            && s'.row.status == s.row.status && s'.row.turnCount == s.row.turnCount
            && s'.since == s.since && s'.holder == s.holder && s'.now == s.now
  {
  }

  lemma {:induction false} ReplyFrame(s: State, id: nat, text: string, key: nat, stored: bool, told: bool)
    requires id in s.turns
    ensures var s' := ReplyNext(s, id, text, key, stored, told);
            && s'.ends == s.ends && s'.judges == s.judges && s'.evaluation == s.evaluation
            && s'.enqueued == s.enqueued && s'.retrying == s.retrying
            && s'.row.status == s.row.status && s'.row.turnCount == s.row.turnCount
            && s'.since == s.since && s'.holder == s.holder && s'.now == s.now
  {
  }

  lemma {:induction false} AnswerFrame(s: State, id: nat, input: Input, key: nat, stored: bool, told: bool)
    requires id in s.turns
    ensures var s' := AnswerNext(s, id, input, key, stored, told);
            && s'.ends == s.ends && s'.judges == s.judges && s'.evaluation == s.evaluation
            && s'.enqueued == s.enqueued && s'.retrying == s.retrying
            && s'.row.status == s.row.status && s'.row.turnCount == s.row.turnCount
            && s'.since == s.since && s'.holder == s.holder && s'.now == s.now
  {
    var turn := s.turns[id];
    if SkipsInput(turn.messages, input) {
    } else if CandidateContent(input).Refused? {
    } else {
      var m := Message(key, turn.sequence + 1, Candidate, CandidateContent(input).text);
      CandidateFrame(s, id, m, stored, told);
      assert AnswerNext(s, id, input, key, stored, told) == CandidateNext(s, id, m, stored, told);
    }
  }

  lemma {:induction false} MessageFrame(s: State, id: nat, step: MessageStep)
    requires MessageEnabled(s, id, step)
    ensures var s' := MessageNext(s, id, step);
            && s'.ends == s.ends && s'.judges == s.judges && s'.evaluation == s.evaluation
            && s'.enqueued == s.enqueued && s'.retrying == s.retrying
            && s'.row.status == s.row.status && s'.row.turnCount == s.row.turnCount
            && s'.since == s.since && s'.holder == s.holder && s'.now == s.now
  {
    match step
    case Answer(input, key, stored, told) => AnswerFrame(s, id, input, key, stored, told);
    case Reply(text, key, stored, told) => ReplyFrame(s, id, text, key, stored, told);
  }

  lemma {:induction false} EndFrame(s: State, id: nat, step: EndStep)
    requires EndEnabled(s, id, step)
    ensures var s' := EndNext(s, id, step);
            && s'.turns == s.turns && s'.judges == s.judges && s'.evaluation == s.evaluation
            && s'.messages == s.messages && s'.prompts == s.prompts && s'.row.spoken == s.row.spoken
            && s'.holder == s.holder && s'.since == s.since && s'.now == s.now && s'.retrying == s.retrying
            && (s'.row.status == s.row.status || (step.Write? && s'.row.status in {Completed, Cancelled}))
  {
    match step
    case Poll =>
    case CountTurns =>
    case Write(cancel, commit) =>
  }

  lemma {:induction false} JudgeFrame(s: State, id: nat, step: JudgeStep)
    requires JudgeEnabled(s, id, step)
    ensures var s' := JudgeNext(s, id, step);
            && s'.turns == s.turns && s'.ends == s.ends && s'.enqueued == s.enqueued
            && s'.messages == s.messages && s'.prompts == s.prompts
            && s'.row.spoken == s.row.spoken && s'.row.turnCount == s.row.turnCount
            && s'.holder == s.holder && s'.since == s.since && s'.now == s.now && s'.retrying == s.retrying
            && (s'.row.status == s.row.status || s'.row.status in {Evaluating, Reviewed, EvaluationFailed})
  {
    match step
    case Start =>
    case Collect =>
    case Mark =>
    case Commit(raw, commit) =>
    case Drop =>
  }

  lemma {:induction false} RowFrame(s: State, step: RowStep)
    requires RowEnabled(s, step)
    ensures var s' := RowNext(s, step);
            && s'.turns == s.turns && s'.ends == s.ends && s'.judges == s.judges && s'.evaluation == s.evaluation
            && s'.messages == s.messages && s'.prompts == s.prompts && s'.holder == s.holder
            && s'.row.spoken == s.row.spoken && s'.row.turnCount == s.row.turnCount
  {
    match step
    case Tick(time) =>
    case Recover =>
    case Abandon =>
    case CheckFail =>
    case Fail =>
    case GiveUp =>
    case CheckRetry =>
    case Retry(commit) =>
  }

  lemma {:induction false} RowStatus(s: State, step: RowStep)
    requires RowEnabled(s, step)
    ensures var s' := RowNext(s, step);
            || (s'.row.status == s.row.status && s'.since == s.since)
            || (step == Recover && IsStale(s) && s'.row.status == Active)
            || !IsOpen(s'.row.status)
  {
    match step
    case Tick(time) =>
    case Recover =>
    case Abandon =>
    case CheckFail =>
    case Fail =>
    case GiveUp =>
    case CheckRetry =>
    case Retry(commit) =>
  }

  // Messages change only where a turn writes.
  lemma {:induction false} WritesNothing(s: State, id: nat, step: TurnStep)
    requires TurnEnabled(s, id, step)
    ensures var s' := TurnNext(s, id, step);
            s'.messages == s.messages && s'.row.spoken == s.row.spoken && s'.prompts == s.prompts
  {
    match step
    case Acquire(told) =>
    case LoadMessages =>
    case LoadSequence =>
    case Release(applied) =>
    case Abort =>
    case Finish(applied) =>
    case Crash =>
  }

  // ---- Answers ----

  // The message an answer adds.
  function Answered(s: State, id: nat, step: MessageStep): Option<Message>
    requires MessageEnabled(s, id, step) && step.Answer?
  {
    var turn := s.turns[id];
    if SkipsInput(turn.messages, step.input) || CandidateContent(step.input).Refused? then None
    else
      var m := Message(step.key, turn.sequence + 1, Candidate, CandidateContent(step.input).text);
      if step.stored && Insert(s.messages, m).Some? then Some(m) else None
  }

  lemma {:induction false} AnswerStores(s: State, id: nat, step: MessageStep)
    requires MessageEnabled(s, id, step) && step.Answer?
    ensures var m := Answered(s, id, step);
            var s1 := if m.Some? then Store(s, m.value) else s;
            var s' := MessageNext(s, id, step);
            s'.messages == s1.messages && s'.row == s1.row && s'.since == s.since && s'.holder == s.holder
  {
    var turn := s.turns[id];
    if SkipsInput(turn.messages, step.input) {
    } else if CandidateContent(step.input).Refused? {
    } else {
      var m := Message(step.key, turn.sequence + 1, Candidate, CandidateContent(step.input).text);
      assert MessageNext(s, id, step) == CandidateNext(s, id, m, step.stored, step.told);
    }
  }

  lemma {:induction false} AnswerMovesTurn(s: State, id: nat, step: MessageStep)
    requires MessageEnabled(s, id, step) && step.Answer?
    ensures var m := Answered(s, id, step);
            var turn := s.turns[id];
            var turn' := if m.Some? then turn.(messages := turn.messages + [m.value], sequence := turn.sequence + 1)
                         else turn;
            var s' := MessageNext(s, id, step);
            || (s'.turns == s.turns[id := turn.(phase := Done)] && s'.prompts == s.prompts)
            || (&& s'.turns == s.turns[id := turn'.(phase := Replying)]
                && s'.prompts == s.prompts + [Prompt(turn'.messages)]
                && (m.None? ==> SkipsInput(turn.messages, step.input)))
  {
    var turn := s.turns[id];
    if SkipsInput(turn.messages, step.input) {
    } else if CandidateContent(step.input).Refused? {
    } else {
      var m := Message(step.key, turn.sequence + 1, Candidate, CandidateContent(step.input).text);
      assert MessageNext(s, id, step) == CandidateNext(s, id, m, step.stored, step.told);
    }
  }

  lemma {:induction false} ReplyStores(s: State, id: nat, step: MessageStep)
    requires MessageEnabled(s, id, step) && step.Reply?
    ensures var m := Message(step.key, s.turns[id].sequence + 1, Interviewer, step.text);
            var s1 := if step.stored && Insert(s.messages, m).Some? then Store(s, m) else s;
            var s' := MessageNext(s, id, step);
            && s'.messages == s1.messages && s'.row == s1.row && s'.since == s.since && s'.holder == s.holder
            && s'.prompts == s.prompts
            && exists phase :: phase in {Saved, Done} && s'.turns == s.turns[id := s.turns[id].(phase := phase)]
  {
    var s' := MessageNext(s, id, step);
    var phase := s'.turns[id].phase;
    assert phase in {Saved, Done} && s'.turns == s.turns[id := s.turns[id].(phase := phase)];
  }

  // ---- The transcript ----

  lemma {:induction false} AnswerKeepsTranscript(s: State, id: nat, step: MessageStep)
    requires TranscriptOk(s) && MessageEnabled(s, id, step) && step.Answer?
    ensures var s' := MessageNext(s, id, step); TranscriptOk(s') && s.messages <= s'.messages
  {
    AnswerStores(s, id, step);
    AnswerMovesTurn(s, id, step);
    assert TurnFits(s, s.turns[id]);
    var m := Answered(s, id, step);
    if m.Some? {
      ContentIsNotBlank(step.input);
      StoreAppends(s, m.value);
    }
  }

  lemma {:induction false} ReplyKeepsTranscript(s: State, id: nat, step: MessageStep)
    requires TranscriptOk(s) && MessageEnabled(s, id, step) && step.Reply?
    ensures var s' := MessageNext(s, id, step); TranscriptOk(s') && s.messages <= s'.messages
  {
    ReplyStores(s, id, step);
    assert TurnFits(s, s.turns[id]);
    var m := Message(step.key, s.turns[id].sequence + 1, Interviewer, step.text);
    if Insert(s.messages, m).Some? { StoreAppends(s, m); }
  }

  lemma {:induction false} MaxSeqIsCount(messages: seq<Message>)
    requires Gapless(messages)
    ensures MaxSeq(messages) == |messages|
  {
  }

  // How a step moves its turn, and no other.
  lemma {:induction false} TurnMoves(s: State, id: nat, step: TurnStep)
    requires TurnEnabled(s, id, step)
    ensures var s' := TurnNext(s, id, step);
            && (forall k | k in s'.turns && k != id :: k in s.turns && s'.turns[k] == s.turns[k])
            && (id in s'.turns ==>
                 || s'.turns[id].phase in {Acquired, Done}
                 || (step.LoadMessages? && s'.turns[id] == s.turns[id].(phase := Loaded, messages := s.messages))
                 || (step.LoadSequence? && s'.turns[id] == s.turns[id].(phase := Ready, sequence := MaxSeq(s.messages))))
            && (step.LoadSequence? ==> s.turns[id].phase == Loaded)
            && (id in s'.turns && !step.Acquire? ==> s.turns[id].released ==> s'.turns[id].released)
  {
    match step
    case Acquire(told) =>
    case LoadMessages =>
    case LoadSequence =>
    case Release(applied) =>
    case Abort =>
    case Finish(applied) =>
    case Crash =>
  }

  lemma {:induction false} OthersKeepTranscript(s: State, id: nat, step: TurnStep)
    requires TranscriptOk(s) && TurnEnabled(s, id, step)
    ensures TranscriptOk(TurnNext(s, id, step))
  {
    WritesNothing(s, id, step);
    MaxSeqIsCount(s.messages);
    TurnMoves(s, id, step);
    SameTranscript(s, TurnNext(s, id, step), id);
  }

  lemma {:induction false} SameTranscript(s: State, s': State, id: nat)
    requires TranscriptOk(s) && s'.messages == s.messages && s'.row.spoken == s.row.spoken
    requires forall k | k in s'.turns && k != id :: k in s.turns && s'.turns[k] == s.turns[k]
    requires id in s'.turns && s'.turns[id].phase in {Ready, Replying} ==> s'.turns[id].sequence == |s.messages|
    ensures TranscriptOk(s')
  {
    forall k | k in s'.turns ensures TurnFits(s', s'.turns[k]) {
      assert k != id ==> TurnFits(s, s.turns[k]);
    }
  }

  lemma {:induction false} StepKeepsTranscript(s: State, step: Step)
    requires TranscriptOk(s) && Enabled(s, step)
    ensures TranscriptOk(Next(s, step)) && s.messages <= Next(s, step).messages
  {
    match step
    case OfTurn(id, turn) =>
      WritesNothing(s, id, turn);
      OthersKeepTranscript(s, id, turn);
    case OfMessage(id, message) =>
      if message.Answer? { AnswerKeepsTranscript(s, id, message); } else { ReplyKeepsTranscript(s, id, message); }
    case OfEnd(id, end) => EndFrame(s, id, end);
    case OfJudge(id, judge) => JudgeFrame(s, id, judge);
    case OfRow(row) => RowFrame(s, row);
  }

  // ---- Prompts ----

  lemma {:induction false} AnswerAsksProperly(s: State, id: nat, step: MessageStep)
    requires PromptsOk(s) && MessageEnabled(s, id, step) && step.Answer?
    ensures PromptsOk(MessageNext(s, id, step))
  {
    AnswerMovesTurn(s, id, step);
    var messages := s.turns[id].messages;
    PromptAnswerableIff(messages);
    if Answered(s, id, step).Some? { PromptAnswerableIff(messages + [Answered(s, id, step).value]); }
  }

  lemma {:induction false} StepKeepsPrompts(s: State, step: Step)
    requires PromptsOk(s) && Enabled(s, step)
    ensures PromptsOk(Next(s, step))
  {
    match step
    case OfTurn(id, turn) => WritesNothing(s, id, turn);
    case OfMessage(id, message) =>
      if message.Answer? { AnswerAsksProperly(s, id, message); } else { ReplyStores(s, id, message); }
    case OfEnd(id, end) => EndFrame(s, id, end);
    case OfJudge(id, judge) => JudgeFrame(s, id, judge);
    case OfRow(row) => RowFrame(s, row);
  }

  // ---- Evaluation ----

  lemma {:induction false} SoundStays(e: Stored, earlier: seq<Message>, messages: seq<Message>)
    requires Sound(e, earlier) && earlier <= messages
    ensures Sound(e, messages)
  {
  }

  lemma {:induction false} CommitKeepsEvaluation(s: State, id: nat, raw: RawInput, commit: bool)
    requires TranscriptOk(s) && EvaluationOk(s) && JudgeEnabled(s, id, Commit(raw, commit))
    ensures EvaluationOk(JudgeNext(s, id, Commit(raw, commit)))
  {
    var messages := s.judges[id].messages;
    assert messages <= s.messages;
    EvaluatedIsSound(raw, messages);
    if Evaluated(raw, messages).Some? { SoundStays(Evaluated(raw, messages).value, messages, s.messages); }
  }

  lemma {:induction false} OthersKeepEvaluation(s: State, id: nat, step: JudgeStep)
    requires EvaluationOk(s) && JudgeEnabled(s, id, step) && !step.Commit?
    ensures EvaluationOk(JudgeNext(s, id, step))
  {
    match step
    case Start =>
    case Collect =>
    case Mark =>
    case Commit(raw, commit) =>
    case Drop =>
  }

  lemma {:induction false} StepKeepsEvaluation(s: State, step: Step)
    requires TranscriptOk(s) && EvaluationOk(s) && Enabled(s, step)
    ensures EvaluationOk(Next(s, step))
  {
    match step
    case OfTurn(id, turn) =>
      WritesNothing(s, id, turn);
      TurnFrame(s, id, turn);
      TurnStatus(s, id, turn);
    case OfMessage(id, message) =>
      StepKeepsTranscript(s, step);
      MessageFrame(s, id, message);
      if s.evaluation.Some? { SoundStays(s.evaluation.value, s.messages, Next(s, step).messages); }
    case OfEnd(id, end) => EndFrame(s, id, end);
    case OfJudge(id, judge) =>
      if judge.Commit? {
        CommitKeepsEvaluation(s, id, judge.raw, judge.commit);
      } else {
        OthersKeepEvaluation(s, id, judge);
      }
    case OfRow(row) =>
      RowFrame(s, row);
      RowLeavesReviewed(s, row);
  }

  lemma {:induction false} RowLeavesReviewed(s: State, step: RowStep)
    requires RowEnabled(s, step)
    ensures RowNext(s, step).row.status == Reviewed ==> s.row.status == Reviewed
  {
    match step
    case Tick(time) =>
    case Recover =>
    case Abandon =>
    case CheckFail =>
    case Fail =>
    case GiveUp =>
    case CheckRetry =>
    case Retry(commit) =>
  }

  // ---- Status and counts ----

  lemma {:induction false} TurnKeepsStatus(s: State, id: nat, step: TurnStep)
    requires StatusOk(s) && TurnEnabled(s, id, step)
    ensures StatusOk(TurnNext(s, id, step))
  {
    TurnFrame(s, id, step);
    TurnStatus(s, id, step);
    TurnSince(s, id, step);
  }

  lemma {:induction false} TurnSince(s: State, id: nat, step: TurnStep)
    requires TurnEnabled(s, id, step)
    requires (s.row.status == Generating ==> s.since.Some?) && (s.row.status == Active ==> s.since.None?)
    ensures var s' := TurnNext(s, id, step);
            (s'.row.status == Generating ==> s'.since.Some?) && (s'.row.status == Active ==> s'.since.None?)
  {
    match step
    case Acquire(told) =>
    case LoadMessages =>
    case LoadSequence =>
    case Release(applied) =>
    case Abort =>
    case Finish(applied) =>
    case Crash =>
  }

  lemma {:induction false} RowKeepsStatus(s: State, step: RowStep)
    requires StatusOk(s) && RowEnabled(s, step)
    ensures StatusOk(RowNext(s, step))
  {
  }

  lemma {:induction false} EndKeepsStatus(s: State, id: nat, step: EndStep)
    requires StatusOk(s) && EndEnabled(s, id, step)
    ensures StatusOk(EndNext(s, id, step))
  {
  }

  lemma {:induction false} JudgeKeepsStatus(s: State, id: nat, step: JudgeStep)
    requires StatusOk(s) && JudgeEnabled(s, id, step)
    ensures StatusOk(JudgeNext(s, id, step))
  {
    JudgeFrame(s, id, step);
  }

  lemma {:induction false} StepKeepsStatus(s: State, step: Step)
    requires StatusOk(s) && Enabled(s, step)
    ensures StatusOk(Next(s, step))
  {
    match step
    case OfTurn(id, turn) => TurnKeepsStatus(s, id, turn);
    case OfMessage(id, message) => MessageFrame(s, id, message);
    case OfEnd(id, end) => EndKeepsStatus(s, id, end);
    case OfJudge(id, judge) => JudgeKeepsStatus(s, id, judge);
    case OfRow(row) => RowKeepsStatus(s, row);
  }

  lemma {:induction false} StepKeepsCounts(s: State, step: Step)
    requires TranscriptOk(s) && CountsOk(s) && Enabled(s, step)
    ensures CountsOk(Next(s, step))
  {
    match step
    case OfTurn(id, turn) =>
      TurnFrame(s, id, turn);
      WritesNothing(s, id, turn);
    case OfMessage(id, message) =>
      MessageFrame(s, id, message);
      StepKeepsTranscript(s, step);
      InterviewerCountGrows(s.messages, Next(s, step).messages);
    case OfEnd(id, end) => EndFrame(s, id, end);
    case OfJudge(id, judge) => JudgeFrame(s, id, judge);
    case OfRow(row) => RowFrame(s, row);
  }

  lemma {:induction false} StepKeepsInv(s: State, step: Step)
    requires Inv(s) && Enabled(s, step)
    ensures Inv(Next(s, step)) && s.messages <= Next(s, step).messages
  {
    StepKeepsTranscript(s, step);
    StepKeepsPrompts(s, step);
    StepKeepsEvaluation(s, step);
    StepKeepsStatus(s, step);
    StepKeepsCounts(s, step);
  }

  lemma {:induction false} FreshInv(s: State)
    requires Fresh(s)
    ensures Inv(s)
  {
  }
}
