/** One interview session as a state machine. A step is one database statement or
    transaction of a turn, an end call, the clean-up jobs or an evaluation job; any
    number of these run at once and interleave freely, and the processes may crash. */
module SessionMachine {
  import opened Options
  import opened Sessions
  import opened Transcript
  import opened Evaluation

  // The age at which a held lock counts as abandoned.
  const STALE: Time := 5 * MINUTE

  // Where a turn is. `Done`: the body has returned, the deferred release has not run.
  datatype Phase = Acquired | Loaded | Ready | Replying | Saved | Done

  datatype Turn = Turn(since: Time, phase: Phase, messages: seq<Message>, sequence: int, released: bool)

  datatype Judge = Started | Collected(messages: seq<Message>) | Judging(messages: seq<Message>)

  // The session's row (`row`, `since`), its messages and evaluation, the clock, and the
  // processes at work on it: turns, end calls (with the turn count once they have it),
  // evaluation attempts, and calls past their status check. `holder` and `prompts` are
  // history: the turn that took the lock last, and what the LLM was sent.
  datatype State = State(row: Session, since: Option<Time>, messages: seq<Message>,
                         evaluation: Option<Stored>, enqueued: bool, now: Time,
                         turns: map<nat, Turn>, ends: map<nat, Option<nat>>, judges: map<nat, Judge>,
                         failing: nat, retrying: nat,
                         holder: Option<nat>, prompts: seq<seq<PromptMessage>>)

  predicate Fresh(s: State) {
    && s.row.status == Active && s.since.None? && s.messages == [] && s.evaluation.None? && !s.enqueued
    && s.row.turnCount == 0 && !s.row.spoken
    && s.turns == map[] && s.ends == map[] && s.judges == map[] && s.failing == 0 && s.retrying == 0
    && s.prompts == []
  }

  // ---- The statements on the row ----

  function SetStatus(s: State, status: Status): State { s.(row := s.row.(status := status)) }

  function AcquireLock(s: State): State {
    if s.row.status == Active then SetStatus(s, Generating).(since := Some(s.now)) else s
  }

  function ReleaseLock(s: State): State {
    if s.row.status == Generating then SetStatus(s, Active).(since := None) else s
  }

  predicate IsStale(s: State) {
    s.row.status == Generating && s.since.Some? && s.since.value < s.now - STALE
  }

  function RecoverLock(s: State): State {
    if IsStale(s) then SetStatus(s, Active).(since := None) else s
  }

  // A successful insert; the row's `spoken` is "some message is the candidate's".
  function Store(s: State, m: Message): State
    requires Insert(s.messages, m).Some?
  {
    s.(messages := Insert(s.messages, m).value,
       row := s.row.(spoken := s.row.spoken || m.role == Candidate))
  }

  function PutTurn(s: State, id: nat, turn: Turn): State { s.(turns := s.turns[id := turn]) }

  // ---- Steps ----

  // `told`: the caller learns of the statement's success. `stored`, `applied`,
  // `commit`: the statement takes effect, where it can.
  datatype TurnStep =
    | Acquire(told: bool)
    | LoadMessages
    | LoadSequence
    | Release(applied: bool)
    | Abort
    | Finish(applied: bool)
    | Crash

  // The writes of a turn; `key` is the id of the new message.
  datatype MessageStep =
    | Answer(input: Input, key: nat, stored: bool, told: bool)
    | Reply(text: string, key: nat, stored: bool, told: bool)

  datatype EndStep = Poll | CountTurns | Write(cancel: bool, commit: bool)

  datatype JudgeStep = Start | Collect | Mark | Commit(raw: RawInput, commit: bool) | Drop

  // `Recover`: the stale-lock statement, run by the periodic job or by an end call that
  // waits. `GiveUp`: the last attempt of the evaluation job has failed.
  datatype RowStep = Tick(time: nat) | Recover | Abandon | CheckFail | Fail
                   | GiveUp | CheckRetry | Retry(commit: bool)

  datatype Step = OfTurn(id: nat, turn: TurnStep) | OfMessage(id: nat, message: MessageStep)
                | OfEnd(id: nat, end: EndStep) | OfJudge(id: nat, judge: JudgeStep) | OfRow(row: RowStep)

  predicate AtPhase(s: State, id: nat, phase: Phase) { id in s.turns && s.turns[id].phase == phase }

  predicate TurnEnabled(s: State, id: nat, step: TurnStep) {
    match step
    case Acquire(_) => id !in s.turns
    case LoadMessages => AtPhase(s, id, Acquired)
    case LoadSequence => AtPhase(s, id, Loaded)
    case Release(_) => AtPhase(s, id, Saved)
    case Abort => id in s.turns && s.turns[id].phase in {Acquired, Loaded, Ready, Replying}
    case Finish(_) => AtPhase(s, id, Done)
    case Crash => id in s.turns
  }

  predicate MessageEnabled(s: State, id: nat, step: MessageStep) {
    match step
    case Answer(_, _, stored, told) => AtPhase(s, id, Ready) && (told ==> stored)
    case Reply(_, _, stored, told) => AtPhase(s, id, Replying) && (told ==> stored)
  }

  predicate EndEnabled(s: State, id: nat, step: EndStep) {
    match step
    case Poll => id !in s.ends && s.row.status != Generating
    case CountTurns => id in s.ends && s.ends[id].None?
    case Write(_, _) => id in s.ends && s.ends[id].Some?
  }

  predicate JudgeEnabled(s: State, id: nat, step: JudgeStep) {
    match step
    case Start => s.enqueued && id !in s.judges
    case Collect => id in s.judges && s.judges[id].Started?
    case Mark => id in s.judges && s.judges[id].Collected?
    case Commit(_, _) => id in s.judges && s.judges[id].Judging?
    case Drop => id in s.judges
  }

  predicate RowEnabled(s: State, step: RowStep) {
    match step
    case Tick(_) => true
    case Recover => true
    case Abandon => true
    case CheckFail => s.row.status == Active
    case Fail => s.failing > 0
    case GiveUp => s.enqueued
    case CheckRetry => s.row.status == EvaluationFailed
    case Retry(_) => s.retrying > 0
  }

  predicate Enabled(s: State, step: Step) {
    match step
    case OfTurn(id, turn) => TurnEnabled(s, id, turn)
    case OfMessage(id, message) => MessageEnabled(s, id, message)
    case OfEnd(id, end) => EndEnabled(s, id, end)
    case OfJudge(id, judge) => JudgeEnabled(s, id, judge)
    case OfRow(row) => RowEnabled(s, row)
  }

  // The turn needs no input: it opens the interview, or the last turn lost its reply.
  predicate SkipsInput(messages: seq<Message>, input: Input) {
    (messages == [] && input == Text("")) || EndsWithCandidate(messages)
  }

  function StartReply(s: State, id: nat, turn: Turn): State {
    PutTurn(s, id, turn.(phase := Replying)).(prompts := s.prompts + [Prompt(turn.messages)])
  }

  function EndTurn(s: State, id: nat): State
    requires id in s.turns
  {
    PutTurn(s, id, s.turns[id].(phase := Done))
  }

  function CandidateNext(s: State, id: nat, m: Message, stored: bool, told: bool): State
    requires id in s.turns
  {
    var turn := s.turns[id];
    if !stored || Insert(s.messages, m).None? then EndTurn(s, id)
    else if !told then EndTurn(Store(s, m), id)
    else StartReply(Store(s, m), id, turn.(messages := turn.messages + [m], sequence := m.number))
  }

  function HeardNext(s: State, id: nat, heard: Heard, key: nat, stored: bool, told: bool): State
    requires id in s.turns
  {
    match heard
    case Refused(_) => EndTurn(s, id)
    case Content(text) =>
      CandidateNext(s, id, Message(key, s.turns[id].sequence + 1, Candidate, text), stored, told)
  }

  function AnswerNext(s: State, id: nat, input: Input, key: nat, stored: bool, told: bool): State
    requires id in s.turns
  {
    var turn := s.turns[id];
    if SkipsInput(turn.messages, input) then StartReply(s, id, turn)
    else HeardNext(s, id, CandidateContent(input), key, stored, told)
  }

  function ReplyNext(s: State, id: nat, text: string, key: nat, stored: bool, told: bool): State
    requires id in s.turns
  {
    var turn := s.turns[id];
    var m := Message(key, turn.sequence + 1, Interviewer, text);
    if !stored || Insert(s.messages, m).None? then EndTurn(s, id)
    else if !told then EndTurn(Store(s, m), id)
    else PutTurn(Store(s, m), id, turn.(phase := Saved))
  }

  // Evaluation is enqueued for a completed session with more than one interviewer message.
  function WriteNext(s: State, id: nat, cancel: bool, commit: bool): State
    requires id in s.ends && s.ends[id].Some?
  {
    var n := s.ends[id].value;
    var s1 := s.(ends := s.ends - {id});
    if !commit then s1
    else s1.(row := EndRow(s.row, cancel, n, s.now), enqueued := s.enqueued || (!cancel && n > 1))
  }

  function AbandonNext(s: State): State {
    s.(row := CompleteSpoken(CancelEmpty(s.row, s.now), s.now),
       enqueued := s.enqueued || (IsOverdue(s.row, s.now) && s.row.spoken))
  }

  function MarkNext(s: State, id: nat): State
    requires id in s.judges && s.judges[id].Collected?
  {
    var messages := s.judges[id].messages;
    if messages == [] then SetStatus(s, EvaluationFailed).(judges := s.judges - {id})
    else SetStatus(s, Evaluating).(judges := s.judges[id := Judging(messages)])
  }

  // The transaction fails on a bad verdict and under UNIQUE (session_id).
  function CommitNext(s: State, id: nat, raw: RawInput, commit: bool): State
    requires id in s.judges && s.judges[id].Judging?
  {
    var e := Evaluated(raw, s.judges[id].messages);
    var s1 := s.(judges := s.judges - {id});
    if !commit || e.None? || s.evaluation.Some? then s1
    else SetStatus(s1, Reviewed).(evaluation := e)
  }

  function TurnNext(s: State, id: nat, step: TurnStep): State
    requires TurnEnabled(s, id, step)
  {
    match step
    case Acquire(told) =>
      if s.row.status != Active then s
      else if !told then AcquireLock(s).(holder := None)
      else PutTurn(AcquireLock(s), id, Turn(s.now, Acquired, [], 0, false)).(holder := Some(id))
    case LoadMessages => PutTurn(s, id, s.turns[id].(phase := Loaded, messages := s.messages))
    case LoadSequence => PutTurn(s, id, s.turns[id].(phase := Ready, sequence := MaxSeq(s.messages)))
    case Release(applied) =>
      PutTurn(if applied then ReleaseLock(s) else s, id, s.turns[id].(phase := Done, released := true))
    case Abort => EndTurn(s, id)
    case Finish(applied) =>
      (if applied && !s.turns[id].released then ReleaseLock(s) else s).(turns := s.turns - {id})
    case Crash => s.(turns := s.turns - {id})
  }

  function MessageNext(s: State, id: nat, step: MessageStep): State
    requires MessageEnabled(s, id, step)
  {
    match step
    case Answer(input, key, stored, told) => AnswerNext(s, id, input, key, stored, told)
    case Reply(text, key, stored, told) => ReplyNext(s, id, text, key, stored, told)
  }

  function EndNext(s: State, id: nat, step: EndStep): State
    requires EndEnabled(s, id, step)
  {
    match step
    case Poll => s.(ends := s.ends[id := None])
    case CountTurns => s.(ends := s.ends[id := Some(InterviewerCount(s.messages))])
    case Write(cancel, commit) => WriteNext(s, id, cancel, commit)
  }

  function JudgeNext(s: State, id: nat, step: JudgeStep): State
    requires JudgeEnabled(s, id, step)
  {
    match step
    case Start => if s.evaluation.Some? then s else s.(judges := s.judges[id := Started])
    case Collect => s.(judges := s.judges[id := Collected(s.messages)])
    case Mark => MarkNext(s, id)
    case Commit(raw, commit) => CommitNext(s, id, raw, commit)
    case Drop => s.(judges := s.judges - {id})
  }

  function RowNext(s: State, step: RowStep): State
    requires RowEnabled(s, step)
  {
    match step
    case Tick(time) => s.(now := s.now + time)
    case Recover => RecoverLock(s)
    case Abandon => AbandonNext(s)
    case CheckFail => s.(failing := s.failing + 1)
    case Fail => SetStatus(s, Failed).(failing := s.failing - 1)
    case GiveUp => SetStatus(s, EvaluationFailed)
    case CheckRetry => s.(retrying := s.retrying + 1)
    case Retry(commit) =>
      var s1 := s.(retrying := s.retrying - 1);
      if commit then SetStatus(s1, Evaluating).(enqueued := true) else s1
  }

  function Next(s: State, step: Step): State
    requires Enabled(s, step)
  {
    match step
    case OfTurn(id, turn) => TurnNext(s, id, turn)
    case OfMessage(id, message) => MessageNext(s, id, message)
    case OfEnd(id, end) => EndNext(s, id, end)
    case OfJudge(id, judge) => JudgeNext(s, id, judge)
    case OfRow(row) => RowNext(s, row)
  }

  predicate LegalRun(s: State, steps: seq<Step>)
    decreases |steps|
  {
    steps == [] || (Enabled(s, steps[0]) && LegalRun(Next(s, steps[0]), steps[1..]))
  }

  function Run(s: State, steps: seq<Step>): State
    requires LegalRun(s, steps)
    decreases |steps|
  {
    if steps == [] then s else Run(Next(s, steps[0]), steps[1..])
  }

  // ---- The timing assumption ----

  // A turn that may still write, or release the lock.
  predicate IsLive(s: State, id: nat) { id in s.turns && !s.turns[id].released }

  // Every live turn took its lock at most five minutes ago.
  predicate Timely(s: State) {
    forall id | id in s.turns && !s.turns[id].released :: s.now - s.turns[id].since <= 5 * 60_000_000
  }

  predicate TimelyRun(s: State, steps: seq<Step>)
    requires LegalRun(s, steps)
    decreases |steps|
  {
    Timely(s) && (steps == [] || TimelyRun(Next(s, steps[0]), steps[1..]))
  }
}
