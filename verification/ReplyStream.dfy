/** One interviewer reply: the turn goroutine streams tokens through its observers
    while the speech goroutine synthesizes sentences, in every interleaving. */
module ReplyStream {
  import opened Options
  import opened Splitter
  import TtsAccumulator

  // Where the turn goroutine is.
  datatype Producer =
    | Streaming     // about to read the next token
    | Splitting     // inside OnToken of the speech accumulator
    | Closing       // OnDone has run; waiting for the speech goroutine
    | Failing       // OnError has run; waiting for the speech goroutine
    | Closed        // about to persist
    | Persisted     // about to signal InterviewerDone
    | Ended

  datatype Consumer = Absent | Waiting | Speaking(sentence: nat) | Exited

  // What the client is sent. Sentences are named by their position among all
  // sentences produced.
  datatype Event = Token(text: string) | Chunk(num: nat, sentence: nat) | TtsError(of: nat) | TtsDone
                 | StreamError | PersistError | InterviewerDone

  // `sentences` lists everything produced so far; the channel holds positions in it.
  datatype State = State(tts: bool, producer: Producer, consumer: Consumer,
                         text: string, buf: string, sentences: seq<string>,
                         queue: seq<nat>, closed: bool, cancelled: bool,
                         chunks: nat, events: seq<Event>, saved: Option<string>)

  function Init(tts: bool): State {
    State(tts, Streaming, if tts then Waiting else Absent, "", "", [], [], false, false, 0, [], None)
  }

  datatype Step = TakeToken(token: string) | EmitSentence | EndToken | EndOfStream | FailStream
                | Join | Persist(ok: bool) | SignalDone
                | Receive | Synthesized(ok: bool) | SeeClosed | SeeCancelled

  predicate Enabled(s: State, step: Step) {
    match step
    case TakeToken(_) => s.producer == Streaming
    case EmitSentence => s.producer == Splitting && FirstBoundary(s.buf, 0) != -1
    case EndToken => s.producer == Splitting && FirstBoundary(s.buf, 0) == -1
    case EndOfStream => s.producer == Streaming
    case FailStream => s.producer == Streaming
    case Join => (s.producer == Closing || s.producer == Failing) && (s.consumer == Absent || s.consumer == Exited)
    case Persist(_) => s.producer == Closed
    case SignalDone => s.producer == Persisted
    case Receive => s.consumer == Waiting && s.queue != []
    case Synthesized(_) => s.consumer.Speaking?
    case SeeClosed => s.consumer == Waiting && s.queue == [] && s.closed
    case SeeCancelled => s.consumer == Waiting && s.cancelled
  }

  function Log(s: State, e: Event): State { s.(events := s.events + [e]) }

  // The non-blocking send: the sentence is queued, or dropped with an error.
  function Offer(s: State, sentence: string): State {
    var k := |s.sentences|;
    var s1 := s.(sentences := s.sentences + [sentence]);
    if |s.queue| < TtsAccumulator.CAPACITY then s1.(queue := s.queue + [k]) else Log(s1, TtsError(k))
  }

  function Next(s: State, step: Step): State
    requires Enabled(s, step)
  {
    match step
    case TakeToken(token) =>
      var s1 := Log(s, Token(token)).(text := s.text + token);
      if s.tts then s1.(buf := s.buf + token, producer := Splitting) else s1
    case EmitSentence =>
      var i := FirstBoundary(s.buf, 0);
      Offer(s, s.buf[..i + 2]).(buf := s.buf[i + 2..])
    case EndToken => s.(producer := Streaming)
    case EndOfStream =>
      var rest := TrimSpace(s.buf);
      (if s.tts && rest != "" then Offer(s, rest) else s).(closed := true, producer := Closing)
    case FailStream => Log(s, StreamError).(cancelled := true, producer := Failing)
    case Join => s.(producer := if s.producer == Closing then Closed else Ended)
    case Persist(ok) =>
      if ok then s.(saved := Some(s.text), producer := Persisted)
      else Log(s, PersistError).(producer := Ended)
    case SignalDone => Log(s, InterviewerDone).(producer := Ended)
    case Receive =>
      var s1 := s.(queue := s.queue[1..]);
      if s.cancelled then s1 else s1.(consumer := Speaking(s.queue[0]))
    case Synthesized(ok) =>
      var k := s.consumer.sentence;
      (if ok then Log(s, Chunk(s.chunks, k)).(chunks := s.chunks + 1) else Log(s, TtsError(k)))
      .(consumer := Waiting)
    case SeeClosed => (if s.cancelled then s else Log(s, TtsDone)).(consumer := Exited)
    case SeeCancelled => s.(consumer := Exited)
  }

  predicate LegalRun(s: State, steps: seq<Step>)
    decreases |steps|
  {
    steps == [] || (Enabled(s, steps[0]) && LegalRun(Next(s, steps[0]), steps[1..]))
  }

  function Run(s: State, steps: seq<Step>): State
    requires LegalRun(s, steps)
    decreases |steps|
  {
    if steps == [] then s else Run(Next(s, steps[0]), steps[1..])
  }

  // ---- Readings of the event trace ----

  function Texts(events: seq<Event>): string {
    if events == [] then ""
    else
      var e := events[|events| - 1];
      Texts(events[..|events| - 1]) + if e.Token? then e.text else ""
  }

  // The numbers of the audio chunks, in order, and the sentences they carry.
  function Nums(events: seq<Event>): seq<nat> {
    if events == [] then []
    else
      var e := events[|events| - 1];
      Nums(events[..|events| - 1]) + if e.Chunk? then [e.num] else []
  }

  function Heard(events: seq<Event>): seq<nat> {
    if events == [] then []
    else
      var e := events[|events| - 1];
      Heard(events[..|events| - 1]) + if e.Chunk? then [e.sentence] else []
  }

  // The sentences reported as errors.
  function Errors(events: seq<Event>): multiset<nat> {
    if events == [] then multiset{}
    else
      var e := events[|events| - 1];
      Errors(events[..|events| - 1]) + if e.TtsError? then multiset{e.of} else multiset{}
  }

  lemma {:induction false} Snoc(events: seq<Event>, e: Event)
    ensures Texts(events + [e]) == Texts(events) + if e.Token? then e.text else ""
    ensures Nums(events + [e]) == Nums(events) + if e.Chunk? then [e.num] else []
    ensures Heard(events + [e]) == Heard(events) + if e.Chunk? then [e.sentence] else []
    ensures Errors(events + [e]) == Errors(events) + if e.TtsError? then multiset{e.of} else multiset{}
  {
  }

  predicate IsSpeech(e: Event) { e.Chunk? || e.TtsError? || e == TtsDone }

  // ---- Invariants ----

  // The sentences not lost to an error: those heard, the one being spoken, those queued.
  function Order(s: State): seq<nat> {
    Heard(s.events) + (if s.consumer.Speaking? then [s.consumer.sentence] else []) + s.queue
  }

  predicate Ascending(order: seq<nat>, bound: nat) {
    && (forall i | 0 <= i < |order| :: order[i] < bound)
    && (forall i, j | 0 <= i < j < |order| :: order[i] < order[j])
  }

  // The channel is bounded, sentences keep their order, chunks are numbered without gaps.
  predicate OrderOk(s: State) {
    && |s.queue| <= TtsAccumulator.CAPACITY
    && Ascending(Order(s), |s.sentences|)
    && |Nums(s.events)| == s.chunks
    && forall i | 0 <= i < s.chunks :: Nums(s.events)[i] == i
  }

  function Places(s: State): multiset<nat> { Errors(s.events) + multiset(Order(s)) }

  // The positions 0 .. n - 1, each once.
  function UpTo(n: nat): multiset<nat> { if n == 0 then multiset{} else UpTo(n - 1) + multiset{n - 1} }

  // Every sentence produced is in exactly one place.
  predicate Accounted(s: State) { Places(s) == UpTo(|s.sentences|) }

  // Everything there is to say of a text.
  function Spoken(text: string): seq<string> {
    var rest := TrimSpace(Leftover(text));
    Sentences(text) + if rest != "" then [rest] else []
  }

  predicate TextOk(s: State) {
    && s.text == Texts(s.events)
    && (s.saved.Some? ==> s.saved.value == s.text)
    && (s.tts ==>
         match s.producer
         case Streaming => s.sentences == Sentences(s.text) && s.buf == Leftover(s.text)
         case Splitting => s.sentences + Sentences(s.buf) == Sentences(s.text) && Leftover(s.buf) == Leftover(s.text)
         case Failing => true
         case Closing => s.sentences == Spoken(s.text)
         case Closed => s.sentences == Spoken(s.text)
         case Persisted => s.sentences == Spoken(s.text)
         case Ended => s.saved.Some? ==> s.sentences == Spoken(s.text))
  }

  predicate PhasesOk(s: State) {
    && (s.tts <==> s.consumer != Absent)
    && (s.producer == Splitting ==> s.tts)
    && (!s.tts ==> s.sentences == [] && s.queue == [])
    && (s.producer in {Streaming, Splitting} ==> !s.closed && !s.cancelled && s.consumer != Exited && s.saved.None?)
    && (s.producer in {Closing, Closed, Persisted} ==> s.closed && !s.cancelled)
    && (s.producer == Failing ==> s.cancelled && s.saved.None?)
    && (s.producer in {Closed, Persisted, Ended} ==> s.consumer in {Absent, Exited})
    && (s.producer in {Closing, Closed} ==> s.saved.None?)
    && (s.producer == Persisted ==> s.saved.Some?)
    && (s.saved.Some? ==> s.closed && !s.cancelled)
    && (s.consumer == Exited && !s.cancelled ==> s.queue == [] && s.closed)
  }

  // TtsDone is the last word on speech, and InterviewerDone the last word of all.
  predicate DoneOk(s: State) {
    && (TtsDone in s.events <==> s.consumer == Exited && !s.cancelled)
    && (forall i, j | 0 <= i < j < |s.events| && s.events[i] == TtsDone :: !IsSpeech(s.events[j]))
    && (InterviewerDone in s.events <==> s.producer == Ended && s.saved.Some?)
    && (forall i | 0 <= i < |s.events| && s.events[i] == InterviewerDone :: i == |s.events| - 1)
  }

  ghost predicate Inv(s: State) {
    && OrderOk(s) && TextOk(s) && PhasesOk(s) && DoneOk(s)
    && (!s.cancelled ==> Accounted(s))
  }

  // ---- Each step keeps them ----

  // What a step adds to the trace.
  function Logged(s: State, step: Step): seq<Event>
    requires Enabled(s, step)
  {
    match step
    case TakeToken(token) => [Token(token)]
    case EmitSentence => Refused(s)
    case EndToken => []
    case EndOfStream => if s.tts && TrimSpace(s.buf) != "" then Refused(s) else []
    case FailStream => [StreamError]
    case Join => []
    case Persist(ok) => if ok then [] else [PersistError]
    case SignalDone => [InterviewerDone]
    case Receive => []
    case Synthesized(ok) => [if ok then Chunk(s.chunks, s.consumer.sentence) else TtsError(s.consumer.sentence)]
    case SeeClosed => if s.cancelled then [] else [TtsDone]
    case SeeCancelled => []
  }

  function Refused(s: State): seq<Event> {
    if |s.queue| < TtsAccumulator.CAPACITY then [] else [TtsError(|s.sentences|)]
  }

  lemma {:induction false} NextLogs(s: State, step: Step)
    requires Enabled(s, step)
    ensures Next(s, step).events == s.events + Logged(s, step)
    ensures |Logged(s, step)| <= 1
  {
  }

  lemma {:induction false} StepKeepsPhases(s: State, step: Step)
    requires PhasesOk(s) && Enabled(s, step)
    ensures PhasesOk(Next(s, step))
  {
  }

  lemma {:induction false} StepKeepsDone(s: State, step: Step)
    requires PhasesOk(s) && DoneOk(s) && Enabled(s, step)
    ensures DoneOk(Next(s, step))
  {
    NextLogs(s, step);
    var s' := Next(s, step);
    var more := Logged(s, step);
    forall i, j | 0 <= i < j < |s'.events| && s'.events[i] == TtsDone ensures !IsSpeech(s'.events[j]) {
      assert s.events[i] == TtsDone;
    }
    assert TtsDone in s'.events <==> TtsDone in s.events || TtsDone in more;
    assert InterviewerDone in s'.events <==> InterviewerDone in s.events || InterviewerDone in more;
  }

  lemma {:induction false} NoneOrOne(events: seq<Event>, more: seq<Event>)
    requires |more| <= 1
    ensures Texts(events + more) == Texts(events) + (if |more| == 1 && more[0].Token? then more[0].text else "")
    ensures Nums(events + more) == Nums(events) + (if |more| == 1 && more[0].Chunk? then [more[0].num] else [])
    ensures Heard(events + more) == Heard(events) + (if |more| == 1 && more[0].Chunk? then [more[0].sentence] else [])
    ensures Errors(events + more)
            == Errors(events) + (if |more| == 1 && more[0].TtsError? then multiset{more[0].of} else multiset{})
  {
    if more == [] {
      assert events + more == events;
    } else {
      assert more == [more[0]];
      Snoc(events, more[0]);
    }
  }

  // The readings of the trace after a step.
  lemma {:induction false} TextsGrow(s: State, step: Step)
    requires Enabled(s, step)
    ensures Texts(Next(s, step).events) == Texts(s.events) + (if step.TakeToken? then step.token else "")
  {
    NextLogs(s, step);
    NoneOrOne(s.events, Logged(s, step));
  }

  lemma {:induction false} ChunksGrow(s: State, step: Step)
    requires Enabled(s, step)
    ensures var e := Next(s, step).events;
            && Nums(e) == Nums(s.events) + (if step == Synthesized(true) then [s.chunks] else [])
            && Heard(e) == Heard(s.events) + (if step == Synthesized(true) then [s.consumer.sentence] else [])
  {
    NextLogs(s, step);
    NoneOrOne(s.events, Logged(s, step));
  }

  lemma {:induction false} ErrorsGrow(s: State, step: Step)
    requires Enabled(s, step)
    ensures Errors(Next(s, step).events) == Errors(s.events) + Failed(s, step)
  {
    NextLogs(s, step);
    NoneOrOne(s.events, Logged(s, step));
  }

  // The sentences a step reports as errors.
  function Failed(s: State, step: Step): multiset<nat>
    requires Enabled(s, step)
  {
    if step == Synthesized(false) then multiset{s.consumer.sentence}
    else if Produces(s, step) && |s.queue| >= TtsAccumulator.CAPACITY then multiset{|s.sentences|}
    else multiset{}
  }

  predicate Produces(s: State, step: Step) {
    step.EmitSentence? || (step.EndOfStream? && s.tts && TrimSpace(s.buf) != "")
  }

  function Produced(s: State, step: Step): multiset<nat> {
    if Produces(s, step) then multiset{|s.sentences|} else multiset{}
  }

  lemma {:induction false} SentencesGrow(s: State, step: Step)
    requires Enabled(s, step)
    ensures |Next(s, step).sentences| == |s.sentences| + if Produces(s, step) then 1 else 0
  {
  }

  // What a step does to the order: it appends the sentence it produced, or drops the one
  // it failed to speak (or skipped on a cancelled stream), or leaves the order alone.
  datatype Change = Append(k: nat) | Remove(h: nat) | Keep

  function ChangeBy(s: State, step: Step): Change {
    if Produces(s, step) then if |s.queue| < TtsAccumulator.CAPACITY then Append(|s.sentences|) else Keep
    else if step == Synthesized(false) || (step == Receive && s.cancelled) then Remove(|Heard(s.events)|)
    else Keep
  }

  function Apply(order: seq<nat>, c: Change): seq<nat> {
    match c
    case Append(k) => order + [k]
    case Remove(h) => if h < |order| then order[..h] + order[h + 1..] else order
    case Keep => order
  }

  lemma {:induction false} ApplyAscends(order: seq<nat>, bound: nat, c: Change)
    requires Ascending(order, bound) && (c.Append? ==> c.k == bound)
    ensures Ascending(Apply(order, c), if c.Append? then bound + 1 else bound)
  {
  }

  lemma {:induction false} RemoveCounts(order: seq<nat>, h: nat)
    requires h < |order|
    ensures multiset(order) == multiset(Apply(order, Remove(h))) + multiset{order[h]}
  {
    assert order == order[..h] + [order[h]] + order[h + 1..];
  }

  lemma {:induction false} ProducingMovesLine(s: State, step: Step)
    requires Enabled(s, step) && Produces(s, step)
    ensures Next(s, step).consumer == s.consumer
    ensures Next(s, step).queue
            == if |s.queue| < TtsAccumulator.CAPACITY then s.queue + [|s.sentences|] else s.queue
  {
    match step
    case EmitSentence =>
    case EndOfStream =>
  }

  lemma {:induction false} ProducingMovesOrder(s: State, step: Step)
    requires Enabled(s, step) && Produces(s, step)
    ensures Order(Next(s, step)) == Apply(Order(s), ChangeBy(s, step))
    ensures |s.queue| <= TtsAccumulator.CAPACITY ==> |Next(s, step).queue| <= TtsAccumulator.CAPACITY
  {
    ChunksGrow(s, step);
    ProducingMovesLine(s, step);
    assert Heard(s.events) + [] == Heard(s.events);
    var front := Heard(s.events) + if s.consumer.Speaking? then [s.consumer.sentence] else [];
    assert front + (s.queue + [|s.sentences|]) == (front + s.queue) + [|s.sentences|];
  }

  lemma {:induction false} HeadMoves(heard: seq<nat>, queue: seq<nat>)
    requires queue != []
    ensures heard + [queue[0]] + queue[1..] == heard + [] + queue
    ensures Apply(heard + [] + queue, Remove(|heard|)) == heard + [] + queue[1..]
  {
    var order := heard + [] + queue;
    assert order[..|heard|] == heard && order[|heard| + 1..] == queue[1..];
  }

  lemma {:induction false} ReceiveMovesOrder(s: State)
    requires Enabled(s, Receive)
    ensures Order(Next(s, Receive)) == Apply(Order(s), ChangeBy(s, Receive))
  {
    HeadMoves(Heard(s.events), s.queue);
  }

  lemma {:induction false} SynthesizedMovesOrder(s: State, ok: bool)
    requires Enabled(s, Synthesized(ok))
    ensures Order(Next(s, Synthesized(ok))) == Apply(Order(s), ChangeBy(s, Synthesized(ok)))
  {
    ChunksGrow(s, Synthesized(ok));
    var s' := Next(s, Synthesized(ok));
    var heard, k, queue := Heard(s.events), s.consumer.sentence, s.queue;
    assert s'.queue == queue && s'.consumer == Waiting;
    MiddleGoes(heard, k, queue);
    if ok {
      assert Heard(s'.events) == heard + [k];
    } else {
      assert Heard(s'.events) == heard + [];
    }
  }

  lemma {:induction false} MiddleGoes(heard: seq<nat>, k: nat, queue: seq<nat>)
    ensures Apply(heard + [k] + queue, Remove(|heard|)) == heard + [] + queue
    ensures heard + [k] + queue == (heard + [k]) + [] + queue
    ensures heard + [] == heard
  {
  }

  lemma {:induction false} OthersKeepOrder(s: State, step: Step)
    requires Enabled(s, step) && !Produces(s, step) && !step.Receive? && !step.Synthesized?
    ensures Order(Next(s, step)) == Apply(Order(s), ChangeBy(s, step))
    ensures Next(s, step).queue == s.queue
  {
    ChunksGrow(s, step);
    OthersKeepLine(s, step);
    assert Heard(s.events) + [] == Heard(s.events);
  }

  lemma {:induction false} OthersKeepLine(s: State, step: Step)
    requires Enabled(s, step) && !Produces(s, step) && !step.Receive? && !step.Synthesized?
    ensures Next(s, step).queue == s.queue
    ensures Next(s, step).consumer.Speaking? == s.consumer.Speaking?
    ensures s.consumer.Speaking? ==> Next(s, step).consumer == s.consumer
  {
  }

  lemma {:induction false} StepMovesOrder(s: State, step: Step)
    requires Enabled(s, step)
    ensures Order(Next(s, step)) == Apply(Order(s), ChangeBy(s, step))
    ensures |s.queue| <= TtsAccumulator.CAPACITY ==> |Next(s, step).queue| <= TtsAccumulator.CAPACITY
  {
    if Produces(s, step) {
      ProducingMovesOrder(s, step);
    } else if step.Receive? {
      ReceiveMovesOrder(s);
    } else if step.Synthesized? {
      SynthesizedMovesOrder(s, step.ok);
    } else {
      OthersKeepOrder(s, step);
    }
  }

  lemma {:induction false} NumsStayInOrder(s: State, step: Step)
    requires OrderOk(s) && Enabled(s, step)
    ensures var s' := Next(s, step);
            |Nums(s'.events)| == s'.chunks && forall i | 0 <= i < s'.chunks :: Nums(s'.events)[i] == i
  {
    ChunksGrow(s, step);
    assert Next(s, step).chunks == s.chunks + if step == Synthesized(true) then 1 else 0;
  }

  lemma {:induction false} StepKeepsOrder(s: State, step: Step)
    requires OrderOk(s) && Enabled(s, step)
    ensures OrderOk(Next(s, step))
  {
    SentencesGrow(s, step);
    StepMovesOrder(s, step);
    ApplyAscends(Order(s), |s.sentences|, ChangeBy(s, step));
    NumsStayInOrder(s, step);
  }

  lemma {:induction false} ChangeCounts(s: State, step: Step)
    requires Enabled(s, step) && !s.cancelled
    ensures Failed(s, step) + multiset(Apply(Order(s), ChangeBy(s, step))) == multiset(Order(s)) + Produced(s, step)
  {
    if Produces(s, step) {
    } else if step == Synthesized(false) {
      assert Order(s)[|Heard(s.events)|] == s.consumer.sentence;
      RemoveCounts(Order(s), |Heard(s.events)|);
    } else {
      assert ChangeBy(s, step) == Keep;
    }
  }

  lemma {:induction false} Regroup(errors: multiset<nat>, failed: multiset<nat>, order: multiset<nat>,
                                   order': multiset<nat>, produced: multiset<nat>)
    requires failed + order' == order + produced
    ensures (errors + failed) + order' == (errors + order) + produced
  {
    forall k ensures ((errors + failed) + order')[k] == ((errors + order) + produced)[k] {
      assert (failed + order')[k] == (order + produced)[k];
    }
  }

  // Nothing is lost or doubled on the way from the splitter to the client.
  lemma {:induction false} PlacesGrow(s: State, step: Step)
    requires Enabled(s, step) && !s.cancelled
    ensures Places(Next(s, step)) == Places(s) + Produced(s, step)
  {
    ErrorsGrow(s, step);
    StepMovesOrder(s, step);
    ChangeCounts(s, step);
    Regroup(Errors(s.events), Failed(s, step), multiset(Order(s)), multiset(Order(Next(s, step))), Produced(s, step));
  }

  lemma {:induction false} StepKeepsAccounted(s: State, step: Step)
    requires Accounted(s) && Enabled(s, step) && !s.cancelled
    ensures Accounted(Next(s, step))
  {
    PlacesGrow(s, step);
    SentencesGrow(s, step);
  }

  lemma {:induction false} TokenKeepsText(s: State, token: string)
    requires PhasesOk(s) && TextOk(s) && Enabled(s, TakeToken(token))
    ensures TextOk(Next(s, TakeToken(token)))
  {
    TextsGrow(s, TakeToken(token));
    SplitAppend(s.text, token);
  }

  lemma {:induction false} EmitKeepsText(s: State)
    requires PhasesOk(s) && TextOk(s) && Enabled(s, EmitSentence)
    ensures TextOk(Next(s, EmitSentence))
  {
    TextsGrow(s, EmitSentence);
    var i := FirstBoundary(s.buf, 0);
    ConcatAssociates(s.sentences, [s.buf[..i + 2]], Sentences(s.buf[i + 2..]));
  }

  lemma {:induction false} StepKeepsText(s: State, step: Step)
    requires PhasesOk(s) && TextOk(s) && Enabled(s, step)
    ensures TextOk(Next(s, step))
  {
    if step.TakeToken? {
      TokenKeepsText(s, step.token);
    } else if step.EmitSentence? {
      EmitKeepsText(s);
    } else {
      TextsGrow(s, step);
      OthersKeepText(s, step);
    }
  }

  lemma {:induction false} OthersKeepText(s: State, step: Step)
    requires PhasesOk(s) && TextOk(s) && Enabled(s, step) && !step.TakeToken? && !step.EmitSentence?
    requires Texts(Next(s, step).events) == Texts(s.events) + ""
    ensures TextOk(Next(s, step))
  {
    match step
    case EndToken => assert s.sentences + [] == s.sentences;
    case EndOfStream =>
    case FailStream =>
    case Join =>
    case Persist(ok) =>
    case SignalDone =>
    case Receive =>
    case Synthesized(ok) =>
    case SeeClosed =>
    case SeeCancelled =>
  }

  lemma {:induction false} StepKeepsInv(s: State, step: Step)
    requires Inv(s) && Enabled(s, step)
    ensures Inv(Next(s, step))
  {
    StepKeepsPhases(s, step);
    StepKeepsOrder(s, step);
    StepKeepsDone(s, step);
    StepKeepsText(s, step);
    if !s.cancelled { StepKeepsAccounted(s, step); }
  }

  lemma {:induction false} RunKeepsInv(s: State, steps: seq<Step>)
    requires Inv(s) && LegalRun(s, steps)
    ensures Inv(Run(s, steps))
    decreases |steps|
  {
    if steps == [] {
    } else {
      StepKeepsInv(s, steps[0]);
      RunKeepsInv(Next(s, steps[0]), steps[1..]);
    }
  }

  lemma {:induction false} ConfigStays(s: State, steps: seq<Step>)
    requires LegalRun(s, steps)
    ensures Run(s, steps).tts == s.tts
    decreases |steps|
  {
    if steps == [] {
    } else {
      ConfigStays(Next(s, steps[0]), steps[1..]);
    }
  }

  // ---- Main results ----

  // A signalled reply: what it says and how it ends.
  lemma {:induction false} DoneTrace(s: State)
    requires TextOk(s) && PhasesOk(s) && DoneOk(s) && InterviewerDone in s.events
    ensures s.saved == Some(Texts(s.events)) && s.events[|s.events| - 1] == InterviewerDone
    ensures forall i | 0 <= i < |s.events| - 1 :: s.events[i] != InterviewerDone
    ensures s.tts ==> s.sentences == Spoken(Texts(s.events)) && TtsDone in s.events
    ensures s.tts ==> s.consumer == Exited && s.queue == [] && !s.cancelled
  {
    var i :| 0 <= i < |s.events| && s.events[i] == InterviewerDone;
  }

  // And what has been spoken by then.
  lemma {:induction false} DoneSpeech(s: State)
    requires OrderOk(s) && Accounted(s) && s.consumer == Exited && s.queue == []
    ensures forall i | 0 <= i < |Nums(s.events)| :: Nums(s.events)[i] == i
    ensures Ascending(Heard(s.events), |s.sentences|)
    ensures Errors(s.events) + multiset(Heard(s.events)) == UpTo(|s.sentences|)
  {
    assert Order(s) == Heard(s.events);
  }

  // A reply that has signalled InterviewerDone has streamed exactly the text it persisted,
  // signalled once and last, and, with speech on, has sent TtsDone after every chunk,
  // numbered 0, 1, 2, ... in sentence order, with each sentence of the one-shot split
  // having exactly one chunk or one error.
  predicate IsComplete(s: State) {
    var nums, heard := Nums(s.events), Heard(s.events);
    && s.saved == Some(Texts(s.events))
    && s.events != [] && s.events[|s.events| - 1] == InterviewerDone
    && (forall i | 0 <= i < |s.events| - 1 :: s.events[i] != InterviewerDone)
    && (s.tts ==>
         && s.sentences == Spoken(Texts(s.events))
         && TtsDone in s.events
         && (forall i, j | 0 <= i < j < |s.events| && s.events[i] == TtsDone :: !IsSpeech(s.events[j]))
         && (forall i | 0 <= i < |nums| :: nums[i] == i)
         && Ascending(heard, |s.sentences|)
         && Errors(s.events) + multiset(heard) == UpTo(|s.sentences|))
  }

  lemma {:induction false} DoneIsComplete(s: State)
    requires Inv(s) && InterviewerDone in s.events
    ensures IsComplete(s)
  {
    DoneTrace(s);
    if s.tts { DoneSpeech(s); }
  }

  // That is so after any interleaving of the two goroutines.
  lemma {:induction false} CompletedReply(tts: bool, steps: seq<Step>)
    requires LegalRun(Init(tts), steps) && InterviewerDone in Run(Init(tts), steps).events
    ensures IsComplete(Run(Init(tts), steps)) && Run(Init(tts), steps).tts == tts
  {
    RunKeepsInv(Init(tts), steps);
    ConfigStays(Init(tts), steps);
    DoneIsComplete(Run(Init(tts), steps));
  }

  // The sentence being synthesized.
  function Voicing(s: State): seq<nat> { if s.consumer.Speaking? then [s.consumer.sentence] else [] }

  // The channel holds at most 32 sentences, and chunks are numbered without gaps in the
  // order of their sentences. While the stream has not failed, each sentence produced so
  // far is heard, or reported as an error, or being spoken, or queued, and once only; a
  // failed stream leaves no InterviewerDone and nothing persisted.
  predicate IsOrderly(s: State) {
    var order := Heard(s.events) + Voicing(s) + s.queue;
    && |s.queue| <= 32
    && (forall i | 0 <= i < |Nums(s.events)| :: Nums(s.events)[i] == i)
    && Ascending(order, |s.sentences|)
    && (!s.cancelled ==> Errors(s.events) + multiset(order) == UpTo(|s.sentences|))
    && (s.cancelled ==> s.saved.None? && InterviewerDone !in s.events && TtsDone !in s.events)
    && (s.producer != Ended ==> InterviewerDone !in s.events)
  }

  lemma {:induction false} InvIsOrderly(s: State)
    requires Inv(s)
    ensures IsOrderly(s)
  {
    SpeechSoFar(s);
  }

  // Every reachable state is in that order, whether the reply ends well or not.
  lemma {:induction false} ReachableReply(tts: bool, steps: seq<Step>)
    requires LegalRun(Init(tts), steps)
    ensures IsOrderly(Run(Init(tts), steps))
  {
    RunKeepsInv(Init(tts), steps);
    InvIsOrderly(Run(Init(tts), steps));
  }

  lemma {:induction false} SpeechSoFar(s: State)
    requires OrderOk(s) && (!s.cancelled ==> Accounted(s))
    ensures var order := Heard(s.events) + Voicing(s) + s.queue;
            && |s.queue| <= 32
            && (forall i | 0 <= i < |Nums(s.events)| :: Nums(s.events)[i] == i)
            && Ascending(order, |s.sentences|)
            && (!s.cancelled ==> Errors(s.events) + multiset(order) == UpTo(|s.sentences|))
  {
    assert Order(s) == Heard(s.events) + Voicing(s) + s.queue;
  }

  // ---- Close returns ----

  // Steps of the speech goroutine.
  predicate IsConsumerStep(step: Step) {
    step.Receive? || step.Synthesized? || step.SeeClosed? || step.SeeCancelled?
  }

  predicate IsStopped(s: State) { s.consumer in {Absent, Exited} }

  function Work(s: State): nat {
    2 * |s.queue| + (if s.consumer.Speaking? then 1 else 0) + (if IsStopped(s) then 0 else 1)
  }

  lemma {:induction false} SpeechStep(s: State, step: Step)
    requires Enabled(s, step) && IsConsumerStep(step)
    ensures Work(Next(s, step)) < Work(s) && Next(s, step).producer == s.producer
  {
    match step
    case Receive =>
    case Synthesized(ok) =>
    case SeeClosed =>
    case SeeCancelled =>
  }

  // While the producer waits, the speech goroutine has a step unless it has stopped.
  lemma {:induction false} SpeechProgresses(s: State) returns (step: Step)
    requires PhasesOk(s) && s.producer in {Closing, Failing} && !IsStopped(s)
    ensures IsConsumerStep(step) && Enabled(s, step)
  {
    step := if s.consumer.Speaking? then Synthesized(true)
            else if s.queue != [] then Receive
            else if s.closed then SeeClosed else SeeCancelled;
  }

  predicate OnlySpeech(steps: seq<Step>) { forall i | 0 <= i < |steps| :: IsConsumerStep(steps[i]) }

  lemma {:induction false} StoppedIff(s: State)
    requires PhasesOk(s) && s.producer in {Closing, Failing}
    ensures IsStopped(s) <==> forall step | IsConsumerStep(step) :: !Enabled(s, step)
    ensures IsStopped(s) <==> Enabled(s, Join)
  {
    if !IsStopped(s) {
      var step := SpeechProgresses(s);
      assert IsConsumerStep(step) && Enabled(s, step);
    }
  }

  lemma {:induction false} SpeechUsesWork(s: State, steps: seq<Step>)
    requires PhasesOk(s) && LegalRun(s, steps) && OnlySpeech(steps)
    ensures |steps| + Work(Run(s, steps)) <= Work(s)
    ensures Run(s, steps).producer == s.producer && PhasesOk(Run(s, steps))
    decreases |steps|
  {
    if steps == [] {
    } else {
      assert forall i | 0 <= i < |steps[1..]| :: steps[1..][i] == steps[i + 1];
      SpeechStep(s, steps[0]);
      StepKeepsPhases(s, steps[0]);
      SpeechUsesWork(Next(s, steps[0]), steps[1..]);
    }
  }

  // Once the channel is closed or the context cancelled, the speech goroutine takes at
  // most Work(s) steps, and where it has none left it has stopped and Close returns.
  lemma {:induction false} SpeechTerminates(s: State, steps: seq<Step>)
    requires PhasesOk(s) && s.producer in {Closing, Failing} && LegalRun(s, steps) && OnlySpeech(steps)
    ensures var s' := Run(s, steps);
            && |steps| <= Work(s)
            && (IsStopped(s') <==> forall step | IsConsumerStep(step) :: !Enabled(s', step))
            && (IsStopped(s') <==> Enabled(s', Join))
  {
    SpeechUsesWork(s, steps);
    StoppedIff(Run(s, steps));
  }

  // And there is such a run: from wherever the producer waits, Close does return.
  lemma {:induction false} CloseReturns(s: State) returns (steps: seq<Step>)
    requires PhasesOk(s) && s.producer in {Closing, Failing}
    ensures LegalRun(s, steps) && OnlySpeech(steps) && Enabled(Run(s, steps), Join)
    decreases Work(s)
  {
    if IsStopped(s) {
      steps := [];
    } else {
      var step := SpeechProgresses(s);
      StepKeepsPhases(s, step);
      SpeechStep(s, step);
      var rest := CloseReturns(Next(s, step));
      steps := [step] + rest;
      assert steps[1..] == rest;
    }
  }
}
