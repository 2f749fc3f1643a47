/** How a reply ends, and that it can end well. */
module ReplyEnds {
  import opened Options
  import opened Splitter
  import opened ReplyStream

  // ---- Every end is one of three ----

  predicate EndsOk(s: State) {
    && (StreamError in s.events <==> s.cancelled)
    && (PersistError in s.events <==> s.producer == Ended && !s.cancelled && s.saved.None?)
  }

  lemma {:induction false} StepKeepsEnds(s: State, step: Step)
    requires PhasesOk(s) && EndsOk(s) && Enabled(s, step)
    ensures EndsOk(Next(s, step))
  {
    NextLogs(s, step);
    var more, events := Logged(s, step), Next(s, step).events;
    assert StreamError in events <==> StreamError in s.events || StreamError in more;
    assert PersistError in events <==> PersistError in s.events || PersistError in more;
  }

  lemma {:induction false} RunKeepsEnds(s: State, steps: seq<Step>)
    requires PhasesOk(s) && EndsOk(s) && LegalRun(s, steps)
    ensures EndsOk(Run(s, steps))
    decreases |steps|
  {
    if steps == [] {
    } else {
      StepKeepsPhases(s, steps[0]);
      StepKeepsEnds(s, steps[0]);
      RunKeepsEnds(Next(s, steps[0]), steps[1..]);
    }
  }

  // It has failed in its stream, or failed to be persisted, or been persisted in full and
  // signalled last; before its end neither of the last two has happened.
  predicate EndsProperly(s: State) {
    if s.producer != Ended then PersistError !in s.events && InterviewerDone !in s.events
    else if StreamError in s.events || PersistError in s.events then
      && s.saved == None && InterviewerDone !in s.events
      && !(StreamError in s.events && PersistError in s.events)
    else s.saved == Some(Texts(s.events)) && s.events != [] && s.events[|s.events| - 1] == InterviewerDone
  }

  lemma {:induction false} EndIsProper(s: State)
    requires TextOk(s) && PhasesOk(s) && DoneOk(s) && EndsOk(s)
    ensures EndsProperly(s)
  {
    if s.producer == Ended && s.saved.Some? { DoneTrace(s); }
  }

  lemma {:induction false} RunEndsProperly(s: State, steps: seq<Step>)
    requires Inv(s) && EndsOk(s) && LegalRun(s, steps)
    ensures EndsProperly(Run(s, steps))
  {
    RunKeepsInv(s, steps);
    RunKeepsEnds(s, steps);
    EndIsProper(Run(s, steps));
  }

  lemma {:induction false} InitOk(s: State, tts: bool)
    requires s == Init(tts)
    ensures Inv(s) && EndsOk(s)
  {
    NoToken(s.text);
    assert OrderOk(s) && PhasesOk(s) && DoneOk(s);
    assert TextOk(s);
  }

  // So it is after any interleaving.
  lemma {:induction false} HowItEnds(tts: bool, steps: seq<Step>)
    requires LegalRun(Init(tts), steps)
    ensures EndsProperly(Run(Init(tts), steps))
  {
    InitOk(Init(tts), tts);
    RunEndsProperly(Init(tts), steps);
  }

  // With fewer than 32 sentences waiting none is dropped: only a failed synthesis is
  // reported as an error.
  lemma {:induction false} DropsOnlyWhenFull(s: State, step: Step)
    requires Enabled(s, step) && |s.queue| < 32 && step != Synthesized(false)
    ensures Errors(Next(s, step).events) == Errors(s.events)
  {
    ErrorsGrow(s, step);
  }

  // ---- And it can end well ----

  lemma {:induction false} Cons(s: State, step: Step, rest: seq<Step>)
    requires Enabled(s, step) && LegalRun(Next(s, step), rest)
    ensures LegalRun(s, [step] + rest) && Run(s, [step] + rest) == Run(Next(s, step), rest)
  {
    assert ([step] + rest)[1..] == rest;
  }

  lemma {:induction false} Sequel(s: State, first: seq<Step>, rest: seq<Step>)
    requires LegalRun(s, first) && LegalRun(Run(s, first), rest)
    ensures LegalRun(s, first + rest) && Run(s, first + rest) == Run(Run(s, first), rest)
    decreases |first|
  {
    if first == [] {
      assert [] + rest == rest;
    } else {
      assert (first + rest)[1..] == first[1..] + rest;
      Sequel(Next(s, first[0]), first[1..], rest);
    }
  }

  // Nothing is under way but the turn goroutine, and nothing has gone wrong.
  predicate Calm(s: State, producer: Producer, tts: bool, text: string) {
    && s.tts == tts && s.producer == producer && s.text == text && s.queue == [] && !s.cancelled && s.saved.None?
    && s.consumer == (if tts then Waiting else Absent)
    && Errors(s.events) == multiset{}
  }

  // The one queued sentence is spoken.
  lemma {:induction false} SpeakOne(s: State)
    requires s.consumer == Waiting && |s.queue| == 1 && !s.cancelled && Errors(s.events) == multiset{}
    ensures LegalRun(s, [Receive, Synthesized(true)])
    ensures var s' := Run(s, [Receive, Synthesized(true)]);
            && Errors(s'.events) == multiset{}
            && s' == s.(queue := [], chunks := s.chunks + 1, events := s'.events)
  {
    var s1 := Next(s, Receive);
    Cons(s1, Synthesized(true), []);
    assert [Synthesized(true)] + [] == [Synthesized(true)];
    Cons(s, Receive, [Synthesized(true)]);
    Snoc(s1.events, Chunk(s1.chunks, s1.consumer.sentence));
  }

  // Inside OnToken: every sentence of the buffer is sent and spoken.
  lemma {:induction false} SpeakBuffer(s: State, text: string) returns (steps: seq<Step>)
    requires Calm(s, Splitting, true, text)
    ensures LegalRun(s, steps) && Calm(Run(s, steps), Streaming, true, text)
    decreases |s.buf|
  {
    if FirstBoundary(s.buf, 0) == -1 {
      Cons(s, EndToken, []);
      steps := [EndToken] + [];
    } else {
      var s1 := Next(s, EmitSentence);
      SpeakOne(s1);
      var s2 := Run(s1, [Receive, Synthesized(true)]);
      var rest := SpeakBuffer(s2, text);
      Sequel(s1, [Receive, Synthesized(true)], rest);
      Cons(s, EmitSentence, [Receive, Synthesized(true)] + rest);
      steps := [EmitSentence] + ([Receive, Synthesized(true)] + rest);
    }
  }

  lemma {:induction false} StreamOne(s: State, tts: bool, text: string, token: string) returns (steps: seq<Step>)
    requires Calm(s, Streaming, tts, text)
    ensures LegalRun(s, steps) && Calm(Run(s, steps), Streaming, tts, text + token)
  {
    var s1 := Next(s, TakeToken(token));
    Snoc(s.events, Token(token));
    var rest := [];
    if tts { rest := SpeakBuffer(s1, text + token); }
    Cons(s, TakeToken(token), rest);
    steps := [TakeToken(token)] + rest;
  }

  lemma {:induction false} StreamAll(s: State, tts: bool, text: string, tokens: seq<string>) returns (steps: seq<Step>)
    requires Calm(s, Streaming, tts, text)
    ensures LegalRun(s, steps) && Calm(Run(s, steps), Streaming, tts, text + Concat(tokens))
    decreases |tokens|
  {
    if tokens == [] {
      steps := [];
      assert text + Concat(tokens) == text;
    } else {
      var first := StreamOne(s, tts, text, tokens[0]);
      var rest := StreamAll(Run(s, first), tts, text + tokens[0], tokens[1..]);
      FirstToken(text, tokens);
      Sequel(s, first, rest);
      steps := first + rest;
    }
  }

  // After the last token: the rest is spoken, and the speech goroutine sees the channel
  // closed.
  lemma {:induction false} SpeakRest(s: State, text: string) returns (steps: seq<Step>)
    requires Calm(s, Streaming, true, text)
    ensures LegalRun(s, steps)
    ensures var s' := Run(s, steps);
            && s'.tts && s'.producer == Closing && s'.consumer == Exited && s'.text == text && !s'.cancelled
            && Errors(s'.events) == multiset{}
  {
    var s1 := Next(s, EndOfStream);
    var spoken: seq<Step> := [];
    if s1.queue != [] {
      SpeakOne(s1);
      spoken := [Receive, Synthesized(true)];
    }
    var s2 := Run(s1, spoken);
    Cons(s2, SeeClosed, []);
    assert [SeeClosed] + [] == [SeeClosed];
    Snoc(s2.events, TtsDone);
    Sequel(s1, spoken, [SeeClosed]);
    Cons(s, EndOfStream, spoken + [SeeClosed]);
    steps := [EndOfStream] + (spoken + [SeeClosed]);
  }

  lemma {:induction false} Saves(s: State) returns (steps: seq<Step>)
    requires s.producer == Closing && s.consumer in {Absent, Exited}
    ensures LegalRun(s, steps)
    ensures Run(s, steps) == s.(producer := Ended, saved := Some(s.text), events := s.events + [InterviewerDone])
  {
    var s1 := Next(s, Join);
    var s2 := Next(s1, Persist(true));
    Cons(s2, SignalDone, []);
    Cons(s1, Persist(true), [SignalDone] + []);
    Cons(s, Join, [Persist(true)] + ([SignalDone] + []));
    steps := [Join] + ([Persist(true)] + ([SignalDone] + []));
  }

  // Whatever the LLM says, token by token, there is a run in which all of it is persisted,
  // every sentence of it spoken, and the client told at the very end.
  lemma {:induction false} ReplyCompletes(tts: bool, tokens: seq<string>) returns (steps: seq<Step>)
    ensures LegalRun(Init(tts), steps)
    ensures var s := Run(Init(tts), steps);
            && IsComplete(s)
            && s.saved == Some(Concat(tokens))
            && (tts ==> |Heard(s.events)| == |Spoken(Concat(tokens))| && Errors(s.events) == multiset{})
  {
    var streaming := StreamAll(Init(tts), tts, "", tokens);
    assert "" + Concat(tokens) == Concat(tokens);
    var s := Run(Init(tts), streaming);
    var closing;
    if tts {
      closing := SpeakRest(s, Concat(tokens));
    } else {
      Cons(s, EndOfStream, []);
      closing := [EndOfStream] + [];
    }
    var s1 := Run(s, closing);
    var saving := Saves(s1);
    Sequel(s, closing, saving);
    Sequel(Init(tts), streaming, closing + saving);
    steps := streaming + (closing + saving);
    Snoc(s1.events, InterviewerDone);
    CompletedReply(tts, steps);
    if tts { AllHeard(Run(Init(tts), steps)); }
  }

  // Without errors the complete reply is heard in full.
  lemma {:induction false} AllHeard(s: State)
    requires IsComplete(s) && s.tts && Errors(s.events) == multiset{}
    ensures |Heard(s.events)| == |Spoken(Texts(s.events))|
  {
    var n := |s.sentences|;
    assert multiset(Heard(s.events)) == UpTo(n);
    UpToSize(n);
  }

  lemma {:induction false} UpToSize(n: nat)
    ensures |UpTo(n)| == n
  {
    if n == 0 {
    } else {
      UpToSize(n - 1);
    }
  }
}
