/** What a turn leaves behind, whatever fails on its way. */
module SessionTurns {
  import opened Options
  import opened Sessions
  import opened Transcript
  import opened SessionMachine
  import opened SessionInvariants
  import opened SessionTheorems

  // What happens to a turn: whether each statement takes effect and is acknowledged,
  // and the reply of the LLM, if it comes.
  datatype Luck = Luck(acquireTold: bool, loads: bool, sequences: bool,
                       answerStored: bool, answerTold: bool, reply: Option<string>,
                       replyStored: bool, replyTold: bool, releaseApplied: bool, finishApplied: bool)

  predicate Possible(luck: Luck) {
    (luck.answerTold ==> luck.answerStored) && (luck.replyTold ==> luck.replyStored)
  }

  // ---- The steps a turn consists of ----

  function AnswerSteps(id: nat, input: Input, m1: nat, luck: Luck): seq<Step> {
    if !luck.loads then [OfTurn(id, Abort)]
    else if !luck.sequences then [OfTurn(id, LoadMessages), OfTurn(id, Abort)]
    else [OfTurn(id, LoadMessages), OfTurn(id, LoadSequence),
          OfMessage(id, Answer(input, m1, luck.answerStored, luck.answerTold))]
  }

  // `saved`: the reply was stored, and the turn learned of it.
  function ReplySteps(id: nat, m2: nat, luck: Luck, saved: bool): seq<Step> {
    if luck.reply.None? then [OfTurn(id, Abort)]
    else if !saved then [OfMessage(id, Reply(luck.reply.value, m2, luck.replyStored, luck.replyTold))]
    else [OfMessage(id, Reply(luck.reply.value, m2, luck.replyStored, luck.replyTold)),
          OfTurn(id, Release(luck.releaseApplied))]
  }

  // `asked`: the turn got as far as asking the LLM.
  function ExecuteSteps(id: nat, input: Input, m1: nat, m2: nat, luck: Luck, asked: bool, saved: bool): seq<Step> {
    [OfTurn(id, Acquire(luck.acquireTold))]
    + (BodySteps(id, input, m1, m2, luck, asked, saved) + [OfTurn(id, Finish(luck.finishApplied))])
  }

  function BodySteps(id: nat, input: Input, m1: nat, m2: nat, luck: Luck, asked: bool, saved: bool): seq<Step> {
    AnswerSteps(id, input, m1, luck) + if asked then ReplySteps(id, m2, luck, saved) else []
  }

  // ---- What should come of it ----

  // An opening turn needs no answer, nor does one whose predecessor lost its reply.
  predicate NeedsNoAnswer(messages: seq<Message>, input: Input) {
    if messages == [] then input == Text("") else messages[|messages| - 1].role == Candidate
  }

  // The answer is stored.
  predicate Answers(messages: seq<Message>, input: Input, luck: Luck) {
    && luck.loads && luck.sequences
    && !NeedsNoAnswer(messages, input) && CandidateContent(input).Content? && luck.answerStored
  }

  // The LLM is asked.
  predicate AsksLLM(messages: seq<Message>, input: Input, luck: Luck) {
    luck.loads && luck.sequences
    && (NeedsNoAnswer(messages, input) || (Answers(messages, input, luck) && luck.answerTold))
  }

  // The reply is stored.
  predicate Replies(messages: seq<Message>, input: Input, luck: Luck) {
    AsksLLM(messages, input, luck) && luck.reply.Some? && luck.replyStored
  }

  function WithAnswer(messages: seq<Message>, input: Input, m1: nat, luck: Luck): seq<Message> {
    if Answers(messages, input, luck)
    then messages + [Message(m1, |messages| + 1, Candidate, CandidateContent(input).text)] else messages
  }

  function WithReply(messages: seq<Message>, input: Input, m1: nat, m2: nat, luck: Luck): seq<Message> {
    var asked := WithAnswer(messages, input, m1, luck);
    if Replies(messages, input, luck)
    then asked + [Message(m2, |asked| + 1, Interviewer, luck.reply.value)] else asked
  }

  // The lock is let go: early, once the reply is stored, or else by the deferred release.
  predicate FreesLock(messages: seq<Message>, input: Input, luck: Luck) {
    if Replies(messages, input, luck) && luck.replyTold then luck.releaseApplied else luck.finishApplied
  }

  // The turn's mark on the session.
  ghost predicate Leaves(s: State, s': State, input: Input, m1: nat, m2: nat, luck: Luck) {
    && s'.messages == WithReply(s.messages, input, m1, m2, luck)
    && (if FreesLock(s.messages, input, luck) then s'.row.status == Active && s'.since == None
        else s'.row.status == Generating && s'.since == Some(s.now))
    && s'.row == s.row.(status := s'.row.status, spoken := s.row.spoken || Answers(s.messages, input, luck))
    && s'.turns == s.turns && s'.evaluation == s.evaluation && s'.enqueued == s.enqueued && s'.now == s.now
  }

  // ---- It does ----

  lemma {:induction false} HeadStep(s: State, step: Step, rest: seq<Step>)
    ensures LegalRun(s, [step] + rest) <==> Enabled(s, step) && LegalRun(Next(s, step), rest)
    ensures LegalRun(s, [step] + rest) ==> Run(s, [step] + rest) == Run(Next(s, step), rest)
  {
    assert ([step] + rest)[1..] == rest;
  }

  lemma {:induction false} RunParts(s: State, first: seq<Step>, rest: seq<Step>)
    ensures LegalRun(s, first + rest) <==> LegalRun(s, first) && LegalRun(Run(s, first), rest)
    ensures LegalRun(s, first + rest) ==> Run(s, first + rest) == Run(Run(s, first), rest)
    decreases |first|
  {
    if first == [] {
      assert [] + rest == rest;
    } else {
      assert first + rest == [first[0]] + (first[1..] + rest) && first == [first[0]] + first[1..];
      HeadStep(s, first[0], first[1..] + rest);
      HeadStep(s, first[0], first[1..]);
      if Enabled(s, first[0]) { RunParts(Next(s, first[0]), first[1..], rest); }
    }
  }

  lemma {:induction false} ThreeSteps(s: State, a: Step, b: Step, c: Step)
    ensures LegalRun(s, [a, b, c])
            <==> Enabled(s, a) && Enabled(Next(s, a), b) && Enabled(Next(Next(s, a), b), c)
    ensures LegalRun(s, [a, b, c]) ==> Run(s, [a, b, c]) == Next(Next(Next(s, a), b), c)
  {
    assert [a, b, c] == [a] + ([b] + ([c] + []));
    HeadStep(s, a, [b] + ([c] + []));
    if Enabled(s, a) {
      HeadStep(Next(s, a), b, [c] + []);
      if Enabled(Next(s, a), b) { HeadStep(Next(Next(s, a), b), c, []); }
    }
  }

  lemma {:induction false} TwoSteps(s: State, a: Step, b: Step)
    ensures LegalRun(s, [a, b]) <==> Enabled(s, a) && Enabled(Next(s, a), b)
    ensures LegalRun(s, [a, b]) ==> Run(s, [a, b]) == Next(Next(s, a), b)
  {
    assert [a, b] == [a] + ([b] + []);
    HeadStep(s, a, [b] + []);
    if Enabled(s, a) { HeadStep(Next(s, a), b, []); }
  }

  lemma {:induction false} OneStep(s: State, a: Step)
    ensures LegalRun(s, [a]) <==> Enabled(s, a)
    ensures LegalRun(s, [a]) ==> Run(s, [a]) == Next(s, a)
  {
    assert [a] == [a] + [];
    HeadStep(s, a, []);
  }

  // After the first half: the LLM is being asked with the transcript, or nothing remains to
  // be done but to let go.
  ghost predicate HalfWay(s: State, s': State, id: nat, messages: seq<Message>, asked: bool, spoken: bool) {
    && id in s.turns && id in s'.turns
    && s'.messages == messages
    && s'.turns == s.turns[id := s'.turns[id]] && !s'.turns[id].released
    && s'.turns[id].phase == (if asked then Replying else Done)
    && (asked ==> s'.turns[id].sequence == |messages|)
    && s'.row == s.row.(spoken := spoken) && s'.since == s.since
    && s'.evaluation == s.evaluation && s'.enqueued == s.enqueued && s'.now == s.now
  }

  lemma {:induction false} AnswerLeaves(s: State, id: nat, input: Input, m1: nat, luck: Luck)
    requires Gapless(s.messages) && Possible(luck) && AtPhase(s, id, Acquired) && !s.turns[id].released
    ensures LegalRun(s, AnswerSteps(id, input, m1, luck))
    ensures HalfWay(s, Run(s, AnswerSteps(id, input, m1, luck)), id, WithAnswer(s.messages, input, m1, luck),
                    AsksLLM(s.messages, input, luck), s.row.spoken || Answers(s.messages, input, luck))
  {
    var load, number := OfTurn(id, LoadMessages), OfTurn(id, LoadSequence);
    if !luck.loads {
      OneStep(s, OfTurn(id, Abort));
    } else if !luck.sequences {
      TwoSteps(s, load, OfTurn(id, Abort));
    } else {
      MaxSeqIsCount(s.messages);
      var ready := Next(Next(s, load), number);
      AnswerFromReady(ready, id, input, m1, luck);
      ThreeSteps(s, load, number, OfMessage(id, Answer(input, m1, luck.answerStored, luck.answerTold)));
    }
  }

  lemma {:induction false} AnswerFromReady(s: State, id: nat, input: Input, m1: nat, luck: Luck)
    requires Gapless(s.messages) && Possible(luck) && AtPhase(s, id, Ready) && !s.turns[id].released
    requires s.turns[id].messages == s.messages && s.turns[id].sequence == |s.messages| && luck.loads && luck.sequences
    ensures HalfWay(s, MessageNext(s, id, Answer(input, m1, luck.answerStored, luck.answerTold)), id,
                    WithAnswer(s.messages, input, m1, luck),
                    AsksLLM(s.messages, input, luck), s.row.spoken || Answers(s.messages, input, luck))
  {
    var m := Message(m1, |s.messages| + 1, Candidate, if CandidateContent(input).Content? then CandidateContent(input).text else "");
    InsertIntoGapless(s.messages, m);
  }

  // After the reply, or without one.
  ghost predicate ReplyDone(s: State, s': State, id: nat, m2: nat, luck: Luck)
    requires id in s.turns
  {
    var kept := luck.reply.Some? && luck.replyStored;
    var early := kept && luck.replyTold;
    && AtPhase(s', id, Done) && s'.turns == s.turns[id := s'.turns[id]] && s'.turns[id].released == early
    && s'.messages == s.messages + (if kept then [Message(m2, |s.messages| + 1, Interviewer, luck.reply.value)] else [])
    && (if early && luck.releaseApplied then s'.row == s.row.(status := Active) && s'.since == None
        else s'.row == s.row && s'.since == s.since)
    && s'.evaluation == s.evaluation && s'.enqueued == s.enqueued && s'.now == s.now
  }

  lemma {:induction false} ReplyStored(s: State, id: nat, text: string, m2: nat, stored: bool, told: bool)
    requires Gapless(s.messages) && AtPhase(s, id, Replying) && s.turns[id].sequence == |s.messages| && (told ==> stored)
    ensures var s' := MessageNext(s, id, Reply(text, m2, stored, told));
            && AtPhase(s', id, if told then Saved else Done)
            && s' == s.(messages := s'.messages, turns := s.turns[id := s.turns[id].(phase := if told then Saved else Done)])
            && s'.messages == s.messages + if stored then [Message(m2, |s.messages| + 1, Interviewer, text)] else []
  {
    InsertIntoGapless(s.messages, Message(m2, |s.messages| + 1, Interviewer, text));
    assert s.row.(spoken := s.row.spoken || false) == s.row;
    assert s.messages + [] == s.messages;
  }

  lemma {:induction false} EarlyRelease(s: State, id: nat, applied: bool)
    requires AtPhase(s, id, Saved) && s.row.status == Generating
    ensures var s' := TurnNext(s, id, Release(applied));
            && s' == s.(turns := s.turns[id := s.turns[id].(phase := Done, released := true)], row := s'.row, since := s'.since)
            && if applied then s'.row == s.row.(status := Active) && s'.since == None
               else s'.row == s.row && s'.since == s.since
  {
  }

  // The second half, with or without a reply.
  lemma {:induction false} ReplyLeaves(s: State, id: nat, m2: nat, luck: Luck, saved: bool)
    requires Gapless(s.messages) && Possible(luck) && AtPhase(s, id, Replying) && !s.turns[id].released
    requires s.turns[id].sequence == |s.messages| && s.row.status == Generating
    ensures var reply := ReplySteps(id, m2, luck, saved);
            && (LegalRun(s, reply) <==> luck.reply.None? || !saved || luck.replyTold)
            && (luck.reply.Some? && !saved && luck.replyTold ==> AtPhase(Run(s, reply), id, Saved))
            && (luck.reply.None? || saved == luck.replyTold ==> ReplyDone(s, Run(s, reply), id, m2, luck))
  {
    if luck.reply.None? {
      OneStep(s, OfTurn(id, Abort));
      assert s.messages + [] == s.messages;
    } else {
      var reply := OfMessage(id, Reply(luck.reply.value, m2, luck.replyStored, luck.replyTold));
      var s1 := Next(s, reply);
      ReplyStored(s, id, luck.reply.value, m2, luck.replyStored, luck.replyTold);
      if luck.replyTold { EarlyRelease(s1, id, luck.releaseApplied); }
      if saved { TwoSteps(s, reply, OfTurn(id, Release(luck.releaseApplied))); } else { OneStep(s, reply); }
    }
  }

  // The deferred release.
  lemma {:induction false} FinishLeaves(s: State, id: nat, applied: bool)
    requires AtPhase(s, id, Done) && (!s.turns[id].released ==> s.row.status == Generating)
    ensures var s' := TurnNext(s, id, Finish(applied));
            && s'.turns == s.turns - {id} && s'.messages == s.messages
            && (if applied && !s.turns[id].released then s'.row == s.row.(status := Active) && s'.since == None
                else s'.row == s.row && s'.since == s.since)
            && s'.evaluation == s.evaluation && s'.enqueued == s.enqueued && s'.now == s.now
  {
  }

  function RestSteps(id: nat, m2: nat, luck: Luck, asked: bool, saved: bool): seq<Step> {
    (if asked then ReplySteps(id, m2, luck, saved) else []) + [OfTurn(id, Finish(luck.finishApplied))]
  }

  // Half-way through a turn.
  predicate AtHalf(s: State, id: nat, asks: bool) {
    && Gapless(s.messages) && s.row.status == Generating
    && AtPhase(s, id, if asks then Replying else Done) && !s.turns[id].released
    && (asks ==> s.turns[id].sequence == |s.messages|)
  }

  lemma {:induction false} RestIsLegalIff(s: State, id: nat, m2: nat, luck: Luck, asked: bool, saved: bool, asks: bool)
    requires AtHalf(s, id, asks) && Possible(luck)
    ensures LegalRun(s, RestSteps(id, m2, luck, asked, saved))
            <==> asked == asks && (asks && luck.reply.Some? ==> saved == luck.replyTold)
  {
    var finish := OfTurn(id, Finish(luck.finishApplied));
    if !asked {
      assert [] + [finish] == [finish];
      OneStep(s, finish);
    } else {
      var reply := ReplySteps(id, m2, luck, saved);
      RunParts(s, reply, [finish]);
      if asks {
        ReplyLeaves(s, id, m2, luck, saved);
        if LegalRun(s, reply) { OneStep(Run(s, reply), finish); }
      } else {
        assert reply == [reply[0]] + reply[1..];
        HeadStep(s, reply[0], reply[1..]);
      }
    }
  }

  // What is left of a turn after its second half.
  ghost predicate Finished(s: State, s': State, id: nat, m2: nat, luck: Luck, asks: bool) {
    var kept := asks && luck.reply.Some? && luck.replyStored;
    && s'.messages == s.messages + (if kept then [Message(m2, |s.messages| + 1, Interviewer, luck.reply.value)] else [])
    && s'.turns == s.turns - {id}
    && (if if kept && luck.replyTold then luck.releaseApplied else luck.finishApplied
        then s'.row == s.row.(status := Active) && s'.since == None
        else s'.row == s.row && s'.since == s.since)
    && s'.evaluation == s.evaluation && s'.enqueued == s.enqueued && s'.now == s.now
  }

  lemma {:induction false} RestLeaves(s: State, id: nat, m2: nat, luck: Luck, saved: bool, asks: bool)
    requires AtHalf(s, id, asks) && Possible(luck) && LegalRun(s, RestSteps(id, m2, luck, asks, saved))
    ensures Finished(s, Run(s, RestSteps(id, m2, luck, asks, saved)), id, m2, luck, asks)
  {
    var finish := OfTurn(id, Finish(luck.finishApplied));
    if !asks {
      assert [] + [finish] == [finish];
      OneStep(s, finish);
      FinishLeaves(s, id, luck.finishApplied);
    } else {
      var reply := ReplySteps(id, m2, luck, saved);
      RunParts(s, reply, [finish]);
      ReplyLeaves(s, id, m2, luck, saved);
      var s1 := Run(s, reply);
      OneStep(s1, finish);
      FinishLeaves(s1, id, luck.finishApplied);
      assert s1.turns - {id} == s.turns - {id};
    }
  }

  // The flags under which the steps are the turn's own.
  predicate Fits(messages: seq<Message>, input: Input, luck: Luck, asked: bool, saved: bool) {
    && asked == AsksLLM(messages, input, luck)
    && (asked && luck.reply.Some? ==> saved == luck.replyTold)
  }

  // What is done of a turn half-way.
  ghost predicate Halved(s: State, s': State, id: nat, input: Input, m1: nat, luck: Luck) {
    && AtHalf(s', id, AsksLLM(s.messages, input, luck))
    && s'.messages == WithAnswer(s.messages, input, m1, luck) && s'.turns - {id} == s.turns
    && s'.since == Some(s.now)
    && s'.row == s.row.(status := Generating, spoken := s.row.spoken || Answers(s.messages, input, luck))
    && s'.evaluation == s.evaluation && s'.enqueued == s.enqueued && s'.now == s.now
  }

  lemma {:induction false} HalvesMakeATurn(s: State, s1: State, s': State, id: nat, input: Input, m1: nat, m2: nat,
                                           luck: Luck)
    requires s.row.status == Active && Possible(luck)
    requires Halved(s, s1, id, input, m1, luck) && Finished(s1, s', id, m2, luck, AsksLLM(s.messages, input, luck))
    ensures Leaves(s, s', input, m1, m2, luck)
  {
  }

  // Up to the second half.
  lemma {:induction false} TurnHalf(s: State, id: nat, input: Input, m1: nat, luck: Luck)
    requires Gapless(s.messages) && s.row.status == Active && id !in s.turns && luck.acquireTold && Possible(luck)
    ensures var s1 := Next(s, OfTurn(id, Acquire(true)));
            && LegalRun(s1, AnswerSteps(id, input, m1, luck))
            && Halved(s, Run(s1, AnswerSteps(id, input, m1, luck)), id, input, m1, luck)
  {
    var s1 := Next(s, OfTurn(id, Acquire(true)));
    AnswerLeaves(s1, id, input, m1, luck);
    var s2 := Run(s1, AnswerSteps(id, input, m1, luck));
    assert s2.turns - {id} == s.turns;
  }

  // A turn on an active session that nothing else disturbs adds at most its answer and the
  // reply, and lets go of the lock however it ends: by the early release once the reply is
  // stored, and by the deferred one on every other path.
  lemma {:induction false} TurnLeaves(s: State, id: nat, input: Input, m1: nat, m2: nat, luck: Luck, asked: bool,
                                      saved: bool)
    requires Gapless(s.messages) && s.row.status == Active && id !in s.turns && luck.acquireTold && Possible(luck)
    ensures LegalRun(s, ExecuteSteps(id, input, m1, m2, luck, asked, saved)) <==> Fits(s.messages, input, luck, asked, saved)
    ensures Fits(s.messages, input, luck, asked, saved) ==>
              Leaves(s, Run(s, ExecuteSteps(id, input, m1, m2, luck, asked, saved)), input, m1, m2, luck)
  {
    var acquire, answer := OfTurn(id, Acquire(true)), AnswerSteps(id, input, m1, luck);
    var rest, asks := RestSteps(id, m2, luck, asked, saved), AsksLLM(s.messages, input, luck);
    TurnHalf(s, id, input, m1, luck);
    var s1 := Next(s, acquire);
    var s2 := Run(s1, answer);
    assert ExecuteSteps(id, input, m1, m2, luck, asked, saved) == [acquire] + (answer + rest);
    HeadStep(s, acquire, answer + rest);
    RunParts(s1, answer, rest);
    RestIsLegalIff(s2, id, m2, luck, asked, saved, asks);
    if Fits(s.messages, input, luck, asked, saved) {
      RestLeaves(s2, id, m2, luck, saved, asks);
      HalvesMakeATurn(s, s2, Run(s2, rest), id, input, m1, m2, luck);
    }
  }

  // Any run of a turn's steps is one of those.
  lemma {:induction false} TurnEnds(s: State, s': State, id: nat, input: Input, m1: nat, m2: nat, luck: Luck,
                                    asked: bool, saved: bool)
    requires s.row.status == Active && id !in s.turns && luck.acquireTold && Possible(luck)
    requires LegalRun(s, ExecuteSteps(id, input, m1, m2, luck, asked, saved))
    requires s' == Run(s, ExecuteSteps(id, input, m1, m2, luck, asked, saved))
    ensures Gapless(s.messages) ==> Leaves(s, s', input, m1, m2, luck)
  {
    if Gapless(s.messages) { TurnLeaves(s, id, input, m1, m2, luck, asked, saved); }
  }
}
