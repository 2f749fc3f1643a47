/** Runs from a fresh session in which it ends up where its author may not expect it. */
module SessionExamples {
  import opened Options
  import opened Splitter
  import opened Sessions
  import opened Transcript
  import opened Evaluation
  import opened SessionMachine
  import opened SessionInvariants
  import opened SessionTheorems

  // ---- Two turns at once ----

  function Overstaying(): seq<Step> {
    [OfTurn(1, Acquire(true)), OfRow(Tick((STALE + 1) as nat))]
    + [OfRow(Recover), OfTurn(2, Acquire(true))]
  }

  // A turn takes longer than five minutes, its lock is recovered, and another request
  // starts a second one.
  lemma {:induction false} TwoLiveTurns(s: State)
    requires Fresh(s)
    ensures LegalRun(s, Overstaying())
    ensures IsLive(Run(s, Overstaying()), 1) && IsLive(Run(s, Overstaying()), 2)
  {
    var acquire, tick := OfTurn(1, Acquire(true)), OfRow(Tick((STALE + 1) as nat));
    RunSnoc(s, [], acquire);
    assert [] + [acquire] == [acquire];
    RunSnoc(s, [acquire], tick);
    assert [acquire] + [tick] == [acquire, tick];
    var s1 := Run(s, [acquire, tick]);
    assert IsLive(s1, 1) && HoldsLock(s1, 1) && 2 !in s1.turns;
    OverstayBreaksExclusion(s1, 1, 2);
    RunSplit(s, [acquire, tick], [OfRow(Recover), OfTurn(2, Acquire(true))]);
  }

  // ---- An interview of two turns ----

  function Interview(): seq<Step> {
    TurnSteps(1, Text(""), 0, "Design a cache.", 1) + TurnSteps(1, Text("For whom?"), 2, "You choose.", 3)
  }

  function Opened(): seq<Message> { [Message(1, 1, Interviewer, "Design a cache.")] }

  function Answered2(): seq<Message> { Opened() + [Message(2, 2, Candidate, "For whom?")] }

  function Held(): seq<Message> { Answered2() + [Message(3, 3, Interviewer, "You choose.")] }

  lemma {:induction false} AnswerIsHeard()
    ensures CandidateContent(Text("For whom?")) == Content("For whom?")
    ensures !SkipsInput(Opened(), Text("For whom?")) && SkipsInput([], Text(""))
    ensures Asked(Opened(), Text("For whom?"), 2) == Answered2() && Asked([], Text(""), 0) == []
  {
    TrimmedAwayIff("For whom?");
    assert !IsSpace("For whom?"[0]);
  }

  lemma {:induction false} Replies()
    ensures Replied([], "Design a cache.", 1) == Opened() && Replied(Answered2(), "You choose.", 3) == Held()
    ensures Gapless(Opened()) && Gapless(Held())
  {
  }

  // Steps of turns and end calls leave evaluations and their jobs alone.
  predicate IsTalk(step: Step) { step.OfTurn? || step.OfMessage? || step.OfEnd? }

  lemma {:induction false} TalkStepFrame(s: State, step: Step)
    requires Enabled(s, step) && IsTalk(step)
    ensures Next(s, step).evaluation == s.evaluation && Next(s, step).judges == s.judges
    ensures step.OfEnd? || Next(s, step).ends == s.ends
  {
    if step.OfTurn? {
      TurnFrame(s, step.id, step.turn);
    } else if step.OfMessage? {
      MessageFrame(s, step.id, step.message);
    } else {
      EndFrame(s, step.id, step.end);
    }
  }

  lemma {:induction false} TalkFrame(s: State, steps: seq<Step>)
    requires LegalRun(s, steps) && forall i | 0 <= i < |steps| :: IsTalk(steps[i])
    ensures var s' := Run(s, steps);
            && s'.evaluation == s.evaluation && s'.judges == s.judges
            && ((forall i | 0 <= i < |steps| :: !steps[i].OfEnd?) ==> s'.ends == s.ends)
    decreases |steps|
  {
    if steps == [] {
    } else {
      TalkStepFrame(s, steps[0]);
      assert forall i | 0 <= i < |steps[1..]| :: steps[1..][i] == steps[i + 1];
      TalkFrame(Next(s, steps[0]), steps[1..]);
    }
  }

  lemma {:induction false} InterviewRuns(s: State)
    requires Fresh(s)
    ensures LegalRun(s, Interview())
    ensures var s' := Run(s, Interview());
            && s'.messages == Held() && s'.row.status == Active && s'.turns == map[]
            && s'.prompts == [Prompt([])] + [Prompt(Answered2())]
  {
    AnswerIsHeard();
    Replies();
    var first := TurnSteps(1, Text(""), 0, "Design a cache.", 1);
    UndisturbedTurn(s, 1, Text(""), 0, "Design a cache.", 1);
    var s1 := Run(s, first);
    assert s1.messages == Opened() && s1.prompts == [Prompt([])];
    UndisturbedTurn(s1, 1, Text("For whom?"), 2, "You choose.", 3);
    RunSplit(s, first, TurnSteps(1, Text("For whom?"), 2, "You choose.", 3));
  }

  // The second prompt begins with the assistant.
  lemma {:induction false} PromptBeginsWithAssistant(s: State)
    requires Fresh(s)
    ensures LegalRun(s, Interview())
    ensures var p := Run(s, Interview()).prompts; |p| == 2 && p[1] != [] && p[1][0].Assistant?
  {
    InterviewRuns(s);
    PromptBeginsWithUserIff(Answered2());
  }

  // ---- A review that is lost ----

  function Ending(): seq<Step> { [OfEnd(1, Poll), OfEnd(1, CountTurns), OfEnd(1, Write(false, true))] }

  // Threes all round, and no annotations.
  function Verdict(): RawInput { RawInput(Some(RawScores(3.0, 3.0, 3.0, 3.0, 3.0, 3.0)), [], [], "", []) }

  function LateEnd(): seq<Step> { ((Interview() + Ending()) + Attempt(1, Verdict())) + Ending() }

  lemma {:induction false} InterviewIsTalk()
    ensures forall i | 0 <= i < |Interview()| :: IsTalk(Interview()[i]) && !Interview()[i].OfEnd?
  {
  }

  lemma {:induction false} TwoReplies()
    ensures InterviewerCount(Held()) == 2
  {
    assert Held()[..2] == Answered2() && Answered2()[..1] == Opened() && Opened()[..0] == [];
  }

  lemma {:induction false} EndingHeld(s: State)
    requires s.messages == Held() && s.row.status == Active && s.ends == map[]
    requires s.evaluation.None? && s.judges == map[]
    ensures LegalRun(s, Ending())
    ensures var s' := Run(s, Ending());
            && s'.messages == Held() && s'.row.status == Completed && s'.enqueued && s'.evaluation.None?
            && s'.judges == map[] && s'.ends == map[]
  {
    TwoReplies();
    UndisturbedEnd(s, 1, false);
    TalkFrame(s, Ending());
  }

  lemma {:induction false} InterviewEnds(s: State)
    requires Fresh(s)
    ensures LegalRun(s, Interview() + Ending())
    ensures var s' := Run(s, Interview() + Ending());
            && s'.messages == Held() && s'.row.status == Completed && s'.enqueued && s'.evaluation.None?
            && s'.judges == map[] && s'.ends == map[]
  {
    InterviewRuns(s);
    InterviewIsTalk();
    TalkFrame(s, Interview());
    EndingHeld(Run(s, Interview()));
    RunSplit(s, Interview(), Ending());
  }

  lemma {:induction false} VerdictPasses(messages: seq<Message>)
    requires Gapless(messages)
    ensures Evaluated(Verdict(), messages).Some?
  {
    AcceptedIff(Verdict(), messages);
  }

  // A second end call, which nothing refuses, turns a reviewed session into a completed
  // one, and by ReviewNotRegained it stays so: its evaluation is there but not shown.
  lemma {:induction false} LateEndHidesReview(s: State, rest: seq<Step>)
    requires Fresh(s)
    ensures LegalRun(s, (Interview() + Ending()) + Attempt(1, Verdict()))
    ensures Run(s, (Interview() + Ending()) + Attempt(1, Verdict())).row.status == Reviewed
    ensures LegalRun(s, LateEnd())
    ensures Run(s, LateEnd()).row.status == Completed && Run(s, LateEnd()).evaluation.Some?
    ensures LegalRun(Run(s, LateEnd()), rest) ==> Run(Run(s, LateEnd()), rest).row.status != Reviewed
  {
    InterviewEnds(s);
    var s1 := Run(s, Interview() + Ending());
    Replies();
    VerdictPasses(s1.messages);
    UndisturbedAttempt(s1, 1, Verdict());
    var s2 := Run(s1, Attempt(1, Verdict()));
    RunSplit(s, Interview() + Ending(), Attempt(1, Verdict()));
    JudgesFrame(s1, Attempt(1, Verdict()));
    UndisturbedEnd(s2, 1, false);
    TalkFrame(s2, Ending());
    RunSplit(s, (Interview() + Ending()) + Attempt(1, Verdict()), Ending());
    if LegalRun(Run(s, LateEnd()), rest) { ReviewNotRegained(Run(s, LateEnd()), rest); }
  }

  lemma {:induction false} JudgesFrame(s: State, steps: seq<Step>)
    requires LegalRun(s, steps) && forall i | 0 <= i < |steps| :: steps[i].OfJudge?
    ensures Run(s, steps).ends == s.ends
    decreases |steps|
  {
    if steps == [] {
    } else {
      JudgeFrame(s, steps[0].id, steps[0].judge);
      JudgesFrame(Next(s, steps[0]), steps[1..]);
    }
  }
}
