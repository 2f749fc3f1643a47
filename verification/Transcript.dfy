/** The messages of one session, a candidate's input, and the prompt made from them. */
module Transcript {
  import opened Options
  import opened Splitter

  datatype Role = Candidate | Interviewer

  datatype Message = Message(id: nat, number: int, role: Role, content: string)

  // ---- The table, as one session's rows read in ORDER BY seq ----

  function MaxSeq(messages: seq<Message>): int {
    if messages == [] then 0 else messages[|messages| - 1].number
  }

  // INSERT under UNIQUE (session_id, seq).
  function Insert(messages: seq<Message>, m: Message): Option<seq<Message>> {
    if messages == [] || messages[|messages| - 1].number < m.number then Some(messages + [m])
    else if messages[|messages| - 1].number == m.number then None
    else
      var earlier := Insert(messages[..|messages| - 1], m);
      if earlier.None? then None else Some(earlier.value + [messages[|messages| - 1]])
  }

  predicate Gapless(messages: seq<Message>) {
    forall i | 0 <= i < |messages| :: messages[i].number == i + 1
  }

  predicate Alternating(messages: seq<Message>) {
    forall i | 0 <= i < |messages| - 1 :: messages[i].role != messages[i + 1].role
  }

  predicate HasCandidate(messages: seq<Message>) {
    exists i | 0 <= i < |messages| :: messages[i].role == Candidate
  }

  predicate EndsWithCandidate(messages: seq<Message>) {
    messages != [] && messages[|messages| - 1].role == Candidate
  }

  // CountInterviewerMessages.
  function InterviewerCount(messages: seq<Message>): nat {
    if messages == [] then 0
    else InterviewerCount(messages[..|messages| - 1])
         + if messages[|messages| - 1].role == Interviewer then 1 else 0
  }

  lemma {:induction false} InterviewerCountIs(messages: seq<Message>)
    ensures InterviewerCount(messages) == |set i | 0 <= i < |messages| && messages[i].role == Interviewer|
  {
    var all := set i | 0 <= i < |messages| && messages[i].role == Interviewer;
    if messages == [] {
    } else {
      var n := |messages| - 1;
      InterviewerCountIs(messages[..n]);
      var before := set i | 0 <= i < |messages[..n]| && messages[..n][i].role == Interviewer;
      assert all == before + if messages[n].role == Interviewer then {n} else {};
    }
  }

  predicate Numbered(messages: seq<Message>) {
    forall i, j | 0 <= i < j < |messages| :: messages[i].number < messages[j].number
  }

  predicate HasNumber(messages: seq<Message>, n: int) {
    exists i | 0 <= i < |messages| :: messages[i].number == n
  }

  lemma {:induction false} TakenNumberIsRefused(messages: seq<Message>, m: Message)
    requires Numbered(messages)
    ensures Insert(messages, m).None? <==> HasNumber(messages, m.number)
  {
    if messages == [] {
    } else {
      var n := |messages| - 1;
      TakenNumberIsRefused(messages[..n], m);
      assert HasNumber(messages, m.number) <==> HasNumber(messages[..n], m.number) || messages[n].number == m.number by {
        if HasNumber(messages[..n], m.number) {
          var i :| 0 <= i < n && messages[..n][i].number == m.number;
          assert messages[i].number == m.number;
        }
      }
    }
  }

  // Where the inserted message goes.
  predicate IsInserted(messages: seq<Message>, m: Message, r: seq<Message>) {
    Numbered(r) && multiset(r) == multiset(messages) + multiset{m}
  }

  lemma {:induction false} InsertedLast(messages: seq<Message>, m: Message)
    requires Numbered(messages) && (messages == [] || messages[|messages| - 1].number < m.number)
    ensures IsInserted(messages, m, messages + [m])
  {
  }

  lemma {:induction false} InsertedBefore(messages: seq<Message>, m: Message, r: seq<Message>, last: Message)
    requires Numbered(messages + [last]) && IsInserted(messages, m, r) && m.number < last.number
    ensures IsInserted(messages + [last], m, r + [last])
  {
    assert forall i | 0 <= i < |messages| :: (messages + [last])[i] == messages[i];
    assert (messages + [last])[|messages|] == last;
    StaysBelow(r, messages, m, last);
  }

  lemma {:induction false} FreeNumberIsInserted(messages: seq<Message>, m: Message)
    requires Numbered(messages) && Insert(messages, m).Some?
    ensures IsInserted(messages, m, Insert(messages, m).value)
  {
    if messages == [] || messages[|messages| - 1].number < m.number {
      InsertedLast(messages, m);
    } else {
      var n := |messages| - 1;
      assert messages == messages[..n] + [messages[n]];
      FreeNumberIsInserted(messages[..n], m);
      InsertedBefore(messages[..n], m, Insert(messages[..n], m).value, messages[n]);
    }
  }

  // An insert fails exactly when the number is taken, and otherwise puts the message where
  // its number belongs, among all the others.
  lemma {:induction false} InsertIs(messages: seq<Message>, m: Message)
    requires Numbered(messages)
    ensures Insert(messages, m).None? <==> HasNumber(messages, m.number)
    ensures Insert(messages, m).Some? ==> IsInserted(messages, m, Insert(messages, m).value)
  {
    TakenNumberIsRefused(messages, m);
    if Insert(messages, m).Some? { FreeNumberIsInserted(messages, m); }
  }

  lemma {:induction false} StaysBelow(r: seq<Message>, messages: seq<Message>, m: Message, last: Message)
    requires Numbered(r) && multiset(r) == multiset(messages) + multiset{m} && m.number < last.number
    requires forall i | 0 <= i < |messages| :: messages[i].number < last.number
    ensures Numbered(r + [last])
  {
    forall i | 0 <= i < |r| ensures r[i].number < last.number {
      assert r[i] in multiset(messages) + multiset{m};
    }
  }

  // A number at most one past the end is either taken or the next one.
  lemma {:induction false} InsertIntoGapless(messages: seq<Message>, m: Message)
    requires Gapless(messages) && 1 <= m.number <= |messages| + 1
    ensures Insert(messages, m) == if m.number == |messages| + 1 then Some(messages + [m]) else None
  {
    if messages == [] || m.number >= |messages| {
    } else {
      InsertIntoGapless(messages[..|messages| - 1], m);
    }
  }

  // Between two interviewer messages that alternate with the candidate's lies one of his.
  lemma {:induction false} TwoTurnsMeanAnInterview(messages: seq<Message>)
    requires Alternating(messages) && InterviewerCount(messages) > 1
    ensures HasCandidate(messages)
  {
  }

  lemma {:induction false} InterviewerCountGrows(earlier: seq<Message>, messages: seq<Message>)
    requires earlier <= messages
    ensures InterviewerCount(earlier) <= InterviewerCount(messages)
    decreases |messages|
  {
    if earlier == messages {
    } else {
      InterviewerCountGrows(earlier, messages[..|messages| - 1]);
    }
  }

  // ---- A candidate's input ----

  // Voice carries what each of two transcription attempts would return.
  datatype Input = Text(content: string)
                 | Voice(mime: string, audio: nat, first: Option<string>, second: Option<string>)
                 | Missing

  datatype TurnError = InvalidAudioMime | AudioValidationFailed | TranscriptionFailed
                     | EmptyTranscription | EmptyContent | InvalidInput

  datatype Heard = Content(text: string) | Refused(error: TurnError)

  const VALID_MIME: set<string> := {"audio/webm", "audio/wav", "audio/ogg", "audio/mpeg", "audio/mp4"}

  // The MIME type without its parameters.
  function BaseMime(mime: string): string {
    if mime == "" || mime[0] == ';' then "" else [mime[0]] + BaseMime(mime[1..])
  }

  function CandidateContent(input: Input): Heard {
    match input
    case Text(content) => if TrimSpace(content) == "" then Refused(EmptyContent) else Content(content)
    case Voice(mime, audio, first, second) =>
      var text := if first.Some? then first else second;
      if BaseMime(mime) !in VALID_MIME then Refused(InvalidAudioMime)
      else if audio == 0 then Refused(AudioValidationFailed)
      else if text.None? then Refused(TranscriptionFailed)
      else if TrimSpace(text.value) == "" then Refused(EmptyTranscription)
      else Content(text.value)
    case Missing => Refused(InvalidInput)
  }

  lemma {:induction false} TrimmedAwayIff(text: string)
    ensures TrimSpace(text) == "" <==> AllSpace(text)
  {
    var _, _ := TrimSpaceFacts(text);
  }

  // What is taken for an answer is never blank, and it is what was said.
  lemma {:induction false} ContentIsNotBlank(input: Input)
    requires CandidateContent(input).Content?
    ensures var text := CandidateContent(input).text;
            && !AllSpace(text)
            && match input
               case Text(content) => text == content
               case Voice(_, _, first, second) => text == if first.Some? then first.value else second.value
               case Missing => false
  {
    TrimmedAwayIff(CandidateContent(input).text);
  }

  // `base` is the part before the first semicolon, if there is one.
  predicate IsCut(mime: string, base: string) {
    && base <= mime && (|base| == |mime| || mime[|base|] == ';')
    && forall j | 0 <= j < |base| :: mime[j] != ';'
  }

  lemma {:induction false} CutMore(c: char, mime: string, base: string)
    requires IsCut(mime, base) && c != ';'
    ensures IsCut([c] + mime, [c] + base)
  {
    assert forall j | 0 < j < |base| + 1 :: ([c] + mime)[j] == mime[j - 1];
  }

  lemma {:induction false} BaseMimeIsCut(mime: string)
    ensures IsCut(mime, BaseMime(mime))
  {
    if mime == "" || mime[0] == ';' {
    } else {
      BaseMimeIsCut(mime[1..]);
      CutMore(mime[0], mime[1..], BaseMime(mime[1..]));
      assert mime == [mime[0]] + mime[1..];
    }
  }

  // One of five audio types, with or without parameters.
  ghost predicate IsAudio(mime: string) {
    exists base: string ::
      IsCut(mime, base) && base in {"audio/webm", "audio/wav", "audio/ogg", "audio/mpeg", "audio/mp4"}
  }

  lemma {:induction false} CutIsUnique(mime: string, a: string, b: string)
    requires IsCut(mime, a) && IsCut(mime, b)
    ensures a == b
  {
    assert |a| == |b|;
  }

  lemma {:induction false} IsAudioIff(mime: string)
    ensures IsAudio(mime) <==> BaseMime(mime) in VALID_MIME
  {
    BaseMimeIsCut(mime);
    if base: string :| IsCut(mime, base) && base in {"audio/webm", "audio/wav", "audio/ogg", "audio/mpeg", "audio/mp4"} {
      CutIsUnique(mime, base, BaseMime(mime));
    }
  }

  // What is taken for an answer: text that is not blank, or audio of a known type and not
  // empty, of which one of two transcriptions succeeds and is not blank. What is wrong
  // first is reported.
  lemma {:induction false} ContentIs(input: Input)
    ensures match input
            case Text(content) => CandidateContent(input) == if AllSpace(content) then Refused(EmptyContent) else Content(content)
            case Voice(mime, audio, first, second) =>
              CandidateContent(input)
              == if !IsAudio(mime) then Refused(InvalidAudioMime)
                 else if audio == 0 then Refused(AudioValidationFailed)
                 else if first.None? && second.None? then Refused(TranscriptionFailed)
                 else if AllSpace(if first.Some? then first.value else second.value) then Refused(EmptyTranscription)
                 else Content(if first.Some? then first.value else second.value)
            case Missing => CandidateContent(input) == Refused(InvalidInput)
  {
    match input
    case Text(content) => TrimmedAwayIff(content);
    case Voice(mime, audio, first, second) =>
      IsAudioIff(mime);
      if first.Some? { TrimmedAwayIff(first.value); }
      if second.Some? { TrimmedAwayIff(second.value); }
    case Missing =>
  }

  // ---- The prompt ----

  datatype PromptMessage = User(text: string) | Assistant(text: string)

  const SEED: string :=
    "(Present the question in 1-2 sentences only. No elaboration, no hints, no suggested approach.)"

  function ToPrompt(m: Message): PromptMessage {
    if m.role == Interviewer then Assistant(m.content) else User(m.content)
  }

  function ToPrompts(messages: seq<Message>): (r: seq<PromptMessage>)
    ensures |r| == |messages| && forall i | 0 <= i < |r| :: r[i] == ToPrompt(messages[i])
  {
    seq(|messages|, i requires 0 <= i < |messages| => ToPrompt(messages[i]))
  }

  // What the LLM is sent for a transcript.
  function Prompt(messages: seq<Message>): seq<PromptMessage> {
    if messages == [] then [User(SEED)] else ToPrompts(messages)
  }

  predicate Answerable(prompt: seq<PromptMessage>) {
    prompt != [] && prompt[|prompt| - 1].User?
  }

  predicate PromptAlternates(prompt: seq<PromptMessage>) {
    forall i | 0 <= i < |prompt| - 1 :: prompt[i].User? != prompt[i + 1].User?
  }

  lemma {:induction false} PromptAnswerableIff(messages: seq<Message>)
    ensures Answerable(Prompt(messages)) <==> messages == [] || EndsWithCandidate(messages)
    ensures PromptAlternates(Prompt(messages)) <==> Alternating(messages)
  {
  }

  // The prompt is the transcript: message by message, each under its author; the seed
  // stands in for an empty one only.
  lemma {:induction false} PromptIsTranscript(messages: seq<Message>)
    ensures messages == [] ==> Prompt(messages) == [User(SEED)]
    ensures messages != [] ==> |Prompt(messages)| == |messages|
    ensures forall i | 0 <= i < |messages| ::
              Prompt(messages)[i]
              == match messages[i].role
                 case Candidate => User(messages[i].content)
                 case Interviewer => Assistant(messages[i].content)
  {
  }

  // The seed keeps an opening turn's prompt beginning with the user, as the comment on
  // Build asks; once the interviewer has opened, no later prompt does.
  lemma {:induction false} PromptBeginsWithUserIff(messages: seq<Message>)
    ensures Prompt(messages)[0].User? <==> messages == [] || messages[0].role == Candidate
  {
  }

  class Builder {
    var msgs: seq<PromptMessage>

    constructor ()
      ensures msgs == []
    {
      msgs := [];
    }

    method WithTranscript(messages: seq<Message>)
      modifies this
      ensures msgs == old(msgs) + ToPrompts(messages)
    {
      for i := 0 to |messages|
        invariant msgs == old(msgs) + ToPrompts(messages[..i])
      {
        msgs := msgs + [ToPrompt(messages[i])];
        assert ToPrompts(messages[..i + 1]) == ToPrompts(messages[..i]) + [ToPrompt(messages[i])];
      }
      assert messages[..|messages|] == messages;
    }

    method Build() returns (r: seq<PromptMessage>)
      modifies this
      ensures r == msgs && msgs == if old(msgs) == [] then [User(SEED)] else old(msgs)
    {
      if |msgs| == 0 { msgs := msgs + [User(SEED)]; }
      r := msgs;
    }
  }

  method BuildPrompt(messages: seq<Message>) returns (r: seq<PromptMessage>)
    ensures r == Prompt(messages)
  {
    var b := new Builder();
    b.WithTranscript(messages);
    assert b.msgs == ToPrompts(messages);
    r := b.Build();
  }
}
