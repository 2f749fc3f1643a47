/** The evaluator's verdict: parsed, checked against the transcript, and turned into rows. */
module Evaluation {
  import opened Options
  import opened Transcript

  // JSON numbers arrive as floats.
  datatype RawScores = RawScores(requirements: real, architecture: real, deepDive: real,
                                 scalability: real, communication: real, overall: real)

  datatype RawAnnotation = RawAnnotation(messageSeq: real, kind: string, content: string)

  datatype RawInput = RawInput(scores: Option<RawScores>, strengths: seq<string>, gaps: seq<string>,
                               advice: string, annotations: seq<RawAnnotation>)

  datatype AnnotationResult = AnnotationResult(messageSeq: int, kind: string, content: string)

  datatype EvaluationResult =
    EvaluationResult(requirements: int, architecture: int, deepDive: int, scalability: int,
                     communication: int, overall: int, strengths: seq<string>, gaps: seq<string>,
                     advice: string, annotations: seq<AnnotationResult>)

  datatype Invalid = MissingScores | ScoreOutOfRange(name: string, value: int)
                   | UnknownMessage(number: int) | InvalidType(kind: string)

  const VALID_TYPES: set<string> := {"strength", "gap", "missed_opportunity", "note"}

  // int32(x): the fraction is dropped.
  function Truncate(x: real): int { if x >= 0.0 then x.Floor else -((-x).Floor) }

  function ParseAnnotation(a: RawAnnotation): AnnotationResult {
    AnnotationResult(Truncate(a.messageSeq), a.kind, a.content)
  }

  function ParseAnnotations(raw: seq<RawAnnotation>): (r: seq<AnnotationResult>)
    ensures |r| == |raw| && forall i | 0 <= i < |r| :: r[i] == ParseAnnotation(raw[i])
  {
    seq(|raw|, i requires 0 <= i < |raw| => ParseAnnotation(raw[i]))
  }

  function Parsed(raw: RawInput): Option<EvaluationResult> {
    if raw.scores.None? then None
    else
      var s := raw.scores.value;
      Some(EvaluationResult(Truncate(s.requirements), Truncate(s.architecture), Truncate(s.deepDive),
                            Truncate(s.scalability), Truncate(s.communication), Truncate(s.overall),
                            raw.strengths, raw.gaps, raw.advice, ParseAnnotations(raw.annotations)))
  }

  // The fraction is dropped, towards zero.
  lemma {:induction false} TruncateIs(x: real)
    ensures x >= 0.0 ==> 0 <= Truncate(x) && Truncate(x) as real <= x < Truncate(x) as real + 1.0
    ensures x <= 0.0 ==> Truncate(x) <= 0 && Truncate(x) as real - 1.0 < x <= Truncate(x) as real
  {
  }

  method Parse(raw: RawInput) returns (r: Option<EvaluationResult>)
    ensures r == Parsed(raw)
  {
    if raw.scores.None? { return None; }
    var s := raw.scores.value;
    var annotations: seq<AnnotationResult> := [];
    for i := 0 to |raw.annotations|
      invariant annotations == ParseAnnotations(raw.annotations[..i])
    {
      var a := raw.annotations[i];
      annotations := annotations + [AnnotationResult(Truncate(a.messageSeq), a.kind, a.content)];
    }
    assert raw.annotations[..|raw.annotations|] == raw.annotations;
    r := Some(EvaluationResult(Truncate(s.requirements), Truncate(s.architecture), Truncate(s.deepDive),
                               Truncate(s.scalability), Truncate(s.communication), Truncate(s.overall),
                               raw.strengths, raw.gaps, raw.advice, annotations));
  }

  // ---- Validation ----

  predicate InRange(score: int) { 1 <= score <= 5 }

  predicate ScoresInRange(r: EvaluationResult) {
    InRange(r.requirements) && InRange(r.architecture) && InRange(r.deepDive)
    && InRange(r.scalability) && InRange(r.communication) && InRange(r.overall)
  }

  predicate AnnotationOk(a: AnnotationResult, seqMap: map<int, nat>) {
    a.messageSeq in seqMap && a.kind in VALID_TYPES
  }

  predicate IsValid(r: EvaluationResult, seqMap: map<int, nat>) {
    ScoresInRange(r) && forall i | 0 <= i < |r.annotations| :: AnnotationOk(r.annotations[i], seqMap)
  }

  function ScoreList(r: EvaluationResult): seq<(string, int)> {
    [("requirements", r.requirements), ("architecture", r.architecture), ("deep_dive", r.deepDive),
     ("scalability", r.scalability), ("communication", r.communication), ("overall", r.overall)]
  }

  // What is wrong with an annotation.
  function Fault(a: AnnotationResult, seqMap: map<int, nat>): Invalid {
    if a.messageSeq !in seqMap then UnknownMessage(a.messageSeq) else InvalidType(a.kind)
  }

  // The first fault found, scores before annotations.
  ghost predicate FirstFault(r: EvaluationResult, seqMap: map<int, nat>, e: Invalid) {
    if ScoresInRange(r) then
      exists i | 0 <= i < |r.annotations| ::
        && !AnnotationOk(r.annotations[i], seqMap) && e == Fault(r.annotations[i], seqMap)
        && forall j | 0 <= j < i :: AnnotationOk(r.annotations[j], seqMap)
    else
      exists i | 0 <= i < 6 ::
        && !InRange(ScoreList(r)[i].1) && e == ScoreOutOfRange(ScoreList(r)[i].0, ScoreList(r)[i].1)
        && forall j | 0 <= j < i :: InRange(ScoreList(r)[j].1)
  }

  // Scores are checked in this order.
  lemma {:induction false} FirstScoreFault(r: EvaluationResult, seqMap: map<int, nat>, e: Invalid)
    requires FirstFault(r, seqMap, e) && !ScoresInRange(r)
    ensures e == if !InRange(r.requirements) then ScoreOutOfRange("requirements", r.requirements)
                 else if !InRange(r.architecture) then ScoreOutOfRange("architecture", r.architecture)
                 else if !InRange(r.deepDive) then ScoreOutOfRange("deep_dive", r.deepDive)
                 else if !InRange(r.scalability) then ScoreOutOfRange("scalability", r.scalability)
                 else if !InRange(r.communication) then ScoreOutOfRange("communication", r.communication)
                 else ScoreOutOfRange("overall", r.overall)
  {
    var scores := ScoreList(r);
    var i :| 0 <= i < 6 && !InRange(scores[i].1) && e == ScoreOutOfRange(scores[i].0, scores[i].1)
             && forall j | 0 <= j < i :: InRange(scores[j].1);
    assert i > 0 ==> InRange(scores[0].1);
    assert i > 1 ==> InRange(scores[1].1);
    assert i > 2 ==> InRange(scores[2].1);
    assert i > 3 ==> InRange(scores[3].1);
    assert i > 4 ==> InRange(scores[4].1);
  }

  // Then the annotations, each one's message before its type.
  lemma {:induction false} FirstAnnotationFault(r: EvaluationResult, seqMap: map<int, nat>, e: Invalid) returns (i: nat)
    requires FirstFault(r, seqMap, e) && ScoresInRange(r)
    ensures i < |r.annotations| && forall j | 0 <= j < i :: AnnotationOk(r.annotations[j], seqMap)
    ensures var a := r.annotations[i];
            if a.messageSeq !in seqMap then e == UnknownMessage(a.messageSeq)
            else e == InvalidType(a.kind) && a.kind !in {"strength", "gap", "missed_opportunity", "note"}
  {
    i :| 0 <= i < |r.annotations| && !AnnotationOk(r.annotations[i], seqMap) && e == Fault(r.annotations[i], seqMap)
         && forall j | 0 <= j < i :: AnnotationOk(r.annotations[j], seqMap);
  }

  method Validate(r: EvaluationResult, seqMap: map<int, nat>) returns (e: Option<Invalid>)
    ensures e.None? <==> IsValid(r, seqMap)
    ensures e.Some? ==> FirstFault(r, seqMap, e.value)
  {
    var scores := ScoreList(r);
    for i := 0 to |scores|
      invariant forall j | 0 <= j < i :: InRange(scores[j].1)
    {
      if scores[i].1 < 1 || scores[i].1 > 5 {
        assert !InRange(ScoreList(r)[i].1);
        return Some(ScoreOutOfRange(scores[i].0, scores[i].1));
      }
    }
    assert InRange(scores[0].1) && InRange(scores[1].1) && InRange(scores[2].1)
           && InRange(scores[3].1) && InRange(scores[4].1) && InRange(scores[5].1);
    for i := 0 to |r.annotations|
      invariant forall j | 0 <= j < i :: AnnotationOk(r.annotations[j], seqMap)
    {
      var a := r.annotations[i];
      if a.messageSeq !in seqMap {
        assert !AnnotationOk(r.annotations[i], seqMap);
        return Some(UnknownMessage(a.messageSeq));
      }
      if a.kind !in VALID_TYPES {
        assert !AnnotationOk(r.annotations[i], seqMap);
        return Some(InvalidType(a.kind));
      }
    }
    return None;
  }

  // ---- The rows ----

  datatype Annotation = Annotation(message: nat, kind: string, content: string)

  datatype Stored = Stored(result: EvaluationResult, annotations: seq<Annotation>)

  function SeqMap(messages: seq<Message>): map<int, nat> {
    if messages == [] then map[]
    else SeqMap(messages[..|messages| - 1])[messages[|messages| - 1].number := messages[|messages| - 1].id]
  }

  method BuildSeqMap(messages: seq<Message>) returns (seqMap: map<int, nat>)
    ensures seqMap == SeqMap(messages)
  {
    seqMap := map[];
    for i := 0 to |messages|
      invariant seqMap == SeqMap(messages[..i])
    {
      seqMap := seqMap[messages[i].number := messages[i].id];
      assert messages[..i + 1][..i] == messages[..i];
    }
    assert messages[..|messages|] == messages;
  }

  // In a gapless transcript the map sends exactly 1..n to the messages' ids.
  lemma {:induction false} SeqMapOfGapless(messages: seq<Message>)
    requires Gapless(messages)
    ensures forall k :: k in SeqMap(messages) <==> 1 <= k <= |messages|
    ensures forall k | 1 <= k <= |messages| :: SeqMap(messages)[k] == messages[k - 1].id
  {
    if messages == [] {
    } else {
      SeqMapOfGapless(messages[..|messages| - 1]);
    }
  }

  function Rows(annotations: seq<AnnotationResult>, seqMap: map<int, nat>): seq<Annotation>
    requires forall i | 0 <= i < |annotations| :: annotations[i].messageSeq in seqMap
  {
    seq(|annotations|, i requires 0 <= i < |annotations| =>
      Annotation(seqMap[annotations[i].messageSeq], annotations[i].kind, annotations[i].content))
  }

  // UNIQUE (evaluation_id, message_id, annotation_type).
  predicate Unique(rows: seq<Annotation>) {
    forall i, j | 0 <= i < j < |rows| :: rows[i].message != rows[j].message || rows[i].kind != rows[j].kind
  }

  // The rows an evaluation attempt writes; None when it fails.
  function Evaluated(raw: RawInput, messages: seq<Message>): Option<Stored> {
    var result := Parsed(raw);
    if result.None? || !IsValid(result.value, SeqMap(messages)) then None
    else
      assert forall i | 0 <= i < |result.value.annotations| ::
          AnnotationOk(result.value.annotations[i], SeqMap(messages));
      var rows := Rows(result.value.annotations, SeqMap(messages));
      if Unique(rows) then Some(Stored(result.value, rows)) else None
  }

  // The inserts of the transaction, one annotation at a time.
  method Evaluate(raw: RawInput, messages: seq<Message>) returns (r: Option<Stored>)
    ensures r == Evaluated(raw, messages)
  {
    var result := Parse(raw);
    if result.None? { return None; }
    var seqMap := BuildSeqMap(messages);
    var invalid := Validate(result.value, seqMap);
    if invalid.Some? { return None; }
    ghost var rows := Rows(result.value.annotations, seqMap);
    var inserted: seq<Annotation> := [];
    for i := 0 to |result.value.annotations|
      invariant inserted == rows[..i] && Unique(inserted)
    {
      var a := result.value.annotations[i];
      assert AnnotationOk(a, seqMap);
      var row := Annotation(seqMap[a.messageSeq], a.kind, a.content);
      if k :| 0 <= k < |inserted| && inserted[k].message == row.message && inserted[k].kind == row.kind {
        assert rows[k] == inserted[k] && rows[i] == row;
        assert !Unique(rows);
        return None;
      }
      inserted := inserted + [row];
    }
    assert rows[..|rows|] == rows;
    r := Some(Stored(result.value, inserted));
  }

  // A stored evaluation: six scores from 1 to 5, and every annotation of a known
  // type on a message of the transcript, at most one of each type per message.
  predicate Sound(e: Stored, messages: seq<Message>) {
    && ScoresInRange(e.result)
    && |e.annotations| == |e.result.annotations|
    && Unique(e.annotations)
    && forall i | 0 <= i < |e.annotations| ::
         var n := e.result.annotations[i].messageSeq;
         && e.annotations[i].kind in VALID_TYPES
         && 1 <= n <= |messages| && messages[n - 1].id == e.annotations[i].message
  }

  lemma {:induction false} EvaluatedIsSound(raw: RawInput, messages: seq<Message>)
    requires Gapless(messages)
    ensures Evaluated(raw, messages).Some? ==> Sound(Evaluated(raw, messages).value, messages)
  {
    SeqMapOfGapless(messages);
    if Evaluated(raw, messages).Some? {
      var e := Evaluated(raw, messages).value;
      forall i | 0 <= i < |e.annotations|
        ensures AnnotationOk(e.result.annotations[i], SeqMap(messages)) {
      }
    }
  }

  predicate RawScoreOk(x: real) { 1.0 <= x < 6.0 }

  lemma {:induction false} TruncateIntoRangeIff(x: real)
    ensures InRange(Truncate(x)) <==> RawScoreOk(x)
  {
  }

  predicate RawScoresOk(s: RawScores) {
    RawScoreOk(s.requirements) && RawScoreOk(s.architecture) && RawScoreOk(s.deepDive)
    && RawScoreOk(s.scalability) && RawScoreOk(s.communication) && RawScoreOk(s.overall)
  }

  // The annotation has a known type and names a message, once its fraction is dropped.
  predicate RawAnnotationOk(a: RawAnnotation, messages: seq<Message>) {
    a.kind in {"strength", "gap", "missed_opportunity", "note"} && 1 <= Truncate(a.messageSeq) <= |messages|
  }

  predicate RawOk(raw: RawInput, messages: seq<Message>) {
    && raw.scores.Some? && RawScoresOk(raw.scores.value)
    && forall i | 0 <= i < |raw.annotations| :: RawAnnotationOk(raw.annotations[i], messages)
  }

  lemma {:induction false} ScoresPassIff(raw: RawInput)
    requires raw.scores.Some?
    ensures ScoresInRange(Parsed(raw).value) <==> RawScoresOk(raw.scores.value)
  {
    var s := raw.scores.value;
    TruncateIntoRangeIff(s.requirements);
    TruncateIntoRangeIff(s.architecture);
    TruncateIntoRangeIff(s.deepDive);
    TruncateIntoRangeIff(s.scalability);
    TruncateIntoRangeIff(s.communication);
    TruncateIntoRangeIff(s.overall);
  }

  lemma {:induction false} ValidIff(raw: RawInput, messages: seq<Message>)
    requires Gapless(messages)
    ensures Parsed(raw).Some? && IsValid(Parsed(raw).value, SeqMap(messages)) <==> RawOk(raw, messages)
  {
    SeqMapOfGapless(messages);
    if raw.scores.Some? {
      ScoresPassIff(raw);
      var parsed := ParseAnnotations(raw.annotations);
      assert Parsed(raw).value.annotations == parsed;
      forall i | 0 <= i < |raw.annotations|
        ensures AnnotationOk(parsed[i], SeqMap(messages)) <==> RawAnnotationOk(raw.annotations[i], messages) {
      }
    }
  }

  // The score without its fraction.
  predicate IsScore(score: int, raw: real) { score as real <= raw < score as real + 1.0 }

  // What is stored is what the evaluator sent, column by column: the scores without their
  // fractions, the texts, and each annotation on the message it names.
  lemma {:induction false} StoredIsSent(raw: RawInput, messages: seq<Message>)
    requires Gapless(messages) && Evaluated(raw, messages).Some?
    ensures raw.scores.Some?
    ensures var e, s := Evaluated(raw, messages).value, raw.scores.value;
            && IsScore(e.result.requirements, s.requirements) && IsScore(e.result.architecture, s.architecture)
            && IsScore(e.result.deepDive, s.deepDive) && IsScore(e.result.scalability, s.scalability)
            && IsScore(e.result.communication, s.communication) && IsScore(e.result.overall, s.overall)
            && e.result.strengths == raw.strengths && e.result.gaps == raw.gaps && e.result.advice == raw.advice
            && |e.annotations| == |raw.annotations|
            && forall i | 0 <= i < |raw.annotations| ::
                 && e.annotations[i].kind == raw.annotations[i].kind
                 && e.annotations[i].content == raw.annotations[i].content
                 && exists n: int | 1 <= n <= |messages| ::
                      IsScore(n, raw.annotations[i].messageSeq) && e.annotations[i].message == messages[n - 1].id
  {
    var e, s := Evaluated(raw, messages).value, raw.scores.value;
    ValidIff(raw, messages);
    SeqMapOfGapless(messages);
    forall i | 0 <= i < |raw.annotations|
      ensures exists n: int | 1 <= n <= |messages| ::
                IsScore(n, raw.annotations[i].messageSeq) && e.annotations[i].message == messages[n - 1].id
    {
      assert RawAnnotationOk(raw.annotations[i], messages);
      TruncateIs(raw.annotations[i].messageSeq);
      var n := Truncate(raw.annotations[i].messageSeq);
      assert e.annotations[i].message == messages[n - 1].id;
      assert IsScore(n, raw.annotations[i].messageSeq);
    }
  }

  // Two annotations that UNIQUE (evaluation_id, message_id, annotation_type) refuses.
  predicate Collide(a: RawAnnotation, b: RawAnnotation, messages: seq<Message>)
    requires RawAnnotationOk(a, messages) && RawAnnotationOk(b, messages)
  {
    a.kind == b.kind && messages[Truncate(a.messageSeq) - 1].id == messages[Truncate(b.messageSeq) - 1].id
  }

  // Which tool inputs are stored, in terms of the numbers the evaluator sent. Fractions
  // are dropped first, so any score from 1 up to, but not including, 6 passes, and two
  // annotations of one type must not truncate to one message.
  lemma {:induction false} AcceptedIff(raw: RawInput, messages: seq<Message>)
    requires Gapless(messages)
    ensures Evaluated(raw, messages).Some?
            <==> RawOk(raw, messages)
                 && forall i, j | 0 <= i < j < |raw.annotations| ::
                      !Collide(raw.annotations[i], raw.annotations[j], messages)
  {
    ValidIff(raw, messages);
    SeqMapOfGapless(messages);
    if RawOk(raw, messages) {
      var numbers := SeqMap(messages);
      var parsed := ParseAnnotations(raw.annotations);
      forall i | 0 <= i < |parsed| ensures parsed[i].messageSeq in numbers {
        assert RawAnnotationOk(raw.annotations[i], messages);
      }
      var rows := Rows(parsed, numbers);
      assert Evaluated(raw, messages).Some? <==> Unique(rows);
      forall i | 0 <= i < |rows|
        ensures rows[i].kind == raw.annotations[i].kind
        ensures RawAnnotationOk(raw.annotations[i], messages)
        ensures rows[i].message == messages[Truncate(raw.annotations[i].messageSeq) - 1].id
      {
        assert RawAnnotationOk(raw.annotations[i], messages);
      }
      UniqueIff(rows, raw.annotations, messages);
    }
  }

  lemma {:induction false} UniqueIff(rows: seq<Annotation>, raw: seq<RawAnnotation>, messages: seq<Message>)
    requires |rows| == |raw|
    requires forall i | 0 <= i < |raw| ::
               && RawAnnotationOk(raw[i], messages) && rows[i].kind == raw[i].kind
               && rows[i].message == messages[Truncate(raw[i].messageSeq) - 1].id
    ensures Unique(rows) <==> forall i, j | 0 <= i < j < |raw| :: !Collide(raw[i], raw[j], messages)
  {
    if Unique(rows) {
      forall i, j | 0 <= i < j < |raw| ensures !Collide(raw[i], raw[j], messages) {
        assert rows[i].message != rows[j].message || rows[i].kind != rows[j].kind;
      }
    } else {
      var i, j :| 0 <= i < j < |rows| && rows[i].message == rows[j].message && rows[i].kind == rows[j].kind;
      assert Collide(raw[i], raw[j], messages);
    }
  }
}
