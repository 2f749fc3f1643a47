/** The producer side of the speech accumulator: a buffer of text, cut into sentences
    that go to a bounded channel without ever blocking. */
module TtsAccumulator {
  import opened Splitter

  const CAPACITY: nat := 32

  predicate OccursAt(s: string, b: string, i: nat) { i + |b| <= |s| && s[i..i + |b|] == b }

  // strings.Index: the first occurrence of b in s at or after `from`, or -1.
  function Index(s: string, b: string, from: nat): (r: int)
    requires b != ""
    ensures r == -1 || (from <= r && OccursAt(s, b, r))
    ensures forall i: nat | from <= i && OccursAt(s, b, i) :: 0 <= r <= i
    decreases |s| - from
  {
    if from + |b| > |s| then -1
    else if OccursAt(s, b, from) then from
    else Index(s, b, from + 1)
  }

  // The sentences that were sent, and not dropped.
  function Kept(sentences: seq<string>, sent: seq<bool>): seq<string>
    requires |sentences| == |sent|
  {
    if sent == [] then []
    else Kept(sentences[..|sent| - 1], sent[..|sent| - 1])
         + if sent[|sent| - 1] then [sentences[|sent| - 1]] else []
  }

  lemma {:induction false} KeptSnoc(sentences: seq<string>, sent: seq<bool>, sentence: string, ok: bool)
    requires |sentences| == |sent|
    ensures Kept(sentences + [sentence], sent + [ok]) == Kept(sentences, sent) + if ok then [sentence] else []
  {
  }

  datatype Outcome = Sent | Dropped | Aborted

  class Accumulator {
    var buf: string
    var sentCh: seq<string>
    var closed: bool
    var cancelled: bool
    var ttsErrors: nat              // calls of HandleTTSError by this goroutine
    ghost var taken: seq<string>    // what the consumer goroutine has received

    ghost predicate Valid() reads this { |sentCh| <= CAPACITY }

    // Everything that ever entered the channel, in order.
    ghost function Received(): seq<string> reads this { taken + sentCh }

    constructor ()
      ensures Valid() && buf == "" && sentCh == [] && !closed && !cancelled && ttsErrors == 0 && taken == []
    {
      buf, sentCh, closed, cancelled, ttsErrors, taken := "", [], false, false, 0, [];
    }

    // The scan over the six suffixes finds the earliest boundary.
    method FindBoundary(s: string) returns (idx: int, len: nat)
      ensures idx == FirstBoundary(s, 0)
      ensures idx != -1 ==> len == 2
    {
      idx, len := -1, 0;
      for k := 0 to |BOUNDARIES|
        invariant idx == -1 || (0 <= idx && BoundaryAt(s, idx) && len == 2)
        invariant forall i: nat, j | 0 <= j < k && OccursAt(s, BOUNDARIES[j], i) :: 0 <= idx <= i
      {
        var b := BOUNDARIES[k];
        var i := Index(s, b, 0);
        if i >= 0 && (idx == -1 || i < idx) { idx, len := i, |b|; }
      }
      assert forall i: nat | BoundaryAt(s, i) :: 0 <= idx <= i by {
        forall i: nat | BoundaryAt(s, i) ensures 0 <= idx <= i {
          var j :| 0 <= j < |BOUNDARIES| && BOUNDARIES[j] == s[i..i + 2];
          assert OccursAt(s, BOUNDARIES[j], i);
        }
      }
    }

    // The consumer receives any number of queued sentences.
    method Receive()
      requires Valid()
      modifies this`sentCh, this`taken
      ensures Valid() && Received() == old(Received()) && |sentCh| <= |old(sentCh)|
    {
      var received: nat :| received <= |sentCh|;
      assert sentCh == sentCh[..received] + sentCh[received..];
      ConcatAssociates(taken, sentCh[..received], sentCh[received..]);
      taken, sentCh := taken + sentCh[..received], sentCh[received..];
    }

    // The select statement. Before it runs, the consumer may have received any number
    // of queued sentences. A full channel drops; a cancelled context may win over a
    // channel with room.
    method Send(sentence: string) returns (outcome: Outcome)
      requires Valid() && !closed
      modifies this`sentCh, this`ttsErrors, this`taken
      ensures Valid() && |sentCh| <= |old(sentCh)| + 1
      ensures Received() == old(Received()) + if outcome == Sent then [sentence] else []
      ensures ttsErrors == old(ttsErrors) + if outcome == Dropped then 1 else 0
      ensures outcome == Dropped ==> !cancelled && |old(sentCh)| == 32
      ensures outcome == Aborted ==> cancelled
    {
      Receive();
      var ready: bool :| true;
      if |sentCh| < CAPACITY && (!cancelled || ready) {
        ConcatAssociates(taken, sentCh, [sentence]);
        sentCh := sentCh + [sentence];
        outcome := Sent;
      } else if cancelled {
        outcome := Aborted;
      } else {
        ttsErrors := ttsErrors + 1;
        outcome := Dropped;
      }
    }

    // One round of the loop: the first sentence leaves the buffer.
    method EmitFirst(idx: nat) returns (outcome: Outcome)
      requires Valid() && !closed && FirstBoundary(buf, 0) == idx
      modifies this`buf, this`sentCh, this`ttsErrors, this`taken
      ensures Valid() && |sentCh| <= |old(sentCh)| + 1
      ensures |buf| < |old(buf)|
      ensures Sentences(old(buf)) == [old(buf)[..idx + 2]] + Sentences(buf) && Leftover(old(buf)) == Leftover(buf)
      ensures Received() == old(Received()) + if outcome == Sent then [old(buf)[..idx + 2]] else []
      ensures ttsErrors == old(ttsErrors) + if outcome == Dropped then 1 else 0
      ensures outcome == Dropped ==> !cancelled && |old(sentCh)| == 32
      ensures outcome == Aborted ==> cancelled
    {
      var sentence := buf[..idx + 2];
      buf := buf[idx + 2..];
      outcome := Send(sentence);
    }

    // Part-way through a token: of the sentences of `text` those `done` have been cut off,
    // each `sent` or not; `received` and `errors` are where the token began.
    ghost predicate Progress(text: string, done: seq<string>, sent: seq<bool>, received: seq<string>, errors: nat)
      reads this
    {
      && |sent| == |done| && Sentences(text) == done + Sentences(buf) && Leftover(text) == Leftover(buf)
      && Received() == received + Kept(done, sent)
      && (!cancelled ==> ttsErrors - errors == |sent| - |Kept(done, sent)|)
    }

    method Round(idx: nat, ghost text: string, ghost done: seq<string>, ghost sent: seq<bool>,
                 ghost received: seq<string>, ghost errors: nat) returns (outcome: Outcome)
      requires Valid() && !closed && FirstBoundary(buf, 0) == idx && Progress(text, done, sent, received, errors)
      modifies this`buf, this`sentCh, this`ttsErrors, this`taken
      ensures Valid() && |buf| < |old(buf)| && |sentCh| <= |old(sentCh)| + 1
      ensures Progress(text, done + [old(buf)[..idx + 2]], sent + [outcome == Sent], received, errors)
      ensures ttsErrors != old(ttsErrors) ==> |old(sentCh)| == 32
      ensures outcome == Aborted ==> cancelled
    {
      ghost var sentence := buf[..idx + 2];
      outcome := EmitFirst(idx);
      ConcatAssociates(done, [sentence], Sentences(buf));
      KeptSnoc(done, sent, sentence, outcome == Sent);
      ConcatAssociates(received, Kept(done, sent), if outcome == Sent then [sentence] else []);
    }

    // Without cancellation a token yields exactly the sentences of the buffered text,
    // each either sent, in order, or reported as an error; the rest stays buffered.
    // While the channel has room for all of them none is dropped.
    method OnToken(token: string) returns (ghost sent: seq<bool>)
      requires Valid() && (closed ==> Sentences(buf + token) == [])
      modifies this`buf, this`sentCh, this`ttsErrors, this`taken
      ensures Valid()
      ensures !cancelled ==>
                && buf == Leftover(old(buf) + token)
                && |sent| == |Sentences(old(buf) + token)|
                && Received() == old(Received()) + Kept(Sentences(old(buf) + token), sent)
                && ttsErrors - old(ttsErrors) == |sent| - |Kept(Sentences(old(buf) + token), sent)|
                && (|old(sentCh)| + |sent| <= 32 ==> ttsErrors == old(ttsErrors))
    {
      buf := buf + token;
      ghost var text, received, errors := buf, Received(), ttsErrors;
      ghost var done: seq<string> := [];
      sent := [];
      while true
        invariant Valid() && |sentCh| <= |old(sentCh)| + |sent|
        invariant closed ==> Sentences(buf) == []
        invariant Progress(text, done, sent, received, errors)
        invariant |old(sentCh)| + |sent| <= 32 ==> ttsErrors == errors
        decreases |buf|
      {
        var idx, len := FindBoundary(buf);
        if idx == -1 { break; }
        ghost var sentence := buf[..idx + len];
        var outcome := Round(idx, text, done, sent, received, errors);
        done, sent := done + [sentence], sent + [outcome == Sent];
        if outcome == Aborted { break; }
      }
      assert !cancelled ==> done == Sentences(text);
    }

    // The rest is trimmed and sent if anything remains; then the channel is closed.
    // Sending on a closed channel panics, so a second call must find nothing to send.
    method OnDone() returns (ghost outcome: Outcome)
      requires Valid() && (closed ==> TrimSpace(buf) == "")
      modifies this`sentCh, this`ttsErrors, this`taken, this`closed
      ensures Valid() && closed
      ensures var rest := TrimSpace(buf);
              Received() == old(Received()) + if rest != "" && outcome == Sent then [rest] else []
      ensures ttsErrors == old(ttsErrors) + if TrimSpace(buf) != "" && outcome == Dropped then 1 else 0
      ensures outcome == Aborted ==> cancelled
    {
      outcome := Sent;
      var remaining := TrimSpace(buf);
      if remaining != "" {
        var o := Send(remaining);
        outcome := o;
      }
      closed := true;
    }

    method OnError()
      requires Valid()
      modifies this`cancelled
      ensures Valid() && cancelled
    {
      cancelled := true;
    }
  }
}
