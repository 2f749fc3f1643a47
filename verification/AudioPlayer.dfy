/** The client's playback queue: chunks arrive in order, and the browser calls back when
    a chunk is decoded or has ended, in any timing. A chunk is named by its number. */
module AudioPlayer {
  // `decoding` and `sounding` are the callbacks outstanding, `kicks` the calls of
  // initContext that wait for the context; `started` and `completions` are what is heard.
  datatype State = State(ctx: bool, queue: seq<nat>, isPlaying: bool, isDone: bool, nextExpectedSeq: nat,
                         decoding: seq<nat>, sounding: seq<nat>, kicks: nat, arrived: nat,
                         started: seq<nat>, completions: nat)

  const INITIAL := State(false, [], false, false, 0, [], [], 0, 0, [], 0)

  // push, then a stable sort of a queue that was sorted before.
  function Insert(queue: seq<nat>, n: nat): seq<nat> {
    if queue == [] || queue[|queue| - 1] <= n then queue + [n]
    else Insert(queue[..|queue| - 1], n) + [queue[|queue| - 1]]
  }

  // findIndex; the length stands for "none".
  function Index(queue: seq<nat>, n: nat): (i: nat)
    ensures i <= |queue| && (i < |queue| ==> queue[i] == n) && forall j | 0 <= j < i :: queue[j] != n
  {
    if queue == [] || queue[0] == n then 0 else 1 + Index(queue[1..], n)
  }

  function Remove(queue: seq<nat>, i: nat): seq<nat>
    requires i < |queue|
  {
    queue[..i] + queue[i + 1..]
  }

  function Complete(s: State): State { s.(completions := s.completions + 1) }

  // playNext.
  function Advance(s: State): State {
    var i := Index(s.queue, s.nextExpectedSeq);
    if !s.ctx then s.(isPlaying := false)
    else if i == |s.queue| then
      var s1 := s.(isPlaying := s.queue != []);
      if !s1.isPlaying && s.isDone then Complete(s1) else s1
    else
      s.(queue := Remove(s.queue, i), nextExpectedSeq := s.nextExpectedSeq + 1, isPlaying := true,
         decoding := s.decoding + [s.nextExpectedSeq])
  }

  datatype Step = InitContext | Kick | Arrive | Decoded(i: nat, ok: bool) | Ended(i: nat) | Finish

  // `good` says which chunks decode. The `done` event follows the last chunk.
  predicate Enabled(good: nat -> bool, s: State, step: Step) {
    match step
    case InitContext => true
    case Kick => s.kicks > 0
    case Arrive => !s.isDone
    case Decoded(i, ok) => i < |s.decoding| && ok == good(s.decoding[i])
    case Ended(i) => i < |s.sounding|
    case Finish => !s.isDone
  }

  function KickNext(s: State): State {
    if s.queue != [] && !s.isPlaying then Advance(s.(isPlaying := true)) else s
  }

  function EnqueueNext(s: State, n: nat): State {
    var s1 := s.(queue := Insert(s.queue, n));
    if s.isPlaying then s1 else Advance(s1.(isPlaying := true))
  }

  function DecodedNext(s: State, i: nat, ok: bool): State
    requires i < |s.decoding|
  {
    var k := s.decoding[i];
    var s1 := s.(decoding := Remove(s.decoding, i));
    if !ok then Advance(s1)
    else if !s.ctx || !s.isPlaying then if s.queue == [] && s.isDone then Complete(s1) else s1
    else s1.(sounding := s.sounding + [k], started := s.started + [k])
  }

  function FinishNext(s: State): State {
    var s1 := s.(isDone := true);
    if !s.isPlaying && s.queue == [] then Complete(s1) else s1
  }

  function Next(good: nat -> bool, s: State, step: Step): State
    requires Enabled(good, s, step)
  {
    match step
    case InitContext => s.(ctx := true, kicks := s.kicks + 1)
    case Kick => KickNext(s.(kicks := s.kicks - 1))
    case Arrive => EnqueueNext(s, s.arrived).(arrived := s.arrived + 1)
    case Decoded(i, ok) => DecodedNext(s, i, ok)
    case Ended(i) => Advance(s.(sounding := Remove(s.sounding, i)))
    case Finish => FinishNext(s)
  }

  predicate LegalRun(good: nat -> bool, s: State, steps: seq<Step>)
    decreases |steps|
  {
    steps == [] || (Enabled(good, s, steps[0]) && LegalRun(good, Next(good, s, steps[0]), steps[1..]))
  }

  function Run(good: nat -> bool, s: State, steps: seq<Step>): State
    requires LegalRun(good, s, steps)
    decreases |steps|
  {
    if steps == [] then s else Run(good, Next(good, s, steps[0]), steps[1..])
  }

  // ---- What every timing keeps ----

  // The chunks below n that decode, in order.
  function Playable(good: nat -> bool, n: nat): seq<nat> {
    if n == 0 then [] else Playable(good, n - 1) + if good(n - 1) then [n - 1] else []
  }

  predicate Waiting(s: State) {
    && s.nextExpectedSeq + |s.queue| == s.arrived
    && forall i | 0 <= i < |s.queue| :: s.queue[i] == s.nextExpectedSeq + i
  }

  // One chunk is in hand while playing, none otherwise.
  predicate InHand(s: State) {
    && |s.decoding| + |s.sounding| == (if s.isPlaying then 1 else 0)
    && (s.isPlaying ==> s.ctx && s.nextExpectedSeq > 0)
    && (forall i | 0 <= i < |s.decoding| :: s.decoding[i] == s.nextExpectedSeq - 1)
    && (s.ctx && !s.isPlaying && s.queue != [] ==> s.kicks > 0)
  }

  // How many chunks have gone through the decoder.
  function Settled(s: State): nat {
    if s.decoding != [] && s.nextExpectedSeq > 0 then s.nextExpectedSeq - 1 else s.nextExpectedSeq
  }

  predicate Heard(good: nat -> bool, s: State) {
    && s.started == Playable(good, Settled(s))
    && s.completions == if s.isDone && !s.isPlaying && s.queue == [] then 1 else 0
  }

  predicate Inv(good: nat -> bool, s: State) { Waiting(s) && InHand(s) && Heard(good, s) }

  lemma {:induction false} IndexOfFirst(queue: seq<nat>, n: nat)
    requires forall i | 0 <= i < |queue| :: queue[i] == n + i
    ensures Index(queue, n) == 0 && (queue != [] ==> Remove(queue, 0) == queue[1..])
  {
  }

  // Advancing with nothing in hand takes the next chunk, or completes.
  lemma {:induction false} AdvanceKeeps(good: nat -> bool, s: State)
    requires Waiting(s) && s.decoding == [] && s.sounding == [] && (s.ctx || !s.isDone || s.queue != [])
    requires s.started == Playable(good, s.nextExpectedSeq) && s.completions == 0
    ensures Inv(good, Advance(s))
  {
    IndexOfFirst(s.queue, s.nextExpectedSeq);
  }

  lemma {:induction false} InsertLast(queue: seq<nat>, n: nat)
    requires forall i | 0 <= i < |queue| :: queue[i] <= n
    ensures Insert(queue, n) == queue + [n]
  {
  }

  lemma {:induction false} KickKeeps(good: nat -> bool, s: State)
    requires Inv(good, s) && Enabled(good, s, Kick)
    ensures Inv(good, Next(good, s, Kick))
  {
    var s1 := s.(kicks := s.kicks - 1);
    assert Next(good, s, Kick) == KickNext(s1);
    if s.queue != [] && !s.isPlaying {
      assert s.decoding == [] && s.sounding == [];
      AdvanceKeeps(good, s1.(isPlaying := true));
    } else {
      assert KickNext(s1) == s1;
    }
  }

  // The queue with the chunk in it, before playNext may run.
  lemma {:induction false} ArriveIsEnqueue(good: nat -> bool, s: State)
    requires Waiting(s) && Enabled(good, s, Arrive)
    ensures var s1 := s.(queue := s.queue + [s.arrived], arrived := s.arrived + 1);
            && Waiting(s1)
            && Next(good, s, Arrive) == if s.isPlaying then s1 else Advance(s1.(isPlaying := true))
  {
    InsertLast(s.queue, s.arrived);
  }

  lemma {:induction false} ArriveKeeps(good: nat -> bool, s: State)
    requires Inv(good, s) && Enabled(good, s, Arrive)
    ensures Inv(good, Next(good, s, Arrive))
  {
    ArriveIsEnqueue(good, s);
    var s1 := s.(queue := s.queue + [s.arrived], arrived := s.arrived + 1);
    if !s.isPlaying { AdvanceKeeps(good, s1.(isPlaying := true)); }
  }

  lemma {:induction false} DecodedKeeps(good: nat -> bool, s: State, i: nat, ok: bool)
    requires Inv(good, s) && Enabled(good, s, Decoded(i, ok))
    ensures Inv(good, Next(good, s, Decoded(i, ok)))
  {
    assert Remove(s.decoding, i) == [] && s.decoding[i] == s.nextExpectedSeq - 1;
    if !ok { AdvanceKeeps(good, s.(decoding := [])); }
  }

  lemma {:induction false} EndedKeeps(good: nat -> bool, s: State, i: nat)
    requires Inv(good, s) && Enabled(good, s, Ended(i))
    ensures Inv(good, Next(good, s, Ended(i)))
  {
    assert Remove(s.sounding, i) == [];
    AdvanceKeeps(good, s.(sounding := []));
  }

  lemma {:induction false} StepKeepsInv(good: nat -> bool, s: State, step: Step)
    requires Inv(good, s) && Enabled(good, s, step)
    ensures Inv(good, Next(good, s, step))
  {
    match step
    case InitContext =>
    case Kick => KickKeeps(good, s);
    case Arrive => ArriveKeeps(good, s);
    case Decoded(i, ok) => DecodedKeeps(good, s, i, ok);
    case Ended(i) => EndedKeeps(good, s, i);
    case Finish =>
  }

  lemma {:induction false} RunKeepsInv(good: nat -> bool, s: State, steps: seq<Step>)
    requires Inv(good, s) && LegalRun(good, s, steps)
    ensures Inv(good, Run(good, s, steps))
    decreases |steps|
  {
    if steps == [] {
    } else {
      StepKeepsInv(good, s, steps[0]);
      RunKeepsInv(good, Next(good, s, steps[0]), steps[1..]);
    }
  }

  // ---- Main results ----

  // At any moment what has been started is exactly the decodable chunks so far, in
  // order, never two at once; onComplete has fired exactly when the `done` event has
  // come and nothing is left, and then once.
  lemma {:induction false} PlaysInOrder(good: nat -> bool, steps: seq<Step>)
    requires LegalRun(good, INITIAL, steps)
    ensures var s := Run(good, INITIAL, steps);
            && (exists n | 0 <= n <= s.arrived :: s.started == Playable(good, n))
            && |s.sounding| <= 1
            && s.completions <= 1
            && (s.completions == 1 ==> s.isDone && s.started == Playable(good, s.arrived) && s.sounding == [])
  {
    RunKeepsInv(good, INITIAL, steps);
    var s := Run(good, INITIAL, steps);
    assert 0 <= Settled(s) <= s.arrived && s.started == Playable(good, Settled(s));
  }

  // No callback is outstanding.
  predicate Quiet(s: State) { s.decoding == [] && s.sounding == [] && s.kicks == 0 }

  // Once the context exists and the `done` event has come, a player with no callback
  // outstanding has played everything and said so.
  lemma {:induction false} QuietMeansComplete(good: nat -> bool, steps: seq<Step>)
    requires LegalRun(good, INITIAL, steps)
    requires var s := Run(good, INITIAL, steps); s.ctx && s.isDone && Quiet(s)
    ensures var s := Run(good, INITIAL, steps);
            s.started == Playable(good, s.arrived) && s.completions == 1
  {
    RunKeepsInv(good, INITIAL, steps);
  }

  predicate IsCallback(step: Step) { step.Kick? || step.Decoded? || step.Ended? }

  predicate OnlyCallbacks(steps: seq<Step>) { forall i | 0 <= i < |steps| :: IsCallback(steps[i]) }

  function Work(s: State): nat { 3 * |s.queue| + 2 * |s.decoding| + |s.sounding| + s.kicks }

  lemma {:induction false} CallbackUsesWork(good: nat -> bool, s: State, step: Step)
    requires Inv(good, s) && Enabled(good, s, step) && IsCallback(step)
    ensures var s' := Next(good, s, step);
            && Inv(good, s') && Work(s') < Work(s)
            && s'.ctx == s.ctx && s'.isDone == s.isDone && s'.arrived == s.arrived
  {
    StepKeepsInv(good, s, step);
  }

  // From any state that a run reaches: with no new chunks the player takes at most Work(s)
  // callbacks, and where none is left it is quiet.
  lemma {:induction false} CallbacksRunOut(good: nat -> bool, s: State, steps: seq<Step>)
    requires Inv(good, s) && LegalRun(good, s, steps) && OnlyCallbacks(steps)
    ensures var s' := Run(good, s, steps);
            && |steps| + Work(s') <= Work(s)
            && (Quiet(s') <==> forall step | IsCallback(step) :: !Enabled(good, s', step))
    decreases |steps|
  {
    if steps == [] {
      if !Quiet(s) { var step := SomeCallback(good, s); }
    } else {
      assert IsCallback(steps[0]);
      CallbackUsesWork(good, s, steps[0]);
      CallbacksRunOut(good, Next(good, s, steps[0]), steps[1..]);
    }
  }

  lemma {:induction false} SomeCallback(good: nat -> bool, s: State) returns (step: Step)
    requires !Quiet(s)
    ensures IsCallback(step) && Enabled(good, s, step)
  {
    step := if s.kicks > 0 then Kick
            else if s.decoding != [] then Decoded(0, good(s.decoding[0]))
            else Ended(0);
  }

  // And there is such a run to the end: the callbacks alone lead to a quiet player, which
  // has fired onComplete if it has a context and the `done` event has come.
  lemma {:induction false} CallbacksComplete(good: nat -> bool, s: State) returns (steps: seq<Step>)
    requires Inv(good, s)
    ensures LegalRun(good, s, steps) && OnlyCallbacks(steps)
    ensures var s' := Run(good, s, steps);
            && Quiet(s')
            && (s.ctx && s.isDone ==> s'.completions == 1 && s'.started == Playable(good, s.arrived))
    decreases Work(s)
  {
    if Quiet(s) {
      steps := [];
    } else {
      var step := SomeCallback(good, s);
      CallbackUsesWork(good, s, step);
      var rest := CallbacksComplete(good, Next(good, s, step));
      steps := [step] + rest;
      assert steps[1..] == rest;
    }
  }

  // ---- The object ----

  class Player {
    var ctx: bool
    var queue: seq<nat>
    var isPlaying: bool
    var isDone: bool
    var nextExpectedSeq: nat
    ghost var rest: State     // the callbacks outstanding, and what has been heard

    ghost function View(): State reads this {
      rest.(ctx := ctx, queue := queue, isPlaying := isPlaying, isDone := isDone, nextExpectedSeq := nextExpectedSeq)
    }

    constructor ()
      ensures View() == INITIAL
    {
      ctx, queue, isPlaying, isDone, nextExpectedSeq, rest := false, [], false, false, 0, INITIAL;
    }

    method FindIndex(n: nat) returns (idx: int)
      ensures idx == if Index(queue, n) == |queue| then -1 else Index(queue, n)
    {
      for i := 0 to |queue|
        invariant forall j | 0 <= j < i :: queue[j] != n
      {
        if queue[i] == n { return i; }
      }
      return -1;
    }

    method PlayNext()
      modifies this
      ensures View() == Advance(old(View()))
    {
      if !ctx {
        isPlaying := false;
        return;
      }
      var idx := FindIndex(nextExpectedSeq);
      if idx == -1 {
        isPlaying := |queue| > 0;
        if !isPlaying && isDone { rest := Complete(rest); }
        return;
      }
      queue := queue[..idx] + queue[idx + 1..];
      rest := rest.(decoding := rest.decoding + [nextExpectedSeq]);
      nextExpectedSeq := nextExpectedSeq + 1;
      isPlaying := true;
    }

    method InitContext()
      modifies this
      ensures View() == Next(_ => true, Next(_ => true, old(View()), Step.InitContext), Kick)
    {
      ctx := true;
      if |queue| > 0 && !isPlaying {
        isPlaying := true;
        PlayNext();
      }
    }

    method Enqueue(n: nat)
      modifies this
      ensures View() == EnqueueNext(old(View()), n)
    {
      queue := Insert(queue, n);
      if !isPlaying {
        isPlaying := true;
        PlayNext();
      }
    }

    method OnDecoded(ghost i: nat, ok: bool)
      requires i < |rest.decoding|
      modifies this
      ensures View() == DecodedNext(old(View()), i, ok)
    {
      ghost var k := rest.decoding[i];
      rest := rest.(decoding := Remove(rest.decoding, i));
      if !ok {
        PlayNext();
      } else if !ctx || !isPlaying {
        if |queue| == 0 && isDone { rest := Complete(rest); }
      } else {
        rest := rest.(sounding := rest.sounding + [k], started := rest.started + [k]);
      }
    }

    method OnEnded(ghost i: nat)
      requires i < |rest.sounding|
      modifies this
      ensures View() == Advance(old(View()).(sounding := Remove(old(rest).sounding, i)))
    {
      rest := rest.(sounding := Remove(rest.sounding, i));
      PlayNext();
    }

    method Done()
      modifies this
      ensures View() == FinishNext(old(View()))
    {
      isDone := true;
      if !isPlaying && |queue| == 0 { rest := Complete(rest); }
    }
  }
}
