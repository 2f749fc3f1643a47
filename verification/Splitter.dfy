/** Cutting a stream of text into sentences. */
module Splitter {
  // The two-character suffixes that end a sentence.
  const BOUNDARIES: seq<string> := [". ", "? ", "! ", ".\n", "?\n", "!\n"]

  predicate BoundaryAt(s: string, i: nat) { i + 2 <= |s| && s[i..i + 2] in BOUNDARIES }

  // Where the first boundary at or after `from` starts; -1 if there is none.
  function FirstBoundary(s: string, from: nat): (r: int)
    ensures r == -1 || (from <= r && BoundaryAt(s, r))
    ensures forall i: nat | from <= i && BoundaryAt(s, i) :: 0 <= r <= i
    decreases |s| - from
  {
    if from + 2 > |s| then -1
    else if BoundaryAt(s, from) then from
    else FirstBoundary(s, from + 1)
  }

  // All complete sentences of s, and what is left.
  function Sentences(s: string): seq<string>
    decreases |s|
  {
    var i := FirstBoundary(s, 0);
    if i == -1 then [] else [s[..i + 2]] + Sentences(s[i + 2..])
  }

  function Leftover(s: string): string
    decreases |s|
  {
    var i := FirstBoundary(s, 0);
    if i == -1 then s else Leftover(s[i + 2..])
  }

  function Concat(parts: seq<string>): string {
    if parts == [] then "" else parts[0] + Concat(parts[1..])
  }

  // A sentence ends where a full stop, question or exclamation mark meets a space or the
  // end of a line.
  lemma {:induction false} BoundaryIff(s: string, i: nat)
    ensures BoundaryAt(s, i) <==> i + 2 <= |s| && s[i] in {'.', '?', '!'} && s[i + 1] in {' ', '\n'}
  {
    if i + 2 <= |s| {
      var pair := s[i..i + 2];
      assert pair == [s[i], s[i + 1]];
      if s[i] in {'.', '?', '!'} && s[i + 1] in {' ', '\n'} {
        var k := (if s[i] == '.' then 0 else if s[i] == '?' then 1 else 2) + if s[i + 1] == ' ' then 0 else 3;
        assert BOUNDARIES[k] == pair;
      }
    }
  }

  // ---- The split is the only one of its kind ----

  predicate NoBoundary(s: string) { forall i: nat | i < |s| :: !BoundaryAt(s, i) }

  // A sentence ends with its first boundary.
  predicate IsSentence(s: string) {
    |s| >= 2 && BoundaryAt(s, |s| - 2) && forall i: nat | i < |s| - 2 :: !BoundaryAt(s, i)
  }

  predicate IsSplit(s: string, sentences: seq<string>, rest: string) {
    && Concat(sentences) + rest == s
    && (forall k | 0 <= k < |sentences| :: IsSentence(sentences[k]))
    && NoBoundary(rest)
  }

  lemma {:induction false} BoundaryInPrefix(s: string, n: nat, i: nat)
    requires n <= |s| && i + 2 <= n
    ensures BoundaryAt(s[..n], i) <==> BoundaryAt(s, i)
  {
    assert s[..n][i..i + 2] == s[i..i + 2];
  }

  lemma {:induction false} FirstSentence(s: string)
    requires FirstBoundary(s, 0) != -1
    ensures IsSentence(s[..FirstBoundary(s, 0) + 2])
  {
    var i := FirstBoundary(s, 0);
    var first := s[..i + 2];
    BoundaryInPrefix(s, i + 2, i);
    assert BoundaryAt(first, |first| - 2);
    forall j: nat | j < |first| - 2 ensures !BoundaryAt(first, j) {
      BoundaryInPrefix(s, i + 2, j);
      assert !BoundaryAt(s, j);
    }
  }

  lemma {:induction false} ConcatCons(first: string, parts: seq<string>, rest: string)
    ensures Concat([first] + parts) + rest == first + (Concat(parts) + rest)
  {
  }

  lemma {:induction false} OneMoreSentence(first: string, tail: string, parts: seq<string>, rest: string,
                                           s: string, sentences: seq<string>)
    requires IsSentence(first) && IsSplit(tail, parts, rest)
    requires s == first + tail && sentences == [first] + parts
    ensures IsSplit(s, sentences, rest)
  {
    ConcatCons(first, parts, rest);
  }

  lemma {:induction false} NoSentence(s: string)
    requires FirstBoundary(s, 0) == -1
    ensures Sentences(s) == [] && Leftover(s) == s && IsSplit(s, [], s)
  {
    assert Concat([]) + s == s;
  }

  lemma {:induction false} HeadSentence(s: string) returns (first: string, tail: string)
    requires FirstBoundary(s, 0) != -1
    ensures s == first + tail && |tail| < |s| && IsSentence(first)
    ensures Sentences(s) == [first] + Sentences(tail) && Leftover(s) == Leftover(tail)
  {
    var i := FirstBoundary(s, 0);
    first, tail := s[..i + 2], s[i + 2..];
    FirstSentence(s);
  }

  lemma {:induction false} SplitIsSplit(s: string)
    ensures IsSplit(s, Sentences(s), Leftover(s))
    decreases |s|
  {
    if FirstBoundary(s, 0) == -1 {
      NoSentence(s);
    } else {
      var first, tail := HeadSentence(s);
      SplitIsSplit(tail);
      OneMoreSentence(first, tail, Sentences(tail), Leftover(tail), s, Sentences(s));
    }
  }

  // Nothing else rebuilds s from sentences that end at their first boundary and a
  // rest without any.
  lemma {:induction false} SplitIsUnique(s: string, sentences: seq<string>, rest: string)
    requires IsSplit(s, sentences, rest)
    ensures sentences == Sentences(s) && rest == Leftover(s)
    decreases |sentences|
  {
    if sentences == [] {
      assert s == rest;
      assert FirstBoundary(s, 0) == -1;
    } else {
      var first := sentences[0];
      var tail := Concat(sentences[1..]) + rest;
      assert s == first + tail;
      var n := |first|;
      assert s[..n] == first && s[n..] == tail;
      forall j: nat | j <= n - 2 ensures BoundaryAt(first, j) <==> BoundaryAt(s, j) { BoundaryInPrefix(s, n, j); }
      assert FirstBoundary(s, 0) == n - 2;
      SplitIsUnique(tail, sentences[1..], rest);
      assert sentences == [first] + sentences[1..];
    }
  }

  // ---- Streaming ----

  lemma {:induction false} FirstBoundaryAppend(s: string, t: string)
    requires FirstBoundary(s, 0) != -1
    ensures FirstBoundary(s + t, 0) == FirstBoundary(s, 0)
  {
    var i := FirstBoundary(s, 0);
    assert (s + t)[..|s|] == s;
    forall j: nat | j <= i ensures BoundaryAt(s + t, j) <==> BoundaryAt(s, j) { BoundaryInPrefix(s + t, |s|, j); }
  }

  lemma {:induction false} ConcatAssociates(a: seq<string>, b: seq<string>, c: seq<string>)
    ensures a + (b + c) == (a + b) + c
  {
  }

  // Splitting s first and the rest together with t later is splitting s + t at once.
  lemma {:induction false} SplitAppend(s: string, t: string)
    ensures Sentences(s + t) == Sentences(s) + Sentences(Leftover(s) + t)
    ensures Leftover(s + t) == Leftover(Leftover(s) + t)
    decreases |s|
  {
    var i := FirstBoundary(s, 0);
    if i == -1 {
      assert [] + Sentences(s + t) == Sentences(s + t);
    } else {
      var first, rest := s[..i + 2], s[i + 2..];
      FirstBoundaryAppend(s, t);
      assert (s + t)[..i + 2] == first && (s + t)[i + 2..] == rest + t;
      SplitAppend(rest, t);
      assert Sentences(s + t) == [first] + Sentences(rest + t);
      ConcatAssociates([first], Sentences(rest), Sentences(Leftover(rest) + t));
    }
  }

  // The sentences of tokens fed one by one to a buffer.
  function Stream(buf: string, tokens: seq<string>): seq<string>
    decreases |tokens|
  {
    if tokens == [] then [] else Sentences(buf + tokens[0]) + Stream(Leftover(buf + tokens[0]), tokens[1..])
  }

  function StreamRest(buf: string, tokens: seq<string>): string
    decreases |tokens|
  {
    if tokens == [] then buf else StreamRest(Leftover(buf + tokens[0]), tokens[1..])
  }

  lemma {:induction false} FirstToken(buf: string, tokens: seq<string>)
    requires tokens != []
    ensures buf + Concat(tokens) == (buf + tokens[0]) + Concat(tokens[1..])
  {
  }

  lemma {:induction false} NoToken(buf: string)
    requires NoBoundary(buf)
    ensures buf + Concat([]) == buf && Sentences(buf) == [] && Leftover(buf) == buf
  {
    assert FirstBoundary(buf, 0) == -1;
  }

  // However a text is cut into tokens, streaming gives the sentences and the rest of
  // the whole text.
  lemma {:induction false} StreamingRefinesSplit(buf: string, tokens: seq<string>)
    requires NoBoundary(buf)
    ensures Stream(buf, tokens) == Sentences(buf + Concat(tokens))
    ensures StreamRest(buf, tokens) == Leftover(buf + Concat(tokens))
    decreases |tokens|
  {
    if tokens == [] {
      NoToken(buf);
    } else {
      var s, rest := buf + tokens[0], Concat(tokens[1..]);
      assert NoBoundary(Leftover(s)) by { SplitIsSplit(s); }
      StreamingRefinesSplit(Leftover(s), tokens[1..]);
      SplitAppend(s, rest);
      FirstToken(buf, tokens);
    }
  }

  // ---- TrimSpace ----

  // The code points with the Unicode White_Space property.
  predicate IsSpace(c: char) {
    var n := c as int;
    9 <= n <= 13 || n == 32 || n == 0x85 || n == 0xA0 || n == 0x1680 || 0x2000 <= n <= 0x200A
    || n == 0x2028 || n == 0x2029 || n == 0x202F || n == 0x205F || n == 0x3000
  }

  // The same as a table: six in ASCII, and nineteen beyond.
  const SPACES: set<char> :=
    {'\t', '\n', '\U{000B}', '\U{000C}', '\r', ' ', '\U{0085}', '\U{00A0}', '\U{1680}', '\U{2000}', '\U{2001}',
     '\U{2002}', '\U{2003}', '\U{2004}', '\U{2005}', '\U{2006}', '\U{2007}', '\U{2008}', '\U{2009}', '\U{200A}',
     '\U{2028}', '\U{2029}', '\U{202F}', '\U{205F}', '\U{3000}'}

  lemma {:induction false} IsSpaceIff(c: char)
    ensures IsSpace(c) <==> c in SPACES
  {
  }

  function TrimLeft(s: string): string {
    if s != "" && IsSpace(s[0]) then TrimLeft(s[1..]) else s
  }

  function TrimRight(s: string): string {
    if s != "" && IsSpace(s[|s| - 1]) then TrimRight(s[..|s| - 1]) else s
  }

  function TrimSpace(s: string): string { TrimRight(TrimLeft(s)) }

  predicate AllSpace(s: string) { forall i | 0 <= i < |s| :: IsSpace(s[i]) }

  lemma {:induction false} TrimLeftFacts(s: string) returns (lead: string)
    ensures s == lead + TrimLeft(s) && AllSpace(lead)
    ensures TrimLeft(s) != "" ==> !IsSpace(TrimLeft(s)[0])
  {
    if s != "" && IsSpace(s[0]) {
      var rest := TrimLeftFacts(s[1..]);
      lead := [s[0]] + rest;
    } else {
      lead := "";
    }
  }

  lemma {:induction false} TrimRightFacts(s: string) returns (trail: string)
    ensures s == TrimRight(s) + trail && AllSpace(trail)
    ensures TrimRight(s) != "" ==> !IsSpace(TrimRight(s)[|TrimRight(s)| - 1])
  {
    if s != "" && IsSpace(s[|s| - 1]) {
      var rest := TrimRightFacts(s[..|s| - 1]);
      trail := rest + [s[|s| - 1]];
    } else {
      trail := "";
    }
  }

  // Trimming removes spaces at both ends, all of them, and nothing else.
  lemma {:induction false} TrimSpaceFacts(s: string) returns (lead: string, trail: string)
    ensures s == lead + TrimSpace(s) + trail && AllSpace(lead) && AllSpace(trail)
    ensures var r := TrimSpace(s); r != "" ==> !IsSpace(r[0]) && !IsSpace(r[|r| - 1])
    ensures TrimSpace(s) == "" <==> AllSpace(s)
  {
    lead := TrimLeftFacts(s);
    trail := TrimRightFacts(TrimLeft(s));
    var r := TrimSpace(s);
    assert TrimLeft(s) == r + trail;
    assert s == lead + (r + trail);
    if r == "" {
      assert s == lead + trail;
    } else {
      assert s[|lead|] == r[0];
      assert r[0] == TrimLeft(s)[0];
    }
  }

  predicate IsTrimmed(s: string) { s == "" || (!IsSpace(s[0]) && !IsSpace(s[|s| - 1])) }

  lemma {:induction false} TrimLeftDrops(lead: string, s: string)
    requires AllSpace(lead) && (s == "" || !IsSpace(s[0]))
    ensures TrimLeft(lead + s) == s
  {
    if lead == "" {
      assert lead + s == s;
    } else {
      assert (lead + s)[0] == lead[0] && (lead + s)[1..] == lead[1..] + s;
      TrimLeftDrops(lead[1..], s);
    }
  }

  lemma {:induction false} TrimRightDrops(s: string, trail: string)
    requires AllSpace(trail) && (s == "" || !IsSpace(s[|s| - 1]))
    ensures TrimRight(s + trail) == s
  {
    if trail == "" {
      assert s + trail == s;
    } else {
      var n := |trail| - 1;
      assert (s + trail)[|s + trail| - 1] == trail[n] && (s + trail)[..|s + trail| - 1] == s + trail[..n];
      TrimRightDrops(s, trail[..n]);
    }
  }

  // And that is the only result there is.
  lemma {:induction false} TrimSpaceIs(lead: string, s: string, trail: string)
    requires AllSpace(lead) && IsTrimmed(s) && AllSpace(trail)
    ensures TrimSpace((lead + s) + trail) == s
  {
    if s == "" {
      var all := (lead + s) + trail;
      var _, _ := TrimSpaceFacts(all);
      forall i | 0 <= i < |all| ensures IsSpace(all[i]) {
        assert all[i] == if i < |lead| then lead[i] else trail[i - |lead|];
      }
    } else {
      assert (lead + s) + trail == lead + (s + trail) && (s + trail)[0] == s[0];
      TrimLeftDrops(lead, s + trail);
      TrimRightDrops(s, trail);
    }
  }
}
