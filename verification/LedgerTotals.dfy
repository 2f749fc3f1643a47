/** Sums over the ledger, and how one statement changes them. */
module LedgerTotals {
  import opened Options
  import opened Distribution
  import opened Ledger

  // Which rows a column selects.
  datatype Key = Any | Absent | Present | Exactly(id: nat) | Below(bound: nat)

  predicate Selects(key: Key, id: Option<nat>) {
    match key
    case Any => true
    case Absent => id.None?
    case Present => id.Some?
    case Exactly(k) => id == Some(k)
    case Below(k) => id.Some? && id.value < k
  }

  datatype Filter = Filter(grant: Key, session: Key, user: Key) {
    predicate Matches(e: Entry) {
      Selects(grant, Some(e.grant)) && Selects(session, e.session) && Selects(user, Some(e.user))
    }
  }

  function Total(entries: seq<Entry>, f: Filter): int {
    if entries == [] then 0
    else
      var e := entries[|entries| - 1];
      Total(entries[..|entries| - 1], f) + if f.Matches(e) then e.amount else 0
  }

  lemma {:induction false} TotalAppend(a: seq<Entry>, b: seq<Entry>, f: Filter)
    ensures Total(a + b, f) == Total(a, f) + Total(b, f)
  {
    if b == [] {
      assert a + b == a;
    } else {
      assert (a + b)[..|a + b| - 1] == a + b[..|b| - 1];
      TotalAppend(a, b[..|b| - 1], f);
    }
  }

  // Two filters that split the entries of a third split its total.
  lemma {:induction false} TotalSplit(entries: seq<Entry>, whole: Filter, left: Filter, right: Filter)
    requires forall i | 0 <= i < |entries| ::
               && (whole.Matches(entries[i]) <==> left.Matches(entries[i]) || right.Matches(entries[i]))
               && !(left.Matches(entries[i]) && right.Matches(entries[i]))
    ensures Total(entries, whole) == Total(entries, left) + Total(entries, right)
  {
    if entries == [] {
    } else {
      TotalSplit(entries[..|entries| - 1], whole, left, right);
    }
  }

  lemma {:induction false} TotalSame(entries: seq<Entry>, f: Filter, h: Filter)
    requires forall i | 0 <= i < |entries| :: f.Matches(entries[i]) <==> h.Matches(entries[i])
    ensures Total(entries, f) == Total(entries, h)
  {
    if entries == [] {
    } else {
      TotalSame(entries[..|entries| - 1], f, h);
    }
  }

  lemma {:induction false} TotalNone(entries: seq<Entry>, f: Filter)
    requires forall i | 0 <= i < |entries| :: !f.Matches(entries[i])
    ensures Total(entries, f) == 0
  {
    if entries == [] {
    } else {
      TotalNone(entries[..|entries| - 1], f);
    }
  }

  // ---- Amounts of one statement ----

  // What the moves add to grant g.
  function AmountOf(moves: seq<Share>, g: nat): int {
    if moves == [] then 0
    else (if moves[0].grant == g then moves[0].amount else 0) + AmountOf(moves[1..], g)
  }

  lemma {:induction false} AddAllAmounts(grants: seq<Grant>, moves: seq<Share>, g: nat)
    requires WithinGrants(moves, |grants|) && g < |grants|
    ensures AddAll(grants, moves)[g] == grants[g].(remaining := grants[g].remaining + AmountOf(moves, g))
    decreases |moves|
  {
    if moves == [] {
    } else {
      var h := moves[0].grant;
      AddAllAmounts(grants[h := grants[h].(remaining := grants[h].remaining + moves[0].amount)], moves[1..], g);
    }
  }

  lemma {:induction false} LogShape(user: nat, moves: seq<Share>, reason: Reason, session: nat)
    ensures var log := LogOf(user, moves, reason, session);
            && |log| == |moves|
            && forall i | 0 <= i < |log| ::
                 log[i] == Entry(user, moves[i].grant, moves[i].amount, reason, Some(session))
  {
    if moves == [] {
    } else {
      LogShape(user, moves[1..], reason, session);
    }
  }

  // A log of one statement, seen by a filter that accepts its session and user.
  lemma {:induction false} LogTotal(user: nat, moves: seq<Share>, reason: Reason, session: nat, f: Filter)
    requires Selects(f.session, Some(session)) && Selects(f.user, Some(user))
    ensures f.grant.Any? ==> Total(LogOf(user, moves, reason, session), f) == Sum(moves)
    ensures f.grant.Exactly? ==> Total(LogOf(user, moves, reason, session), f) == AmountOf(moves, f.grant.id)
  {
    if moves == [] {
    } else {
      var first := [Entry(user, moves[0].grant, moves[0].amount, reason, Some(session))];
      TotalAppend(first, LogOf(user, moves[1..], reason, session), f);
      LogTotal(user, moves[1..], reason, session, f);
      assert first[..0] == [];
    }
  }

  lemma {:induction false} LogUnseen(user: nat, moves: seq<Share>, reason: Reason, session: nat, f: Filter)
    requires !Selects(f.session, Some(session)) || !Selects(f.user, Some(user))
    ensures Total(LogOf(user, moves, reason, session), f) == 0
  {
    LogShape(user, moves, reason, session);
    TotalNone(LogOf(user, moves, reason, session), f);
  }

  lemma {:induction false} AmountOfDistinct(moves: seq<Share>, i: nat)
    requires DistinctShares(moves) && i < |moves|
    ensures AmountOf(moves, moves[i].grant) == moves[i].amount
  {
    if i == 0 {
      AmountOfAbsent(moves[1..], moves[0].grant);
    } else {
      AmountOfDistinct(moves[1..], i - 1);
    }
  }

  lemma {:induction false} AmountOfAbsent(moves: seq<Share>, g: nat)
    requires forall i | 0 <= i < |moves| :: moves[i].grant != g
    ensures AmountOf(moves, g) == 0
  {
    if moves == [] {
    } else {
      AmountOfAbsent(moves[1..], g);
    }
  }

  lemma {:induction false} NegatedAmounts(shares: seq<Share>, g: nat)
    ensures AmountOf(Negated(shares), g) == -AmountOf(shares, g)
    ensures Sum(Negated(shares)) == -Sum(shares)
    decreases |shares|
  {
    if shares == [] {
    } else {
      assert Negated(shares)[1..] == Negated(shares[1..]);
      NegatedAmounts(shares[1..], g);
    }
  }

  // ---- Reserve rows ----

  lemma {:induction false} ReserveRowsAppend(a: seq<Entry>, b: seq<Entry>, s: nat)
    ensures ReserveRows(a + b, s) == ReserveRows(a, s) + ReserveRows(b, s)
  {
    if b == [] {
      assert a + b == a;
    } else {
      assert (a + b)[..|a + b| - 1] == a + b[..|b| - 1];
      ReserveRowsAppend(a, b[..|b| - 1], s);
    }
  }

  lemma {:induction false} ReserveRowsNone(entries: seq<Entry>, s: nat)
    requires forall i | 0 <= i < |entries| :: entries[i].session != Some(s) || entries[i].reason != SessionReserve
    ensures ReserveRows(entries, s) == []
  {
    if entries == [] {
    } else {
      ReserveRowsNone(entries[..|entries| - 1], s);
    }
  }

  lemma {:induction false} ReserveRowsOfLog(user: nat, debits: seq<Share>, s: nat)
    ensures var rows := ReserveRows(LogOf(user, Negated(debits), SessionReserve, s), s);
            && |rows| == |debits|
            && (forall i | 0 <= i < |rows| :: rows[i] == Row(debits[i].grant, debits[i].amount))
            && Capacity(rows) == Sum(debits)
  {
    if debits == [] {
    } else {
      assert Negated(debits)[1..] == Negated(debits[1..]);
      var first := [Entry(user, debits[0].grant, -debits[0].amount, SessionReserve, Some(s))];
      var rest := LogOf(user, Negated(debits[1..]), SessionReserve, s);
      ReserveRowsAppend(first, rest, s);
      assert first[..0] == [];
      ReserveRowsOfLog(user, debits[1..], s);
      CapacitySplit([Row(debits[0].grant, debits[0].amount)], ReserveRows(rest, s));
    }
  }

  predicate OnlyReserves(entries: seq<Entry>, s: nat) {
    forall i | 0 <= i < |entries| :: entries[i].session == Some(s) ==> entries[i].reason == SessionReserve
  }

  function Pair(s: nat, g: nat): Filter { Filter(Exactly(g), Exactly(s), Any) }

  function OfSession(s: nat): Filter { Filter(Any, Exactly(s), Any) }

  // Before any refund, a session's total on a grant is minus what it reserved there.
  lemma {:induction false} PairBeforeRefund(entries: seq<Entry>, s: nat, g: nat)
    requires OnlyReserves(entries, s)
    requires DistinctRows(ReserveRows(entries, s))
    ensures forall r | r in ReserveRows(entries, s) && r.grant == g :: Total(entries, Pair(s, g)) == -r.cap
    ensures (forall r | r in ReserveRows(entries, s) :: r.grant != g) ==> Total(entries, Pair(s, g)) == 0
  {
    if entries == [] {
    } else {
      var before := entries[..|entries| - 1];
      var e := entries[|entries| - 1];
      var rows := ReserveRows(before, s);
      if e.session == Some(s) {
        assert ReserveRows(entries, s) == rows + [Row(e.grant, -e.amount)];
        assert DistinctRows(rows) by {
          forall i, j | 0 <= i < j < |rows| ensures rows[i].grant != rows[j].grant {
            assert rows[i] == ReserveRows(entries, s)[i] && rows[j] == ReserveRows(entries, s)[j];
          }
        }
        forall r | r in rows ensures r.grant != e.grant {
          var i :| 0 <= i < |rows| && rows[i] == r;
          assert ReserveRows(entries, s)[i] == r && ReserveRows(entries, s)[|rows|].grant == e.grant;
        }
      } else {
        assert ReserveRows(entries, s) == rows;
      }
      PairBeforeRefund(before, s, g);
    }
  }

  lemma {:induction false} SessionBeforeRefund(entries: seq<Entry>, s: nat)
    requires OnlyReserves(entries, s)
    ensures Total(entries, OfSession(s)) == -Capacity(ReserveRows(entries, s))
  {
    if entries == [] {
    } else {
      var before := entries[..|entries| - 1];
      var e := entries[|entries| - 1];
      SessionBeforeRefund(before, s);
      if e.session == Some(s) {
        CapacitySplit(ReserveRows(before, s), [Row(e.grant, -e.amount)]);
      } else {
        assert ReserveRows(entries, s) == ReserveRows(before, s);
      }
    }
  }

  // ---- Slicing by session and by grant ----

  // If no session nets a gain on grant g, the log of g never exceeds its opening
  // entries plus what any one session has taken from it.
  lemma {:induction false} OneSessionBounds(entries: seq<Entry>, g: nat, s: nat, n: nat)
    requires forall k | 0 <= k < n :: Total(entries, Pair(k, g)) <= 0
    ensures Total(entries, Filter(Exactly(g), Below(n), Any)) <= if s < n then Total(entries, Pair(s, g)) else 0
  {
    if n == 0 {
      TotalNone(entries, Filter(Exactly(g), Below(0), Any));
    } else {
      OneSessionBounds(entries, g, s, n - 1);
      TotalSplit(entries, Filter(Exactly(g), Below(n), Any), Filter(Exactly(g), Below(n - 1), Any), Pair(n - 1, g));
    }
  }
}
