/** The recursive CTE `distributed` that three ledger statements share: a request
    is spread over ranked rows, each row giving at most its capacity, and the
    recursion goes on only while something remains. */
module Distribution {

  datatype Row = Row(grant: nat, cap: int)
  datatype Share = Share(grant: nat, amount: int)

  function Least(a: int, b: int): int { if a <= b then a else b }

  function Greatest(a: int, b: int): int { if a >= b then a else b }

  // The row ranked 1 always yields a share; the next one only while something remains.
  function Distribute(rows: seq<Row>, request: int): seq<Share>
  {
    if rows == [] then []
    else
      var amount := Least(rows[0].cap, request);
      var remaining := request - amount;
      [Share(rows[0].grant, amount)] + (if remaining > 0 then Distribute(rows[1..], remaining) else [])
  }

  function Capacity(rows: seq<Row>): int
  {
    if rows == [] then 0 else rows[0].cap + Capacity(rows[1..])
  }

  function Sum(shares: seq<Share>): int
  {
    if shares == [] then 0 else shares[0].amount + Sum(shares[1..])
  }

  // What row i gives when every earlier row is emptied first: an independent,
  // non-recursive description of the distribution.
  function Waterfall(rows: seq<Row>, request: int, i: nat): int
    requires i < |rows|
  {
    Least(rows[i].cap, Greatest(0, request - Capacity(rows[..i])))
  }

  predicate PositiveCaps(rows: seq<Row>) { forall i | 0 <= i < |rows| :: rows[i].cap > 0 }

  predicate DistinctRows(rows: seq<Row>) {
    forall i, j | 0 <= i < j < |rows| :: rows[i].grant != rows[j].grant
  }

  predicate DistinctShares(shares: seq<Share>) {
    forall i, j | 0 <= i < j < |shares| :: shares[i].grant != shares[j].grant
  }

  // The statement computes the waterfall: share i is what row i gives, and a row
  // the recursion never reaches gives nothing.
  lemma {:induction false} DistributeIsWaterfall(rows: seq<Row>, request: int)
    requires PositiveCaps(rows) && request >= 0
    ensures |Distribute(rows, request)| <= |rows|
    ensures forall i | 0 <= i < |Distribute(rows, request)| ::
              Distribute(rows, request)[i] == Share(rows[i].grant, Waterfall(rows, request, i))
    ensures forall i | |Distribute(rows, request)| <= i < |rows| :: Waterfall(rows, request, i) == 0
  {
    if rows == [] {
    } else {
      var amount := Least(rows[0].cap, request);
      var remaining := request - amount;
      var shares := Distribute(rows, request);
      assert rows[..0] == [];
      if remaining > 0 {
        DistributeIsWaterfall(rows[1..], remaining);
        forall i | 1 <= i < |rows|
          ensures Waterfall(rows, request, i) == Waterfall(rows[1..], remaining, i - 1)
        {
          assert rows[..i][1..] == rows[1..][..i - 1];
        }
      } else {
        forall i | 1 <= i < |rows|
          ensures Waterfall(rows, request, i) == 0
        {
          assert rows[..i][1..] == rows[1..i];
          CapacityNonNegative(rows[1..i]);
        }
      }
    }
  }

  lemma {:induction false} CapacityNonNegative(rows: seq<Row>)
    requires PositiveCaps(rows)
    ensures Capacity(rows) >= 0
    ensures rows != [] ==> Capacity(rows) > 0
  {
    if rows == [] {
    } else {
      CapacityNonNegative(rows[1..]);
    }
  }

  // Nothing is lost or invented: the shares sum to the request, or to everything there is.
  lemma {:induction false} DistributeConserves(rows: seq<Row>, request: int)
    requires PositiveCaps(rows) && request >= 0
    ensures Sum(Distribute(rows, request)) == Least(Capacity(rows), request)
  {
    if rows == [] {
    } else {
      CapacityNonNegative(rows[1..]);
      var remaining := request - Least(rows[0].cap, request);
      var shares := Distribute(rows, request);
      if remaining > 0 {
        DistributeConserves(rows[1..], remaining);
        assert shares[1..] == Distribute(rows[1..], remaining);
      } else {
        assert shares[1..] == [];
      }
    }
  }

  // Greedy: all shares but the last empty their row, and a positive request gives
  // only positive shares.
  lemma {:induction false} DistributeIsGreedy(rows: seq<Row>, request: int)
    requires PositiveCaps(rows) && request >= 0
    ensures var shares := Distribute(rows, request);
            && |shares| <= |rows|
            && (forall i | 0 <= i < |shares| :: shares[i].grant == rows[i].grant)
            && (forall i | 0 <= i < |shares| :: 0 <= shares[i].amount <= rows[i].cap)
            && (forall i | 0 <= i < |shares| - 1 :: shares[i].amount == rows[i].cap)
            && (request > 0 ==> forall i | 0 <= i < |shares| :: shares[i].amount > 0)
  {
    if rows == [] {
    } else {
      var remaining := request - Least(rows[0].cap, request);
      if remaining > 0 { DistributeIsGreedy(rows[1..], remaining); }
    }
  }

  // ---- Order of the rows ----

  lemma {:induction false} CapacitySplit(a: seq<Row>, b: seq<Row>)
    ensures Capacity(a + b) == Capacity(a) + Capacity(b)
  {
    if a == [] {
      assert a + b == b;
    } else {
      assert (a + b)[1..] == a[1..] + b;
      CapacitySplit(a[1..], b);
    }
  }

  lemma {:induction false} RemoveRow(order: seq<Row>, i: nat)
    requires i < |order|
    ensures var rest := order[..i] + order[i + 1..];
            && Capacity(order) == order[i].cap + Capacity(rest)
            && multiset(rest) == multiset(order) - multiset{order[i]}
  {
    var a, b := order[..i], order[i + 1..];
    assert order[i..][1..] == b;
    assert order == a + order[i..] == a + [order[i]] + b;
    CapacitySplit(a, order[i..]);
    CapacitySplit(a, b);
  }

  // A reordering of rows has the same capacity, grants stay distinct and capacities positive.
  lemma {:induction false} ReorderKeepsCapacity(rows: seq<Row>, order: seq<Row>)
    requires multiset(rows) == multiset(order)
    ensures Capacity(rows) == Capacity(order)
  {
    if rows == [] {
      assert |order| == |multiset(order)| == 0;
    } else {
      var x := rows[0];
      assert x in multiset(order);
      var i :| 0 <= i < |order| && order[i] == x;
      RemoveRow(order, i);
      assert rows == [x] + rows[1..];
      ReorderKeepsCapacity(rows[1..], order[..i] + order[i + 1..]);
    }
  }

  lemma {:induction false} DistinctOccursOnce(rows: seq<Row>, i: nat)
    requires DistinctRows(rows) && i < |rows|
    ensures multiset(rows)[rows[i]] == 1
  {
    assert rows == rows[..i] + [rows[i]] + rows[i + 1..];
    assert rows[i] !in rows[..i] && rows[i] !in rows[i + 1..];
  }

  lemma {:induction false} RepeatedOccursTwice(rows: seq<Row>, i: nat, j: nat)
    requires i < j < |rows| && rows[i] == rows[j]
    ensures multiset(rows)[rows[i]] >= 2
  {
    assert rows == rows[..i] + [rows[i]] + rows[i + 1..j] + [rows[j]] + rows[j + 1..];
  }

  lemma {:induction false} ReorderKeepsShape(rows: seq<Row>, order: seq<Row>)
    requires multiset(rows) == multiset(order)
    requires DistinctRows(rows) && PositiveCaps(rows)
    ensures DistinctRows(order) && PositiveCaps(order)
    ensures forall r :: r in order <==> r in rows
  {
    forall r ensures r in order <==> r in rows {
      assert r in multiset(order) <==> r in multiset(rows);
    }
    forall i, j | 0 <= i < j < |order| ensures order[i].grant != order[j].grant {
      assert order[i] in rows && order[j] in rows;
      if order[i] == order[j] {
        RepeatedOccursTwice(order, i, j);
        var k :| 0 <= k < |rows| && rows[k] == order[i];
        DistinctOccursOnce(rows, k);
      }
    }
    forall i | 0 <= i < |order| ensures order[i].cap > 0 {
      assert order[i] in rows;
    }
  }
}
