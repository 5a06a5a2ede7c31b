/** Totals over table rows: the SUM(...) of the reports and constraints.

    A table is a sequence of rows in insertion order; `Sum(rows, measure)` is the total of one
    measure.  Every other module states its conservation laws with this one function. */
module Sums {

  function Identity(n: int): int {
    n
  }

  function Sum<T>(rows: seq<T>, measure: T -> int): int {
    if rows == [] then 0 else measure(rows[0]) + Sum(rows[1..], measure)
  }

  lemma {:induction false} SumConcat<T>(a: seq<T>, b: seq<T>, measure: T -> int)
    ensures Sum(a + b, measure) == Sum(a, measure) + Sum(b, measure)
  {
    if a == [] {
      assert a + b == b;
    } else {
      assert (a + b)[1..] == a[1..] + b;
      SumConcat(a[1..], b, measure);
    }
  }

  lemma {:induction false} SumSplit<T>(rows: seq<T>, n: nat, measure: T -> int)
    requires n <= |rows|
    ensures Sum(rows, measure) == Sum(rows[..n], measure) + Sum(rows[n..], measure)
  {
    SumConcat(rows[..n], rows[n..], measure);
    assert rows == rows[..n] + rows[n..];
  }

  lemma {:induction false} SumAppend<T>(rows: seq<T>, row: T, measure: T -> int)
    ensures Sum(rows + [row], measure) == Sum(rows, measure) + measure(row)
  {
    SumConcat(rows, [row], measure);
    assert [row][1..] == [];
  }

  lemma {:induction false} SumOne<T>(x: T, f: T -> int)
    ensures Sum([x], f) == f(x)
  {
    SumAppend([], x, f);
    assert [] + [x] == [x];
  }

  lemma {:induction false} SumTwo<T>(x: T, y: T, f: T -> int)
    ensures Sum([x, y], f) == f(x) + f(y)
  {
    SumOne(x, f);
    SumAppend([x], y, f);
    assert [x] + [y] == [x, y];
  }

  /** Updating one row in place moves the total by the difference of that row. */
  lemma {:induction false} SumUpdate<T>(rows: seq<T>, i: nat, row: T, measure: T -> int)
    requires i < |rows|
    ensures Sum(rows[i := row], measure) == Sum(rows, measure) - measure(rows[i]) + measure(row)
  {
    assert rows == rows[..i] + ([rows[i]] + rows[i + 1..]);
    assert rows[i := row] == rows[..i] + ([row] + rows[i + 1..]);
    SumConcat(rows[..i], [rows[i]] + rows[i + 1..], measure);
    SumConcat(rows[..i], [row] + rows[i + 1..], measure);
    assert ([row] + rows[i + 1..])[1..] == ([rows[i]] + rows[i + 1..])[1..];
  }

  /** Two tables whose rows measure the same, one by one, have the same total. */
  lemma {:induction false} SumSame<T, U>(a: seq<T>, b: seq<U>, f: T -> int, g: U -> int)
    requires |a| == |b|
    requires forall i :: 0 <= i < |a| ==> f(a[i]) == g(b[i])
    ensures Sum(a, f) == Sum(b, g)
  {
    if a != [] {
      assert forall i :: 0 <= i < |a[1..]| ==> a[1..][i] == a[i + 1] && b[1..][i] == b[i + 1];
      SumSame(a[1..], b[1..], f, g);
    }
  }

  /** A measure that is the sum of two others totals to the sum of their totals. */
  lemma {:induction false} SumAdd<T>(rows: seq<T>, whole: T -> int, f: T -> int, g: T -> int)
    requires forall i :: 0 <= i < |rows| ==> whole(rows[i]) == f(rows[i]) + g(rows[i])
    ensures Sum(rows, whole) == Sum(rows, f) + Sum(rows, g)
  {
    if rows != [] {
      assert forall i :: 0 <= i < |rows[1..]| ==> rows[1..][i] == rows[i + 1];
      SumAdd(rows[1..], whole, f, g);
    }
  }

  lemma {:induction false} SumNegated<T>(rows: seq<T>, f: T -> int, g: T -> int)
    requires forall i :: 0 <= i < |rows| ==> f(rows[i]) == -g(rows[i])
    ensures Sum(rows, f) == -Sum(rows, g)
  {
    if rows != [] {
      assert forall i :: 0 <= i < |rows[1..]| ==> rows[1..][i] == rows[i + 1];
      SumNegated(rows[1..], f, g);
    }
  }

  lemma {:induction false} SumZero<T>(rows: seq<T>, measure: T -> int)
    requires forall i :: 0 <= i < |rows| ==> measure(rows[i]) == 0
    ensures Sum(rows, measure) == 0
  {
    if rows != [] {
      assert forall i :: 0 <= i < |rows[1..]| ==> rows[1..][i] == rows[i + 1];
      SumZero(rows[1..], measure);
    }
  }

  /** A row-by-row bound adds up, and is attained in total only when attained in every row. */
  lemma {:induction false} SumMono<T, U>(a: seq<T>, b: seq<U>, f: T -> int, g: U -> int)
    requires |a| == |b|
    requires forall i :: 0 <= i < |a| ==> f(a[i]) <= g(b[i])
    ensures Sum(a, f) <= Sum(b, g)
    ensures Sum(a, f) == Sum(b, g) ==> forall i :: 0 <= i < |a| ==> f(a[i]) == g(b[i])
  {
    if a != [] {
      assert forall i :: 0 <= i < |a[1..]| ==> a[1..][i] == a[i + 1] && b[1..][i] == b[i + 1];
      SumMono(a[1..], b[1..], f, g);
      if Sum(a, f) == Sum(b, g) {
        forall i | 0 <= i < |a| ensures f(a[i]) == g(b[i]) {
          if i > 0 { assert a[1..][i - 1] == a[i] && b[1..][i - 1] == b[i]; }
        }
      }
    }
  }

  lemma {:induction false} SumNonNegative<T>(rows: seq<T>, measure: T -> int)
    requires forall i :: 0 <= i < |rows| ==> measure(rows[i]) >= 0
    ensures Sum(rows, measure) >= 0
    ensures forall i :: 0 <= i < |rows| ==> measure(rows[i]) <= Sum(rows, measure)
  {
    if rows != [] {
      assert forall i :: 0 <= i < |rows[1..]| ==> rows[1..][i] == rows[i + 1];
      SumNonNegative(rows[1..], measure);
      forall i | 0 <= i < |rows| ensures measure(rows[i]) <= Sum(rows, measure) {
        if i > 0 { assert rows[1..][i - 1] == rows[i]; }
      }
    }
  }

  lemma {:induction false} SumTakeOut<T>(rows: seq<T>, k: nat, measure: T -> int)
    requires k < |rows|
    ensures multiset(rows[..k] + rows[k + 1..]) == multiset(rows) - multiset{rows[k]}
    ensures Sum(rows, measure) == measure(rows[k]) + Sum(rows[..k] + rows[k + 1..], measure)
  {
    assert rows == rows[..k] + ([rows[k]] + rows[k + 1..]);
    SumConcat(rows[..k], rows[k + 1..], measure);
    SumConcat(rows[..k], [rows[k]] + rows[k + 1..], measure);
    assert ([rows[k]] + rows[k + 1..])[1..] == rows[k + 1..];
  }

  lemma {:induction false} IndexIn<T>(b: seq<T>, row: T, rows: multiset<T>) returns (k: nat)
    requires multiset(b) == rows && row in rows
    ensures k < |b| && b[k] == row
  {
    assert row in multiset(b);
    k :| 0 <= k < |b| && b[k] == row;
  }

  lemma {:induction false} RestOf<T>(a: seq<T>)
    requires a != []
    ensures multiset(a[1..]) == multiset(a) - multiset{a[0]}
  {
    assert a == [a[0]] + a[1..];
  }

  /** The order in which rows were inserted does not matter to a total. */
  lemma {:induction false} SumPermutation<T>(a: seq<T>, b: seq<T>, measure: T -> int)
    requires multiset(a) == multiset(b)
    ensures Sum(a, measure) == Sum(b, measure)
    decreases |a|
  {
    if a == [] {
      assert |multiset(b)| == 0;
    } else {
      var k := IndexIn(b, a[0], multiset(a));
      SumTakeOut(b, k, measure);
      RestOf(a);
      SumPermutation(a[1..], b[..k] + b[k + 1..], measure);
    }
  }

  /** Vectors add up entry by entry. */
  lemma {:induction false} SumPairwise(a: seq<int>, b: seq<int>, c: seq<int>)
    requires |a| == |b| == |c| && forall i :: 0 <= i < |a| ==> c[i] == a[i] + b[i]
    ensures Sum(c, Identity) == Sum(a, Identity) + Sum(b, Identity)
  {
    if a != [] {
      assert forall i :: 0 <= i < |a[1..]| ==> a[1..][i] == a[i + 1] && b[1..][i] == b[i + 1] && c[1..][i] == c[i + 1];
      SumPairwise(a[1..], b[1..], c[1..]);
    }
  }

  function Values<T>(rows: seq<T>, measure: T -> int): (v: seq<int>)
    ensures |v| == |rows| && forall i :: 0 <= i < |v| ==> v[i] == measure(rows[i])
  {
    seq(|rows|, i requires 0 <= i < |rows| => measure(rows[i]))
  }

  lemma {:induction false} ValuesSum<T>(rows: seq<T>, measure: T -> int)
    ensures Sum(Values(rows, measure), Identity) == Sum(rows, measure)
  {
    SumSame(Values(rows, measure), rows, Identity, measure);
  }

  /** The part of a measure that falls on the rows of one group: SUM(...) ... GROUP BY key. */
  function Group<T>(key: T -> nat, k: nat, measure: T -> int): T -> int {
    (row: T) => if key(row) == k then measure(row) else 0
  }

  /** The group totals of a table add up to its total. */
  lemma {:induction false} GroupTotals<T>(rows: seq<T>, key: T -> nat, measure: T -> int, totals: seq<int>)
    requires forall i :: 0 <= i < |rows| ==> key(rows[i]) < |totals|
    requires forall k: nat :: k < |totals| ==> totals[k] == Sum(rows, Group(key, k, measure))
    ensures Sum(totals, Identity) == Sum(rows, measure)
  {
    if rows == [] {
      SumZero(totals, Identity);
    } else {
      var rest, k := rows[1..], key(rows[0]);
      assert forall i :: 0 <= i < |rest| ==> rest[i] == rows[i + 1];
      var others := totals[k := totals[k] - measure(rows[0])];
      forall g: nat | g < |totals| ensures others[g] == Sum(rest, Group(key, g, measure)) {
        assert totals[g] == Group(key, g, measure)(rows[0]) + Sum(rest, Group(key, g, measure));
      }
      GroupTotals(rest, key, measure, others);
      SumUpdate(totals, k, others[k], Identity);
    }
  }
}
