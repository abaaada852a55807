/** Filtering and de-duplicating sequences, read from the left. */
module Sequences {
  function Filter<T>(xs: seq<T>, p: T -> bool): seq<T> {
    if xs == [] then []
    else SnocIf(Filter(xs[..|xs| - 1], p), p(xs[|xs| - 1]), xs[|xs| - 1])
  }

  function SnocIf<T>(xs: seq<T>, wanted: bool, x: T): seq<T> {
    if wanted then xs + [x] else xs
  }

  // Every element once, where it first occurs.
  function Dedup<T(==)>(xs: seq<T>): seq<T> {
    if xs == [] then []
    else
      var firsts := Dedup(xs[..|xs| - 1]);
      var last := xs[|xs| - 1];
      if last in firsts then firsts else firsts + [last]
  }

  function Copies<T>(x: T, n: nat): (copies: seq<T>)
    ensures |copies| == n
  {
    if n == 0 then [] else Copies(x, n - 1) + [x]
  }

  function Take<T>(xs: seq<T>, n: nat): seq<T> {
    if |xs| <= n then xs else xs[..n]
  }

  function Max(x: int, y: int): int {
    if x < y then y else x
  }

  ghost predicate Distinct<T(!new)>(xs: seq<T>) {
    forall i, j :: 0 <= i < j < |xs| ==> xs[i] != xs[j]
  }

  lemma FilterSnoc<T>(xs: seq<T>, x: T, p: T -> bool)
    ensures Filter(xs + [x], p) == SnocIf(Filter(xs, p), p(x), x)
  {
    assert (xs + [x])[..|xs|] == xs;
  }

  lemma {:induction false} FilterConcat<T>(xs: seq<T>, ys: seq<T>, p: T -> bool)
    ensures Filter(xs + ys, p) == Filter(xs, p) + Filter(ys, p)
  {
    if ys == [] {
      assert xs + ys == xs;
    } else {
      var init, last := ys[..|ys| - 1], ys[|ys| - 1];
      FilterConcat(xs, init, p);
      FilterSnoc(xs + init, last, p);
      assert xs + ys == xs + init + [last];
    }
  }

  lemma FilterInsert<T>(xs: seq<T>, x: T, ys: seq<T>, p: T -> bool)
    ensures Filter(xs + [x] + ys, p) == SnocIf(Filter(xs, p), p(x), x) + Filter(ys, p)
    ensures Filter(xs + ys, p) == Filter(xs, p) + Filter(ys, p)
  {
    FilterSnoc(xs, x, p);
    FilterConcat(xs + [x], ys, p);
    FilterConcat(xs, ys, p);
  }

  lemma {:induction false} FilterMembers<T(!new)>(xs: seq<T>, p: T -> bool)
    ensures forall x :: x in Filter(xs, p) <==> x in xs && p(x)
    ensures |Filter(xs, p)| <= |xs|
  {
    if xs != [] {
      FilterMembers(xs[..|xs| - 1], p);
      assert xs == xs[..|xs| - 1] + [xs[|xs| - 1]];
    }
  }

  lemma {:induction false} FilterNothing<T(!new)>(xs: seq<T>, p: T -> bool)
    requires forall x <- xs :: !p(x)
    ensures Filter(xs, p) == []
  {
    if xs != [] {
      FilterNothing(xs[..|xs| - 1], p);
    }
  }

  lemma {:induction false} FilterSame<T>(xs: seq<T>, p: T -> bool, q: T -> bool)
    requires forall x <- xs :: p(x) == q(x)
    ensures Filter(xs, p) == Filter(xs, q)
  {
    if xs != [] {
      assert xs[|xs| - 1] in xs;
      FilterSame(xs[..|xs| - 1], p, q);
    }
  }

  lemma {:induction false} FilterDistinct<T(!new)>(xs: seq<T>, p: T -> bool)
    requires Distinct(xs)
    ensures Distinct(Filter(xs, p))
  {
    if xs != [] {
      var init, last := xs[..|xs| - 1], xs[|xs| - 1];
      FilterDistinct(init, p);
      FilterMembers(init, p);
      forall i | 0 <= i < |Filter(init, p)| ensures Filter(init, p)[i] != last {
        assert Filter(init, p)[i] in init;
      }
    }
  }

  /** Filtering by a coarser test first changes nothing. */
  lemma {:induction false} FilterTwice<T>(xs: seq<T>, coarse: T -> bool, fine: T -> bool)
    requires forall x <- xs :: fine(x) ==> coarse(x)
    ensures Filter(Filter(xs, coarse), fine) == Filter(xs, fine)
  {
    if xs != [] {
      var init, last := xs[..|xs| - 1], xs[|xs| - 1];
      FilterTwice(init, coarse, fine);
      assert last in xs;
      if coarse(last) {
        FilterSnoc(Filter(init, coarse), last, fine);
      }
    }
  }

  lemma FilterPrefix<T>(xs: seq<T>, n: nat, p: T -> bool)
    requires n <= |xs|
    ensures Filter(xs[..n], p) <= Filter(xs, p)
  {
    FilterConcat(xs[..n], xs[n..], p);
    SplitAt(xs, n);
  }

  lemma SplitAt<T>(xs: seq<T>, n: nat)
    requires n <= |xs|
    ensures xs[..n] + xs[n..] == xs
  {
  }

  lemma DedupSnoc<T>(xs: seq<T>, x: T)
    ensures Dedup(xs + [x]) == if x in Dedup(xs) then Dedup(xs) else Dedup(xs) + [x]
  {
    assert (xs + [x])[..|xs|] == xs;
  }

  lemma {:induction false} DedupPrefix<T>(xs: seq<T>, ys: seq<T>)
    requires xs <= ys
    ensures Dedup(xs) <= Dedup(ys)
  {
    if xs != ys {
      var init := ys[..|ys| - 1];
      assert xs <= init;
      DedupPrefix(xs, init);
    }
  }

  lemma {:induction false} DedupMembers<T(!new)>(xs: seq<T>)
    ensures forall x :: x in Dedup(xs) <==> x in xs
    ensures Distinct(Dedup(xs))
  {
    if xs != [] {
      DedupMembers(xs[..|xs| - 1]);
      assert xs == xs[..|xs| - 1] + [xs[|xs| - 1]];
    }
  }

  /** Logging a row that is no further than the next one: known rows change nothing, the next row extends the prefix. */
  lemma DedupNext<T(!new)>(log: seq<T>, rows: seq<T>, j: nat)
    requires Distinct(rows) && Dedup(log) <= rows
    requires j <= |Dedup(log)| && j < |rows|
    ensures Dedup(log + [rows[j]]) == rows[..Max(|Dedup(log)|, j + 1)]
  {
    DedupSnoc(log, rows[j]);
    NextOfPrefix(Dedup(log), rows, j);
  }

  // A prefix of distinct rows holds exactly the rows before its end.
  lemma NextOfPrefix<T(!new)>(logged: seq<T>, rows: seq<T>, j: nat)
    requires Distinct(rows) && logged <= rows && j <= |logged| && j < |rows|
    ensures rows[j] in logged <==> j < |logged|
    ensures j == |logged| ==> logged + [rows[j]] == rows[..j + 1]
    ensures logged == rows[..|logged|]
  {
    if j < |logged| {
      assert logged[j] == rows[j];
    } else {
      forall i | 0 <= i < |logged| ensures logged[i] != rows[j] {
        assert logged[i] == rows[i];
      }
    }
  }

  /** Sending again a stretch of `rows` that starts no later than the first row not yet logged extends the logged
      prefix to the end of the stretch, or leaves it alone. */
  lemma {:induction false} DedupResend<T(!new)>(log: seq<T>, chunk: seq<T>, rows: seq<T>, from: nat)
    requires Distinct(rows) && Dedup(log) <= rows
    requires from <= |Dedup(log)| && from + |chunk| <= |rows|
    requires forall i :: 0 <= i < |chunk| ==> chunk[i] == rows[from + i]
    ensures Dedup(log + chunk) == rows[..Max(|Dedup(log)|, from + |chunk|)]
  {
    if chunk == [] {
      assert log + chunk == log;
    } else {
      var init, last := chunk[..|chunk| - 1], chunk[|chunk| - 1];
      DedupResend(log, init, rows, from);
      DedupNext(log + init, rows, from + |init|);
      assert log + chunk == (log + init) + [last];
    }
  }
}
