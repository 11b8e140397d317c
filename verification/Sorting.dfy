/** The stable sort behind `sorted`, and what it guarantees. */
module Sorting {

  ghost predicate TotalPreorder<T(!new)>(leq: (T, T) -> bool) {
    && (forall x, y :: leq(x, y) || leq(y, x))
    && (forall x, y, z :: leq(x, y) && leq(y, z) ==> leq(x, z))
  }

  ghost predicate SortedBy<T>(leq: (T, T) -> bool, xs: seq<T>) {
    forall i, j :: 0 <= i < j < |xs| ==> leq(xs[i], xs[j])
  }

  /** Inserts x behind every element that may stand before it. */
  function Insert<T>(leq: (T, T) -> bool, xs: seq<T>, x: T): seq<T> {
    if xs == [] then [x]
    else if leq(xs[|xs| - 1], x) then xs + [x]
    else Insert(leq, xs[..|xs| - 1], x) + [xs[|xs| - 1]]
  }

  function Sort<T>(leq: (T, T) -> bool, xs: seq<T>): seq<T> {
    if xs == [] then [] else Insert(leq, Sort(leq, xs[..|xs| - 1]), xs[|xs| - 1])
  }

  /** The elements that rank equal to x, in order. */
  function Ties<T>(leq: (T, T) -> bool, xs: seq<T>, x: T): seq<T> {
    if xs == [] then []
    else
      var last := xs[|xs| - 1];
      Ties(leq, xs[..|xs| - 1], x) + (if leq(last, x) && leq(x, last) then [last] else [])
  }

  lemma {:induction false} InsertPermutes<T>(leq: (T, T) -> bool, xs: seq<T>, x: T)
    ensures multiset(Insert(leq, xs, x)) == multiset(xs) + multiset{x}
  {
    if xs != [] {
      var init, last := xs[..|xs| - 1], xs[|xs| - 1];
      assert xs == init + [last];
      InsertPermutes(leq, init, x);
    }
  }

  lemma {:induction false} InsertSorts<T(!new)>(leq: (T, T) -> bool, xs: seq<T>, x: T)
    requires TotalPreorder(leq) && SortedBy(leq, xs)
    ensures SortedBy(leq, Insert(leq, xs, x))
  {
    if xs != [] && !leq(xs[|xs| - 1], x) {
      var init, last := xs[..|xs| - 1], xs[|xs| - 1];
      InsertSorts(leq, init, x);
      var front := Insert(leq, init, x);
      forall i | 0 <= i < |front| ensures leq(front[i], last) {
        InsertPermutes(leq, init, x);
        assert front[i] in multiset(front);
        assert front[i] == x || front[i] in init;
      }
    }
  }

  lemma {:induction false} TiesAppend<T>(leq: (T, T) -> bool, xs: seq<T>, y: T, x: T)
    ensures Ties(leq, xs + [y], x) == Ties(leq, xs, x) + (if leq(y, x) && leq(x, y) then [y] else [])
  {
    assert (xs + [y])[..|xs|] == xs;
  }

  lemma {:induction false} InsertIsStable<T(!new)>(leq: (T, T) -> bool, xs: seq<T>, x: T, z: T)
    requires TotalPreorder(leq)
    ensures Ties(leq, Insert(leq, xs, x), z) == Ties(leq, xs + [x], z)
  {
    if xs == [] {
      assert xs + [x] == [x];
    } else if !leq(xs[|xs| - 1], x) {
      var init, last := xs[..|xs| - 1], xs[|xs| - 1];
      InsertIsStable(leq, init, x, z);
      TiesAppend(leq, Insert(leq, init, x), last, z);
      TiesAppend(leq, init, x, z);
      TiesAppend(leq, xs, x, z);
    }
  }

  /** The result is a sorted permutation of the input in which elements of equal rank keep their order. */
  lemma {:induction false} SortSpec<T(!new)>(leq: (T, T) -> bool, xs: seq<T>)
    requires TotalPreorder(leq)
    ensures multiset(Sort(leq, xs)) == multiset(xs)
    ensures |Sort(leq, xs)| == |xs|
    ensures SortedBy(leq, Sort(leq, xs))
    ensures forall x :: Ties(leq, Sort(leq, xs), x) == Ties(leq, xs, x)
  {
    if xs != [] {
      var init, last := xs[..|xs| - 1], xs[|xs| - 1];
      assert xs == init + [last];
      SortSpec(leq, init);
      InsertPermutes(leq, Sort(leq, init), last);
      InsertSorts(leq, Sort(leq, init), last);
      forall x ensures Ties(leq, Sort(leq, xs), x) == Ties(leq, xs, x) {
        InsertIsStable(leq, Sort(leq, init), last, x);
        TiesAppend(leq, Sort(leq, init), last, x);
      }
    }
    assert |Sort(leq, xs)| == |multiset(Sort(leq, xs))|;
  }

  /** Sorting leaves a sequence alone exactly when it is sorted. */
  lemma {:induction false} SortedIsFixed<T(!new)>(leq: (T, T) -> bool, xs: seq<T>)
    requires TotalPreorder(leq)
    ensures Sort(leq, xs) == xs <==> SortedBy(leq, xs)
  {
    SortSpec(leq, xs);
    if SortedBy(leq, xs) {
      SortOfSorted(leq, xs);
    }
  }

  lemma {:induction false} SortOfSorted<T>(leq: (T, T) -> bool, xs: seq<T>)
    requires SortedBy(leq, xs)
    ensures Sort(leq, xs) == xs
  {
    if xs != [] {
      SortOfSorted(leq, xs[..|xs| - 1]);
    }
  }

  lemma {:induction false} InsertKeepsPrefix<T>(leq: (T, T) -> bool, xs: seq<T>, x: T, m: nat)
    requires m <= |xs| && forall j :: 0 <= j < m ==> leq(xs[j], x)
    ensures |Insert(leq, xs, x)| == |xs| + 1 && Insert(leq, xs, x)[..m] == xs[..m]
  {
    if xs != [] && !leq(xs[|xs| - 1], x) {
      InsertKeepsPrefix(leq, xs[..|xs| - 1], x, m);
    }
  }

  /** A sorted prefix that nothing behind it precedes stays where it is. */
  lemma {:induction false} SortKeepsPrefix<T>(leq: (T, T) -> bool, xs: seq<T>, m: nat)
    requires m <= |xs| && SortedBy(leq, xs[..m])
    requires forall i, j :: 0 <= j < m <= i < |xs| ==> leq(xs[j], xs[i])
    ensures |Sort(leq, xs)| == |xs| && Sort(leq, xs)[..m] == xs[..m]
  {
    if |xs| == m {
      assert xs[..m] == xs;
      SortOfSorted(leq, xs);
    } else {
      var n := |xs| - 1;
      assert xs[..n][..m] == xs[..m];
      SortKeepsPrefix(leq, xs[..n], m);
      forall j | 0 <= j < m ensures leq(Sort(leq, xs[..n])[j], xs[n]) {
        assert Sort(leq, xs[..n])[j] == Sort(leq, xs[..n])[..m][j] == xs[j];
      }
      InsertKeepsPrefix(leq, Sort(leq, xs[..n]), xs[n], m);
    }
  }

  lemma RestIsPermuted<T>(a: seq<T>, b: seq<T>, m: nat)
    requires multiset(a) == multiset(b) && m <= |a| && m <= |b| && a[..m] == b[..m]
    ensures multiset(a[m..]) == multiset(b[m..])
  {
    assert a == a[..m] + a[m..] && b == b[..m] + b[m..];
    assert multiset(a[m..]) == multiset(a) - multiset(a[..m]);
    assert multiset(b[m..]) == multiset(b) - multiset(b[..m]);
  }

  lemma KeptPrefixLeads<T(!new)>(leq: (T, T) -> bool, xs: seq<T>, m: nat, i: nat)
    requires TotalPreorder(leq) && 0 < m <= i < |xs|
    requires |Sort(leq, xs)| == |xs| && Sort(leq, xs)[..m] == xs[..m]
    ensures leq(xs[m - 1], xs[i])
  {
    var sorted := Sort(leq, xs);
    SortSpec(leq, xs);
    RestIsPermuted(sorted, xs, m);
    assert xs[m..][i - m] in multiset(sorted[m..]);
    var k :| 0 <= k < |sorted[m..]| && sorted[m..][k] == xs[i];
    assert sorted[..m][m - 1] == xs[..m][m - 1];
    assert leq(sorted[m - 1], sorted[m + k]);
  }

  lemma KeptPrefixIsSorted<T(!new)>(leq: (T, T) -> bool, xs: seq<T>, m: nat)
    requires TotalPreorder(leq) && m <= |xs| && |Sort(leq, xs)| == |xs| && Sort(leq, xs)[..m] == xs[..m]
    ensures SortedBy(leq, xs[..m])
  {
    var sorted := Sort(leq, xs);
    SortSpec(leq, xs);
    forall i, j | 0 <= i < j < m ensures leq(sorted[..m][i], sorted[..m][j]) {
      assert leq(sorted[i], sorted[j]);
    }
  }

  lemma SortedPrefixLeads<T(!new)>(leq: (T, T) -> bool, xs: seq<T>, m: nat, i: nat, j: nat)
    requires TotalPreorder(leq) && j < m <= i < |xs| && SortedBy(leq, xs[..m]) && leq(xs[m - 1], xs[i])
    ensures leq(xs[j], xs[i])
  {
    if j < m - 1 {
      assert leq(xs[..m][j], xs[..m][m - 1]);
    }
  }

  /** Sorting leaves the first m elements alone exactly when they are sorted and none behind them precedes the last. */
  lemma PrefixIsKept<T(!new)>(leq: (T, T) -> bool, xs: seq<T>, m: nat)
    requires TotalPreorder(leq) && m <= |xs|
    ensures |Sort(leq, xs)| == |xs|
    ensures Sort(leq, xs)[..m] == xs[..m] <==>
              SortedBy(leq, xs[..m]) && (m > 0 ==> forall i :: m <= i < |xs| ==> leq(xs[m - 1], xs[i]))
  {
    SortSpec(leq, xs);
    if Sort(leq, xs)[..m] == xs[..m] {
      KeptPrefixIsSorted(leq, xs, m);
      forall i | m <= i < |xs| && m > 0 ensures leq(xs[m - 1], xs[i]) {
        KeptPrefixLeads(leq, xs, m, i);
      }
    }
    if SortedBy(leq, xs[..m]) && (m > 0 ==> forall i :: m <= i < |xs| ==> leq(xs[m - 1], xs[i])) {
      forall i, j | 0 <= j < m <= i < |xs| ensures leq(xs[j], xs[i]) {
        SortedPrefixLeads(leq, xs, m, i, j);
      }
      SortKeepsPrefix(leq, xs, m);
    }
  }

  // ---- Permutations ----

  ghost predicate Distinct<T>(xs: seq<T>) {
    forall i, j :: 0 <= i < j < |xs| ==> xs[i] != xs[j]
  }

  lemma OnceIn<T>(xs: seq<T>, p: nat)
    requires Distinct(xs) && p < |xs|
    ensures multiset(xs)[xs[p]] == 1
  {
    assert xs == xs[..p] + [xs[p]] + xs[p + 1..];
    assert xs[p] !in xs[..p] && xs[p] !in xs[p + 1..];
  }

  lemma TwiceIn<T>(xs: seq<T>, i: nat, j: nat)
    requires i < j < |xs| && xs[i] == xs[j]
    ensures multiset(xs)[xs[i]] >= 2
  {
    assert xs == xs[..j] + xs[j..];
    assert xs[..j][i] == xs[i] && xs[j..][0] == xs[i];
  }

  /** A permutation of a list without repetitions has none either. */
  lemma PermutedStayDifferent<T>(xs: seq<T>, permuted: seq<T>)
    requires Distinct(xs) && multiset(permuted) == multiset(xs)
    ensures Distinct(permuted)
  {
    forall i, j | 0 <= i < j < |permuted| ensures permuted[i] != permuted[j] {
      if permuted[i] == permuted[j] {
        assert permuted[i] in multiset(xs);
        var p :| 0 <= p < |xs| && xs[p] == permuted[i];
        OnceIn(xs, p);
        TwiceIn(permuted, i, j);
      }
    }
  }
}
