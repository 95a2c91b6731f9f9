/** Finite sums of reals: over the first n naturals, over a flattened matrix,
    and over a finite set.  Every loop of the numeric core is specified by one of these. */
module Sums {

  /** s lists the running sums 0, f(0), f(0) + f(1), ... of the first n terms. */
  ghost predicate RunningSums(s: seq<real>, f: int -> real, n: nat) {
    && |s| == n + 1 && s[0] == 0.0
    && forall i {:trigger f(i)} :: 0 <= i < n ==> s[i + 1] == s[i] + f(i)
  }

  lemma {:induction false} RunningSumsExist(f: int -> real, n: nat)
    ensures exists s :: RunningSums(s, f, n)
  {
    if n == 0 {
      assert RunningSums([0.0], f, n);
    } else {
      RunningSumsExist(f, n - 1);
      var s :| RunningSums(s, f, n - 1);
      assert RunningSums(s + [s[n - 1] + f(n - 1)], f, n);
    }
  }

  lemma {:induction false} RunningSumsUnique(s: seq<real>, s': seq<real>, f: int -> real, n: nat, n': nat, k: nat)
    requires RunningSums(s, f, n) && RunningSums(s', f, n')
    requires k <= n && k <= n'
    ensures s[k] == s'[k]
  {
    if k > 0 {
      RunningSumsUnique(s, s', f, n, n', k - 1);
      assert s[k] == s[k - 1] + f(k - 1);
    }
  }

  /** f(0) + ... + f(n-1), accumulated left to right as the loops do.  It is unfolded only by SumStep. */
  ghost function Sum(f: int -> real, n: nat): real {
    RunningSumsExist(f, n);
    var s :| RunningSums(s, f, n);
    s[n]
  }

  lemma SumStep(f: int -> real, n: nat)
    ensures Sum(f, n + 1) == Sum(f, n) + f(n)
  {
    RunningSumsExist(f, n);
    RunningSumsExist(f, n + 1);
    var s :| RunningSums(s, f, n) && Sum(f, n) == s[n];
    var s' :| RunningSums(s', f, n + 1) && Sum(f, n + 1) == s'[n + 1];
    RunningSumsUnique(s, s', f, n, n + 1, n);
    assert s'[n + 1] == s'[n] + f(n);
  }

  lemma {:induction false} SumEq(f: int -> real, g: int -> real, n: nat)
    requires forall i :: 0 <= i < n ==> f(i) == g(i)
    ensures Sum(f, n) == Sum(g, n)
  {
    if n > 0 {
      SumEq(f, g, n - 1);
      SumStep(f, n - 1);
      SumStep(g, n - 1);
    }
  }

  lemma {:induction false} SumPlus(f: int -> real, g: int -> real, h: int -> real, n: nat)
    requires forall i :: 0 <= i < n ==> h(i) == f(i) + g(i)
    ensures Sum(h, n) == Sum(f, n) + Sum(g, n)
  {
    if n > 0 {
      SumPlus(f, g, h, n - 1);
      SumStep(f, n - 1);
      SumStep(g, n - 1);
      SumStep(h, n - 1);
    }
  }

  lemma {:induction false} SumScale(c: real, f: int -> real, h: int -> real, n: nat)
    requires forall i :: 0 <= i < n ==> h(i) == c * f(i)
    ensures Sum(h, n) == c * Sum(f, n)
  {
    if n > 0 {
      SumScale(c, f, h, n - 1);
      SumStep(f, n - 1);
      SumStep(h, n - 1);
    }
  }

  lemma {:induction false} SumLe(f: int -> real, g: int -> real, n: nat)
    requires forall i :: 0 <= i < n ==> f(i) <= g(i)
    ensures Sum(f, n) <= Sum(g, n)
  {
    if n > 0 {
      SumLe(f, g, n - 1);
      SumStep(f, n - 1);
      SumStep(g, n - 1);
    }
  }

  ghost function Scaled(c: real, f: int -> real): int -> real {
    i => c * f(i)
  }

  lemma {:induction false} SumNonNegative(f: int -> real, n: nat)
    requires forall i :: 0 <= i < n ==> f(i) >= 0.0
    ensures Sum(f, n) >= 0.0
    ensures Sum(f, n) == 0.0 ==> forall i :: 0 <= i < n ==> f(i) == 0.0
  {
    if n > 0 {
      SumNonNegative(f, n - 1);
      SumStep(f, n - 1);
    }
  }

  ghost function Shift(f: int -> real, off: int): int -> real {
    i => f(off + i)
  }

  lemma {:induction false} SumSplit(f: int -> real, a: nat, b: nat)
    ensures Sum(f, a + b) == Sum(f, a) + Sum(Shift(f, a), b)
  {
    if b > 0 {
      SumSplit(f, a, b - 1);
      SumStep(f, a + b - 1);
      SumStep(Shift(f, a), b - 1);
    }
  }

  // ── exchanging two sums ──────────────────────────────────────────

  ghost function Row(f: (int, int) -> real, i: int): int -> real {
    j => f(i, j)
  }

  ghost function Column(f: (int, int) -> real, j: int): int -> real {
    i => f(i, j)
  }

  ghost function RowSums(f: (int, int) -> real, m: nat): int -> real {
    i => Sum(Row(f, i), m)
  }

  ghost function ColumnSums(f: (int, int) -> real, n: nat): int -> real {
    j => Sum(Column(f, j), n)
  }

  lemma {:induction false} SumExchange(f: (int, int) -> real, n: nat, m: nat)
    ensures Sum(RowSums(f, m), n) == Sum(ColumnSums(f, n), m)
  {
    if n == 0 {
      SumScale(0.0, ColumnSums(f, n), ColumnSums(f, n), m);
    } else {
      SumExchange(f, n - 1, m);
      SumStep(RowSums(f, m), n - 1);
      forall j | 0 <= j < m ensures ColumnSums(f, n)(j) == ColumnSums(f, n - 1)(j) + Row(f, n - 1)(j) {
        SumStep(Column(f, j), n - 1);
      }
      SumPlus(ColumnSums(f, n - 1), Row(f, n - 1), ColumnSums(f, n), m);
    }
  }

  // ── a flat array seen as n rows of m cells ───────────────────────

  ghost function Cell(g: int -> real, m: nat): (int, int) -> real {
    (i, j) => g(i * m + j)
  }

  /** Summing all cells of a flat n-by-m array is summing its rows. */
  lemma {:induction false} SumFlat(g: int -> real, n: nat, m: nat)
    ensures Sum(g, n * m) == Sum(RowSums(Cell(g, m), m), n)
  {
    if n > 0 {
      SumFlat(g, n - 1, m);
      assert n * m == (n - 1) * m + m;
      SumSplit(g, (n - 1) * m, m);
      SumStep(RowSums(Cell(g, m), m), n - 1);
      SumEq(Shift(g, (n - 1) * m), Row(Cell(g, m), n - 1), m);
    }
  }

  // ── sums over a finite set ───────────────────────────────────────

  ghost predicate Distinct<T>(l: seq<T>) {
    forall i, j :: 0 <= i < j < |l| ==> l[i] != l[j]
  }

  ghost function Elements<T>(l: seq<T>): set<T> {
    set x | x in l
  }

  ghost predicate Listing<T>(l: seq<T>, s: set<T>) { Distinct(l) && Elements(l) == s }

  lemma {:induction false} ListingExists<T>(s: set<T>)
    ensures exists l :: Listing(l, s)
  {
    if s == {} {
      assert Listing([], s);
    } else {
      var x :| x in s;
      ListingExists(s - {x});
      var l :| Listing(l, s - {x});
      assert forall i :: 0 <= i < |l| ==> l[i] in Elements(l);
      assert Elements(l + [x]) == Elements(l) + {x};
      assert Listing(l + [x], s);
    }
  }

  ghost function Along<T>(f: T -> real, l: seq<T>): int -> real {
    i => if 0 <= i < |l| then f(l[i]) else 0.0
  }

  /** The members of s are taken one after another, in an arbitrary order. */
  ghost function Fold<T, R>(step: (T, R) -> R, zero: R, s: set<T>): R {
    if s == {} then zero else
      var x :| x in s;
      step(x, Fold(step, zero, s - {x}))
  }

  ghost predicate OrderFree<T(!new), R(!new)>(step: (T, R) -> R) {
    forall x, y, r :: step(x, step(y, r)) == step(y, step(x, r))
  }

  /** The choice made by Fold does not matter: any member can be taken out first. */
  lemma {:induction false} FoldRemove<T(!new), R(!new)>(step: (T, R) -> R, zero: R, s: set<T>, x: T)
    requires OrderFree(step) && x in s
    ensures Fold(step, zero, s) == step(x, Fold(step, zero, s - {x}))
    decreases |s|
  {
    var y :| y in s && Fold(step, zero, s) == step(y, Fold(step, zero, s - {y}));
    if y != x {
      FoldRemove(step, zero, s - {y}, x);
      FoldRemove(step, zero, s - {x}, y);
      assert s - {y} - {x} == s - {x} - {y};
    }
  }

  ghost function Adds<T>(f: T -> real): (T, real) -> real { (x, r) => f(x) + r }

  ghost function FoldSum<T>(f: T -> real, s: set<T>): real { Fold(Adds(f), 0.0, s) }

  lemma {:induction false} FoldAlong<T(!new)>(f: T -> real, l: seq<T>, g: int -> real)
    requires Distinct(l)
    requires forall i :: 0 <= i < |l| ==> g(i) == f(l[i])
    ensures Sum(g, |l|) == FoldSum(f, Elements(l))
    decreases |l|
  {
    if |l| == 0 {
      assert Elements(l) == {};
    } else {
      var k := |l| - 1;
      FoldAlong(f, l[..k], g);
      SumStep(g, k);
      assert l[k] in Elements(l);
      assert Elements(l) - {l[k]} == Elements(l[..k]);
      FoldRemove(Adds(f), 0.0, Elements(l), l[k]);
    }
  }

  ghost function SomeListing<T>(s: set<T>): (l: seq<T>)
    ensures Listing(l, s)
  {
    ListingExists(s);
    var l :| Listing(l, s);
    l
  }

  /** The sum of f over s, added up along some listing of s; by ListingSum any listing will do. */
  ghost function SetSum<T>(f: T -> real, s: set<T>): real {
    var l := SomeListing(s);
    Sum(Along(f, l), |l|)
  }

  lemma SetSumIsFold<T(!new)>(f: T -> real, s: set<T>)
    ensures SetSum(f, s) == FoldSum(f, s)
  {
    FoldAlong(f, SomeListing(s), Along(f, SomeListing(s)));
  }

  /** Adding up a duplicate-free list in its own order gives the sum over its set of elements. */
  lemma ListingSum<T(!new)>(f: T -> real, l: seq<T>, g: int -> real)
    requires Distinct(l)
    requires forall i :: 0 <= i < |l| ==> g(i) == f(l[i])
    ensures Sum(g, |l|) == SetSum(f, Elements(l))
  {
    FoldAlong(f, l, g);
    SetSumIsFold(f, Elements(l));
  }

  lemma SetSumRemove<T(!new)>(f: T -> real, s: set<T>, x: T)
    requires x in s
    ensures SetSum(f, s) == f(x) + SetSum(f, s - {x})
  {
    SetSumIsFold(f, s);
    SetSumIsFold(f, s - {x});
    FoldRemove(Adds(f), 0.0, s, x);
  }

  lemma SetSumEmpty<T(!new)>(f: T -> real)
    ensures SetSum(f, {}) == 0.0
  {
    SetSumIsFold(f, {});
  }

  lemma {:induction false} SetSumEq<T(!new)>(f: T -> real, g: T -> real, s: set<T>)
    requires forall x :: x in s ==> f(x) == g(x)
    ensures SetSum(f, s) == SetSum(g, s)
  {
    if s == {} {
      SetSumEmpty(f);
      SetSumEmpty(g);
    } else {
      var x :| x in s;
      SetSumRemove(f, s, x);
      SetSumRemove(g, s, x);
      SetSumEq(f, g, s - {x});
    }
  }

  // ── permutations of 0..n-1 ───────────────────────────────────────

  ghost predicate Permutation(p: seq<nat>) {
    && Distinct(p)
    && (forall i :: 0 <= i < |p| ==> p[i] < |p|)
    && (forall v: nat :: v < |p| ==> v in p)
  }

  ghost function Swap(n: nat, i: nat, j: nat): seq<nat>
    requires i < n && j < n
  {
    seq(n, k => if k == i then j else if k == j then i else k)
  }

  lemma SwapPermutes(n: nat, i: nat, j: nat)
    requires i < n && j < n
    ensures Permutation(Swap(n, i, j))
  {
    var p := Swap(n, i, j);
    forall v: nat | v < n ensures v in p {
      assert p[if v == i then j else if v == j then i else v] == v;
    }
  }

  lemma SumPermuted(f: int -> real, p: seq<nat>, g: int -> real)
    requires Permutation(p)
    requires forall i :: 0 <= i < |p| ==> g(i) == f(p[i])
    ensures Sum(g, |p|) == Sum(f, |p|)
  {
    var id: seq<int> := seq(|p|, i => i);
    var q: seq<int> := p;
    forall v ensures v in Elements(q) <==> v in Elements(id) {
      if v in id { assert id[v] == v; assert (v as nat) in p; }
      if v in q { assert id[v] == v; }
    }
    assert Elements(q) == Elements(id);
    ListingSum(f, q, g);
    ListingSum(f, id, f);
  }
}
