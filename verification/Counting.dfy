/** How many elements of a sequence satisfy a predicate. */
module Counting {

  ghost function CountIf<T>(p: T -> bool, s: seq<T>): nat {
    if |s| == 0 then 0 else (if p(s[0]) then 1 else 0) + CountIf(p, s[1..])
  }

  lemma {:induction false} CountAppend<T>(p: T -> bool, a: seq<T>, b: seq<T>)
    ensures CountIf(p, a + b) == CountIf(p, a) + CountIf(p, b)
    decreases |a|
  {
    if |a| == 0 {
      assert a + b == b;
    } else {
      assert (a + b)[1..] == a[1..] + b;
      CountAppend(p, a[1..], b);
    }
  }

  /** Taking out element k. */
  lemma CountRemove<T>(p: T -> bool, s: seq<T>, k: nat)
    requires k < |s|
    ensures CountIf(p, s) == CountIf(p, s[..k] + s[k + 1..]) + if p(s[k]) then 1 else 0
  {
    CountInsert(p, s[..k], s[k], s[k + 1..]);
    assert s == s[..k] + ([s[k]] + s[k + 1..]);
  }

  lemma CountInsert<T>(p: T -> bool, a: seq<T>, x: T, b: seq<T>)
    ensures CountIf(p, a + ([x] + b)) == CountIf(p, a + b) + if p(x) then 1 else 0
  {
    CountAppend(p, a, [x] + b);
    CountAppend(p, [x], b);
    CountAppend(p, a, b);
  }

  lemma CountUpdate<T>(p: T -> bool, s: seq<T>, k: nat, x: T)
    requires k < |s|
    ensures CountIf(p, s[k := x]) + (if p(s[k]) then 1 else 0) == CountIf(p, s) + if p(x) then 1 else 0
  {
    CountRemove(p, s, k);
    CountRemove(p, s[k := x], k);
    assert s[k := x][..k] + s[k := x][k + 1..] == s[..k] + s[k + 1..];
  }

  lemma {:induction false} CountPositive<T>(p: T -> bool, s: seq<T>, k: nat)
    requires k < |s| && p(s[k])
    ensures CountIf(p, s) > 0
  {
    CountRemove(p, s, k);
  }

  lemma {:induction false} CountZero<T>(p: T -> bool, s: seq<T>)
    requires forall k :: 0 <= k < |s| ==> !p(s[k])
    ensures CountIf(p, s) == 0
    decreases |s|
  {
    if |s| > 0 { CountZero(p, s[1..]); }
  }

  lemma {:induction false} CountLe<T>(p: T -> bool, q: T -> bool, s: seq<T>)
    requires forall k :: 0 <= k < |s| && p(s[k]) ==> q(s[k])
    ensures CountIf(p, s) <= CountIf(q, s)
    decreases |s|
  {
    if |s| > 0 { CountLe(p, q, s[1..]); }
  }
}
