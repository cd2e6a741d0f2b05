/** Facts about finite sequences shared by the protocol models. */
module Sequences {

  datatype Option<+T> = None | Some(value: T)

  /** The last element of a concatenation, and what comes before it. */
  lemma LastOfAppend<T>(s: seq<T>, t: seq<T>)
    requires t != []
    ensures var all := s + t; all[..|all| - 1] == s + t[..|t| - 1] && all[|all| - 1] == t[|t| - 1]
  {
  }

  lemma MembersOfUpdate<T>(s: seq<T>, i: nat, x: T)
    requires i < |s|
    ensures forall y <- s[i := x] :: y == x || y in s
  {
  }

  /** The number of elements of s that satisfy p. */
  function CountIf<T>(s: seq<T>, p: T -> bool): nat
  {
    if s == [] then 0
    else CountIf(s[..|s| - 1], p) + (if p(s[|s| - 1]) then 1 else 0)
  }

  lemma CountAppend<T>(s: seq<T>, x: T, p: T -> bool)
    ensures CountIf(s + [x], p) == CountIf(s, p) + (if p(x) then 1 else 0)
  {
    assert (s + [x])[..|s|] == s;
  }

  lemma {:induction false} CountUpdate<T>(s: seq<T>, i: nat, x: T, p: T -> bool)
    requires i < |s|
    ensures CountIf(s[i := x], p) + (if p(s[i]) then 1 else 0) == CountIf(s, p) + (if p(x) then 1 else 0)
  {
    var n := |s| - 1;
    if i == n {
      assert s[i := x][..n] == s[..n];
    } else {
      assert s[i := x][..n] == s[..n][i := x];
      CountUpdate(s[..n], i, x, p);
    }
  }

  /** A count splits when every counted element belongs to exactly one of three classes. */
  lemma {:induction false} CountPartition<T>(s: seq<T>, p: T -> bool, q: T -> bool, r: T -> bool, u: T -> bool)
    requires forall x <- s :: p(x) <==> q(x) || r(x) || u(x)
    requires forall x <- s :: !(q(x) && r(x)) && !(q(x) && u(x)) && !(r(x) && u(x))
    ensures CountIf(s, p) == CountIf(s, q) + CountIf(s, r) + CountIf(s, u)
  {
    if s != [] {
      var n := |s| - 1;
      assert forall x <- s[..n] :: x in s;
      CountPartition(s[..n], p, q, r, u);
      assert s[n] in s;
    }
  }

  /** The elements of s that satisfy p, in order. */
  function Filter<T>(s: seq<T>, p: T -> bool): seq<T>
  {
    if s == [] then []
    else Filter(s[..|s| - 1], p) + (if p(s[|s| - 1]) then [s[|s| - 1]] else [])
  }

  lemma FilterAppend<T>(s: seq<T>, x: T, p: T -> bool)
    ensures Filter(s + [x], p) == Filter(s, p) + (if p(x) then [x] else [])
  {
    assert (s + [x])[..|s|] == s;
  }

  /** The sum of f over s. */
  function SumBy<T>(s: seq<T>, f: T -> nat): nat
  {
    if s == [] then 0 else SumBy(s[..|s| - 1], f) + f(s[|s| - 1])
  }

  lemma SumAppend<T>(s: seq<T>, x: T, f: T -> nat)
    ensures SumBy(s + [x], f) == SumBy(s, f) + f(x)
  {
    assert (s + [x])[..|s|] == s;
  }

  lemma {:induction false} SumUpdate<T>(s: seq<T>, i: nat, x: T, f: T -> nat)
    requires i < |s|
    ensures SumBy(s[i := x], f) + f(s[i]) == SumBy(s, f) + f(x)
  {
    var n := |s| - 1;
    if i == n {
      assert s[i := x][..n] == s[..n];
    } else {
      assert s[i := x][..n] == s[..n][i := x];
      SumUpdate(s[..n], i, x, f);
    }
  }

  /** Summing a pointwise image. */
  lemma {:induction false} SumPointwise<T>(s: seq<T>, t: seq<T>, f: T -> nat)
    requires |s| == |t| && forall i :: 0 <= i < |s| ==> f(s[i]) == f(t[i])
    ensures SumBy(s, f) == SumBy(t, f)
  {
    if s != [] {
      SumPointwise(s[..|s| - 1], t[..|t| - 1], f);
    }
  }

  /** positions are increasing places of b at which a's elements stand. */
  ghost predicate Embeds<T>(positions: seq<nat>, a: seq<T>, b: seq<T>)
  {
    && |positions| == |a|
    && (forall i :: 0 <= i < |a| ==> positions[i] < |b| && b[positions[i]] == a[i])
    && (forall i, j :: 0 <= i < j < |a| ==> positions[i] < positions[j])
  }

  /** a is b with some elements left out. */
  ghost predicate IsSubsequence<T>(a: seq<T>, b: seq<T>)
  {
    exists positions :: Embeds(positions, a, b)
  }

  lemma SubsequenceSkips<T>(a: seq<T>, b: seq<T>, x: T)
    requires IsSubsequence(a, b)
    ensures IsSubsequence(a, b + [x])
  {
    var positions: seq<nat> :| Embeds(positions, a, b);
    assert forall i :: 0 <= i < |a| ==> (b + [x])[positions[i]] == b[positions[i]];
    assert Embeds(positions, a, b + [x]);
  }

  lemma SubsequenceTakes<T>(a: seq<T>, b: seq<T>, x: T)
    requires IsSubsequence(a, b)
    ensures IsSubsequence(a + [x], b + [x])
  {
    var positions: seq<nat> :| Embeds(positions, a, b);
    var more: seq<nat> := positions + [|b|];
    assert forall i :: 0 <= i < |a| ==> more[i] == positions[i] < |b| && (b + [x])[more[i]] == a[i];
    assert Embeds(more, a + [x], b + [x]);
  }

  lemma SubsequenceEmpty<T>(b: seq<T>)
    ensures IsSubsequence([], b)
  {
    var none: seq<nat> := [];
    assert Embeds(none, [], b);
  }
}
