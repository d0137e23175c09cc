/** Kernel lists as sequences without repetitions. */
module Sequences {

  /** list_del: the list without `x`. */
  function Remove(l: seq<nat>, x: nat): seq<nat> {
    if l == [] then [] else if l[0] == x then l[1..] else [l[0]] + Remove(l[1..], x)
  }

  ghost predicate Distinct(l: seq<nat>) { l == [] || (l[0] !in l[1..] && Distinct(l[1..])) }

  lemma {:induction false} RemoveKeeps(l: seq<nat>, x: nat)
    requires Distinct(l)
    ensures Distinct(Remove(l, x))
    ensures forall y :: y in Remove(l, x) <==> y in l && y != x
  {
    if l != [] {
      assert l == [l[0]] + l[1..];
      if l[0] != x {
        RemoveKeeps(l[1..], x);
        assert Remove(l, x)[1..] == Remove(l[1..], x);
      }
    }
  }

  lemma {:induction false} RemoveAbsent(l: seq<nat>, x: nat)
    requires x !in l
    ensures Remove(l, x) == l
  {
    if l != [] { RemoveAbsent(l[1..], x); }
  }

  lemma {:induction false} AppendKeeps(l: seq<nat>, x: nat)
    requires Distinct(l) && x !in l
    ensures Distinct(l + [x])
  {
    if l != [] {
      AppendKeeps(l[1..], x);
      assert (l + [x])[1..] == l[1..] + [x];
    }
  }
}
