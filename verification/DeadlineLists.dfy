/** Facts about the sequences that stand for the scheduler's trees and lists. */
module DeadlineLists {
  import opened Sequences
  import opened DeadlineModel

  /** Ordered by start sector. */
  ghost predicate Sorted(t: Table, l: seq<Rid>) {
    l == [] || ((forall x | x in l[1..] :: Get(t, l[0]).pos <= Get(t, x).pos) && Sorted(t, l[1..]))
  }

  lemma {:induction false} SortedFrame(t: Table, t': Table, l: seq<Rid>)
    requires Sorted(t, l) && forall x | x in l :: Get(t', x).pos == Get(t, x).pos
    ensures Sorted(t', l)
  {
    if l != [] { SortedFrame(t, t', l[1..]); }
  }

  lemma {:induction false} RemoveIsPart(l: seq<Rid>, x: Rid)
    ensures forall y | y in Remove(l, x) :: y in l
  {
    if l != [] && l[0] != x { RemoveIsPart(l[1..], x); }
  }

  lemma {:induction false} RemoveSorted(t: Table, l: seq<Rid>, x: Rid)
    requires Sorted(t, l)
    ensures Sorted(t, Remove(l, x))
  {
    if l != [] && l[0] != x {
      RemoveSorted(t, l[1..], x);
      RemoveIsPart(l[1..], x);
      assert Remove(l, x)[1..] == Remove(l[1..], x);
    }
  }

  /** elv_rb_add keeps the order and adds exactly the request. */
  lemma {:induction false} RbAddOk(t: Table, l: seq<Rid>, r: Rid)
    requires Sorted(t, l) && Distinct(l) && r !in l
    ensures Sorted(t, RbAdd(t, l, r)) && Distinct(RbAdd(t, l, r))
    ensures forall x :: x in RbAdd(t, l, r) <==> x in l || x == r
  {
    var m := RbAdd(t, l, r);
    if l == [] {
    } else if Get(t, r).pos < Get(t, l[0]).pos {
      assert m[1..] == l;
      assert l == [l[0]] + l[1..];
    } else {
      RbAddOk(t, l[1..], r);
      assert m[1..] == RbAdd(t, l[1..], r);
      assert l == [l[0]] + l[1..];
    }
  }

  /** elv_rb_find finds a request that starts at `pos` if and only if there is one. */
  lemma {:induction false} RbFindOk(t: Table, l: seq<Rid>, pos: nat)
    ensures var f := RbFind(t, l, pos);
            && (f.Just? ==> f.rq in l && Get(t, f.rq).pos == pos)
            && (f.Nobody? ==> forall x | x in l :: Get(t, x).pos != pos)
  {
    if l != [] {
      RbFindOk(t, l[1..], pos);
      assert l == [l[0]] + l[1..];
    }
  }

  lemma {:induction false} LatterIn(l: seq<Rid>, r: Rid)
    requires Distinct(l)
    ensures Latter(l, r).Just? ==> r in l && Latter(l, r).rq in l && Latter(l, r).rq != r
  {
    if |l| >= 2 {
      assert l == [l[0]] + l[1..];
      assert l[1] in l[1..];
      LatterIn(l[1..], r);
    }
  }

  lemma {:induction false} FormerIn(l: seq<Rid>, r: Rid)
    requires Distinct(l)
    ensures Former(l, r).Just? ==> r in l && Former(l, r).rq in l && Former(l, r).rq != r
  {
    if |l| >= 2 {
      assert l == [l[0]] + l[1..];
      assert l[1] in l[1..];
      FormerIn(l[1..], r);
    }
  }

  lemma {:induction false} InsertAfterOk(l: seq<Rid>, y: Rid, x: Rid)
    requires Distinct(l) && y in l && x !in l
    ensures Distinct(InsertAfter(l, y, x))
    ensures forall z :: z in InsertAfter(l, y, x) <==> z in l || z == x
  {
    var m := InsertAfter(l, y, x);
    assert l == [l[0]] + l[1..];
    if l[0] == y {
      assert m[1..] == [x] + l[1..];
      assert m[1..][1..] == l[1..];
    } else {
      InsertAfterOk(l[1..], y, x);
      assert m[1..] == InsertAfter(l[1..], y, x);
    }
  }

  /** Taking over a request's place in the fifo loses nobody but that request. */
  lemma {:induction false} FifoMergeOk(fifo: seq<Rid>, req: Rid, next: Rid, swap: bool)
    requires Distinct(fifo) && (swap ==> req in fifo && next in fifo && req != next)
    ensures Distinct(FifoMerge(fifo, req, next, swap))
    ensures forall z :: z in FifoMerge(fifo, req, next, swap) <==> z in fifo && z != next
  {
    if swap {
      RemoveKeeps(fifo, req);
      InsertAfterOk(Remove(fifo, req), next, req);
      RemoveKeeps(InsertAfter(Remove(fifo, req), next, req), next);
    } else {
      RemoveKeeps(fifo, next);
    }
  }

  /** elv_rqhash_find, on a hash that holds every request under its end sector: it finds a
      request that may be merged and ends at `x` if and only if one is in the hash; what it
      drops on the way may not be merged. */
  lemma {:induction false} HashFindOk(c: Config, t: Table, hash: seq<Rid>, key: map<Rid, nat>, x: nat)
    requires Distinct(hash) && forall r | r in hash :: r in key && key[r] == End(Get(t, r))
    ensures var f := HashFind(c, t, hash, key, x);
            && (f.rq.Just? ==> f.rq.rq in f.hash && Get(t, f.rq.rq).mergeable && End(Get(t, f.rq.rq)) == x)
            && (f.rq.Nobody? ==> forall r | r in hash && Get(t, r).mergeable :: End(Get(t, r)) != x)
            && Distinct(f.hash)
            && (forall r | r in f.hash :: r in hash)
            && (forall r | r in hash && Get(t, r).mergeable :: r in f.hash)
  {
    if hash != [] {
      HashFindOk(c, t, hash[1..], key, x);
      assert hash == [hash[0]] + hash[1..];
      var f, g := HashFind(c, t, hash, key, x), HashFind(c, t, hash[1..], key, x);
      assert f.hash == g.hash || f.hash == hash || (f.hash == [hash[0]] + g.hash && f.hash[1..] == g.hash);
    }
  }
}
