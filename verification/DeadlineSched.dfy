/** struct deadline_data with the queue's merge indexes, updated in place by the functions of
    block/mq-deadline.c, block/elevator.c and block/blk-merge.c.  Each method is proved to do
    what DeadlineModel specifies. */
module DeadlineSched {
  import opened Sequences
  import opened DeadlineModel

  /** The state of a half-done search: what was passed by, then what is still to be searched. */
  lemma {:induction false} HashFindSplit(c: Config, t: Table, before: seq<Rid>, after: seq<Rid>, key: map<Rid, nat>, x: nat)
    requires forall r | r in before :: !(r in key && c.bucket(key[r]) == c.bucket(x))
                                       || (Get(t, r).mergeable && End(Get(t, r)) != x)
    ensures var f := HashFind(c, t, after, key, x);
            HashFind(c, t, before + after, key, x) == Found(f.rq, before + f.hash)
  {
    var f := HashFind(c, t, after, key, x);
    if before == [] {
      assert before + after == after && before + f.hash == f.hash;
    } else {
      HashFindSplit(c, t, before[1..], after, key, x);
      assert (before + after)[1..] == before[1..] + after;
      assert before + f.hash == [before[0]] + (before[1..] + f.hash);
    }
  }

  // ----- a request's place in a list or tree, where the kernel follows the node in the request

  predicate Place(l: seq<Rid>, r: Rid, i: nat) { i <= |l| && (i < |l| ==> l[i] == r) && r !in l[..i] }

  lemma {:induction false} PlaceExists(l: seq<Rid>, r: Rid) returns (i: nat)
    ensures Place(l, r, i)
  {
    if l == [] || l[0] == r {
      i := 0;
    } else {
      var k := PlaceExists(l[1..], r);
      i := k + 1;
      assert l[..i] == [l[0]] + l[1..][..k];
    }
  }

  lemma {:induction false} PlaceSteps(l: seq<Rid>, r: Rid, i: nat)
    requires Place(l, r, i) && i > 0
    ensures l != [] && l[0] != r && Place(l[1..], r, i - 1)
  {
    assert l[..i][0] == l[0] && l[1..][..i - 1] == l[..i][1..];
  }

  lemma {:induction false} RemoveAt(l: seq<Rid>, r: Rid, i: nat)
    requires Place(l, r, i)
    ensures Remove(l, r) == if i < |l| then l[..i] + l[i + 1..] else l
  {
    if i > 0 {
      PlaceSteps(l, r, i);
      RemoveAt(l[1..], r, i - 1);
      assert l == [l[0]] + l[1..];
      assert i < |l| ==> l[..i] + l[i + 1..] == [l[0]] + (l[1..][..i - 1] + l[1..][i..]);
    }
  }

  lemma {:induction false} LatterAt(l: seq<Rid>, r: Rid, i: nat)
    requires Place(l, r, i)
    ensures Latter(l, r) == if i + 1 < |l| then Just(l[i + 1]) else Nobody
  {
    if i > 0 {
      PlaceSteps(l, r, i);
      LatterAt(l[1..], r, i - 1);
    }
  }

  /** list_del and elv_rb_del */
  method ListDel(l: seq<Rid>, r: Rid) returns (m: seq<Rid>)
    ensures m == Remove(l, r)
  {
    ghost var k := PlaceExists(l, r);
    var i: nat :| Place(l, r, i);
    RemoveAt(l, r, i);
    m := if i < |l| then l[..i] + l[i + 1..] else l;
  }

  /** rb_next */
  method RbNext(l: seq<Rid>, r: Rid) returns (rq: Maybe)
    ensures rq == Latter(l, r)
  {
    ghost var k := PlaceExists(l, r);
    var i: nat :| Place(l, r, i);
    LatterAt(l, r, i);
    rq := if i + 1 < |l| then Just(l[i + 1]) else Nobody;
  }

  lemma {:induction false} InsertAfterAt(l: seq<Rid>, y: Rid, x: Rid, i: nat)
    requires Place(l, y, i)
    ensures InsertAfter(l, y, x) == if i < |l| then l[..i + 1] + [x] + l[i + 1..] else l
  {
    if i > 0 {
      PlaceSteps(l, y, i);
      InsertAfterAt(l[1..], y, x, i - 1);
      assert l == [l[0]] + l[1..];
      assert i < |l| ==> l[..i + 1] + [x] + l[i + 1..] == [l[0]] + (l[1..][..i] + [x] + l[1..][i..]);
    }
  }

  /** list_add: `r` after `y`. */
  method ListAdd(l: seq<Rid>, r: Rid, y: Rid) returns (m: seq<Rid>)
    ensures m == InsertAfter(l, y, r)
  {
    ghost var k := PlaceExists(l, y);
    var i: nat :| Place(l, y, i);
    InsertAfterAt(l, y, r, i);
    m := if i < |l| then l[..i + 1] + [r] + l[i + 1..] else l;
  }

  ghost predicate NoneAfter(t: Table, l: seq<Rid>, r: Rid, i: nat)
    requires i <= |l|
  {
    forall j :: 0 <= j < i ==> Get(t, l[j]).pos <= Get(t, r).pos
  }

  lemma {:induction false} RbAddAt(t: Table, l: seq<Rid>, r: Rid, i: nat)
    requires i <= |l| && (i < |l| ==> Get(t, r).pos < Get(t, l[i]).pos) && NoneAfter(t, l, r, i)
    ensures RbAdd(t, l, r) == l[..i] + [r] + l[i..]
  {
    if i > 0 {
      NoneAfterRest(t, l, l[1..], r, i);
      RbAddAt(t, l[1..], r, i - 1);
      InsertShift(l, l[1..], r, i);
      assert RbAdd(t, l, r) == [l[0]] + RbAdd(t, l[1..], r);
    } else {
      assert l[..0] + [r] + l[0..] == [r] + l;
    }
  }

  lemma {:induction false} NoneAfterRest(t: Table, l: seq<Rid>, rest: seq<Rid>, r: Rid, i: nat)
    requires 0 < i <= |l| && rest == l[1..] && NoneAfter(t, l, r, i)
    ensures NoneAfter(t, rest, r, i - 1)
    ensures Get(t, l[0]).pos <= Get(t, r).pos
  {
    forall j | 0 <= j < i - 1
      ensures Get(t, rest[j]).pos <= Get(t, r).pos
    {
      assert rest[j] == l[j + 1];
    }
  }

  lemma {:induction false} InsertShift(l: seq<Rid>, rest: seq<Rid>, r: Rid, i: nat)
    requires 0 < i <= |l| && rest == l[1..]
    ensures [l[0]] + (rest[..i - 1] + [r] + rest[i - 1..]) == l[..i] + [r] + l[i..]
  {
    assert rest[i - 1..] == l[i..];
    assert l[..i] == [l[0]] + rest[..i - 1];
  }

  /** elv_rb_add: go on while the request does not start before the one here. */
  method RbInsert(t: Table, l: seq<Rid>, r: Rid) returns (m: seq<Rid>)
    ensures m == RbAdd(t, l, r)
  {
    var i := 0;
    while i < |l| && Get(t, r).pos >= Get(t, l[i]).pos
      invariant i <= |l| && NoneAfter(t, l, r, i)
    {
      i := i + 1;
    }
    RbAddAt(t, l, r, i);
    m := l[..i] + [r] + l[i..];
  }

  lemma {:induction false} AbsorbParts(s: Sched, req: Rid, next: Rid, moved: bool, a: Rq)
    requires moved == Swaps(s, req, next) && a == Joined(Get(s.t, req), Get(s.t, next), moved)
    ensures var r := Absorb(s, req, next);
            && r.t == s.t[req := a]
            && r.read == (if a.dir.READ? then AbsorbInLane(s.read, req, next, moved) else s.read)
            && r.write == (if a.dir.READ? then s.write else AbsorbInLane(s.write, req, next, moved))
            && r.ix == Rehash(Forget(s.ix, next), req, End(a), Just(req))
            && r.dispatch == s.dispatch && r.batching == s.batching && r.starved == s.starved
  {
  }

  class DeadlineData {
    const c: Config
    var t: Table
    var read: Lane
    var write: Lane
    var ix: Index
    var dispatch: seq<Rid>
    var batching: nat
    var starved: nat

    ghost function Snap(): Sched
      reads this
    {
      Sched(t, read, write, ix, dispatch, batching, starved)
    }

    constructor (config: Config)
      ensures Snap() == Initial() && c == config
    {
      c := config;
      t, read, write, ix := map[], EMPTY_LANE, EMPTY_LANE, Index([], map[], Nobody);
      dispatch, batching, starved := [], 0, 0;
    }

    /** elv_rqhash_find */
    method RqHashFind(x: nat) returns (rq: Maybe)
      modifies this`ix
      ensures var f := HashFind(c, t, old(ix).hash, old(ix).key, x); rq == f.rq && ix == old(ix).(hash := f.hash)
    {
      var passed, rest := [], ix.hash;
      ghost var all := HashFind(c, t, ix.hash, ix.key, x);
      assert passed + rest == ix.hash;
      while rest != []
        invariant forall r | r in passed :: !(r in ix.key && c.bucket(ix.key[r]) == c.bucket(x))
                                            || (Get(t, r).mergeable && End(Get(t, r)) != x)
        invariant ix == old(ix)
        invariant HashFind(c, t, passed + rest, ix.key, x) == all
        decreases |rest|
      {
        var r := rest[0];
        HashFindSplit(c, t, passed, rest, ix.key, x);
        HashFindSplit(c, t, passed, rest[1..], ix.key, x);
        if r in ix.key && c.bucket(ix.key[r]) == c.bucket(x) && !Get(t, r).mergeable {
          rest := rest[1..];
        } else if r in ix.key && c.bucket(ix.key[r]) == c.bucket(x) && End(Get(t, r)) == x {
          ix := ix.(hash := passed + rest);
          return Just(r);
        } else {
          assert passed + rest == (passed + [r]) + rest[1..];
          passed, rest := passed + [r], rest[1..];
        }
      }
      HashFindSplit(c, t, passed, [], ix.key, x);
      assert passed + [] == passed;
      ix := ix.(hash := passed);
      rq := Nobody;
    }

    /** deadline_remove_request, on the list and the tree of one direction */
    method TakeOut(l: Lane, r: Rid) returns (m: Lane)
      ensures m == DropFromLane(l, r)
    {
      var fifo := ListDel(l.fifo, r);
      m := l.(fifo := fifo);
      // deadline_del_rq_rb
      if m.next == Just(r) {
        var next := RbNext(m.sort, r);
        m := m.(next := next);
      }
      var sort := ListDel(m.sort, r);
      m := m.(sort := sort);
    }

    /** elv_rqhash_del, then elv_rqhash_add */
    method RqHashReposition(r: Rid, end: nat)
      modifies this`ix
      ensures ix == Rehash(old(ix), r, end, old(ix).last)
    {
      var hash := ListDel(ix.hash, r);
      ix := ix.(hash := [r] + hash, key := ix.key[r := end]);
    }

    /** elv_rqhash_del; the request is no longer the last that was merged with */
    method RqHashDel(r: Rid)
      modifies this`ix
      ensures ix == Forget(old(ix), r)
    {
      var hash := ListDel(ix.hash, r);
      ix := ix.(hash := hash);
      if ix.last == Just(r) { ix := ix.(last := Nobody); }
    }

    /** deadline_remove_request */
    method RemoveRequest(r: Rid)
      modifies this`read, this`write, this`ix
      ensures Snap() == Drop(old(Snap()), r)
    {
      if Get(t, r).dir.READ? { read := TakeOut(read, r); } else { write := TakeOut(write, r); }
      RqHashDel(r);
    }

    /** dd_merged_requests, on the list and the tree of one direction */
    method TakeOver(l: Lane, req: Rid, next: Rid, earlier: bool) returns (m: Lane, moved: bool)
      ensures moved <==> req in l.fifo && next in l.fifo && earlier
      ensures m == AbsorbInLane(l, req, next, moved)
    {
      m, moved := l, req in l.fifo && next in l.fifo && earlier;
      if moved {
        // list_move
        var fifo := ListDel(m.fifo, req);
        fifo := ListAdd(fifo, req, next);
        m := m.(fifo := fifo);
      }
      m := TakeOut(m, next);
    }

    /** dd_merged_requests, up to the hash */
    method MergedRequests(req: Rid, next: Rid) returns (moved: bool)
      modifies this`read, this`write
      ensures moved == Swaps(old(Snap()), req, next)
      ensures read == if Get(t, req).dir.READ? then AbsorbInLane(old(read), req, next, moved) else old(read)
      ensures write == if Get(t, req).dir.READ? then old(write) else AbsorbInLane(old(write), req, next, moved)
    {
      var a, b := Get(t, req), Get(t, next);
      if a.dir.READ? {
        read, moved := TakeOver(read, req, next, b.fifoTime < a.fifoTime);
      } else {
        write, moved := TakeOver(write, req, next, b.fifoTime < a.fifoTime);
      }
    }

    method MergeInHash(req: Rid, next: Rid, end: nat)
      modifies this`ix
      ensures ix == Rehash(Forget(old(ix), next), req, end, Just(req))
    {
      RqHashDel(next);
      RqHashReposition(req, end);
      ix := ix.(last := Just(req));
    }

    /** attempt_merge, once it is decided, with elv_merge_requests */
    method MergeRequests(req: Rid, next: Rid)
      modifies this`t, this`read, this`write, this`ix
      ensures Snap() == Absorb(old(Snap()), req, next)
    {
      var moved := MergedRequests(req, next);
      var a, b := Get(t, req), Get(t, next);
      a := a.(len := a.len + b.len, segs := a.segs + b.segs, fifoTime := if moved then b.fifoTime else a.fifoTime);
      t := t[req := a];
      MergeInHash(req, next, a.pos + a.len);
      AbsorbParts(old(Snap()), req, next, moved, a);
    }

    /** The loop of elv_attempt_insert_merge, from a request that was just joined */
    method MergeDownwards(r: Rid)
      modifies this`t, this`read, this`write, this`ix
      ensures Snap() == MergeDown(c, old(Snap()), r)
    {
      var cur, more := r, true;
      while more
        invariant MergeDown(c, old(Snap()), r) == if more then MergeDown(c, Snap(), cur) else Snap()
        decreases more, Get(t, cur).pos
      {
        var found := RqHashFind(Get(t, cur).pos);
        if found.Nobody? || !CanAbsorb(c, t, found.rq, cur) {
          more := false;
        } else {
          MergeRequests(found.rq, cur);
          cur := found.rq;
        }
      }
    }

    /** dd_insert_request */
    method Insert(r: Rid, atHead: bool, passthrough: bool, now: nat)
      modifies this`t, this`read, this`write, this`ix, this`dispatch
      ensures Snap() == InsertRequest(c, old(Snap()), r, atHead, passthrough, now)
    {
      ghost var s0 := Snap();
      if Get(t, r).mergeable && !c.nomerges {
        if ix.last.Just? && CanAbsorb(c, t, ix.last.rq, r) {
          MergeRequests(ix.last.rq, r);
          return;
        }
        if !c.noxmerges {
          var found := RqHashFind(Get(t, r).pos);
          assert Snap() == AfterSearch(c, s0, r);
          if found.Just? && CanAbsorb(c, t, found.rq, r) {
            MergeRequests(found.rq, r);
            MergeDownwards(found.rq);
            return;
          }
        }
      }
      assert InsertTarget(c, s0, r).Nobody? && Snap() == AfterSearch(c, s0, r);
      if atHead {
        dispatch := [r] + dispatch;
      } else if passthrough {
        dispatch := dispatch + [r];
      } else {
        AddRequest(r, now);
      }
    }

    /** The lists of dd_insert_request */
    method AddRequest(r: Rid, now: nat)
      modifies this`t, this`read, this`write, this`ix
      ensures Snap() == Enqueue(c, old(Snap()), r, now)
    {
      var rq := Get(t, r);
      rq := rq.(fifoTime := now + if rq.dir.READ? then c.readExpire else c.writeExpire);
      t := t[r := rq];
      var l := if rq.dir.READ? then read else write;
      var sort := RbInsert(t, l.sort, r);
      l := l.(sort := sort, fifo := l.fifo + [r]);
      if rq.dir.READ? { read := l; } else { write := l; }
      if rq.mergeable {
        RqHashReposition(r, rq.pos + rq.len);
        if ix.last.Nobody? { ix := ix.(last := Just(r)); }
      }
    }

    /** elv_merge: what the bio could be merged with, cleaning the hash on the way. */
    method FindMerge(bio: Bio) returns (m: MergeType)
      modifies this`ix
      ensures m == ElvMerge(c, old(Snap()), bio)
      ensures ix == if Searches(c, old(Snap()), bio) then old(ix).(hash := HashFind(c, t, old(ix).hash, old(ix).key, bio.pos).hash)
                    else old(ix)
    {
      if c.nomerges || !bio.mergeable { return NoMerge; }
      if ix.last.Just? && BioMergeOk(t, ix.last.rq, bio) {
        m := DeadlineModel.TryMerge(t, ix.last.rq, bio);
        if !m.NoMerge? { return; }
      }
      if c.noxmerges { return NoMerge; }
      var found := RqHashFind(bio.pos);
      if found.Just? && BioMergeOk(t, found.rq, bio) { return BackMerge(found.rq); }
      // dd_request_merge
      if c.frontMerges {
        found := RbFind(t, (if bio.dir.READ? then read else write).sort, bio.pos + bio.len);
        if found.Just? && BioMergeOk(t, found.rq, bio) { return FrontMerge(found.rq); }
      }
      m := NoMerge;
    }

    /** The fields of the request that takes the bio. */
    method Grow(r: Rid, bio: Bio, pos: nat)
      modifies this`t
      ensures t == old(t)[r := Grown(Get(old(t), r), bio, pos)]
    {
      var rq := Get(t, r);
      t := t[r := rq.(pos := pos, len := rq.len + bio.len, segs := rq.segs + bio.segs)];
    }

    /** dd_request_merged after a front merge: out of the tree and back. */
    method Resort(r: Rid)
      modifies this`read, this`write
      ensures read == if Get(t, r).dir.READ? then Reposition(t, old(read), r) else old(read)
      ensures write == if Get(t, r).dir.WRITE? then Reposition(t, old(write), r) else old(write)
    {
      var l := if Get(t, r).dir.READ? then read else write;
      var sort := ListDel(l.sort, r);
      sort := RbInsert(t, sort, r);
      l := l.(sort := sort);
      if Get(t, r).dir.READ? { read := l; } else { write := l; }
    }

    /** bio_attempt_back_merge, then attempt_back_merge or elv_merged_request */
    method BackMergeWith(r: Rid, bio: Bio)
      modifies this`t, this`read, this`write, this`ix
      ensures Snap() == BackMergeBio(c, old(Snap()), r, bio)
    {
      Grow(r, bio, Get(t, r).pos);
      var rq := t[r];
      var next := RbNext((if rq.dir.READ? then read else write).sort, r);
      if next.Just? && CanAbsorb(c, t, r, next.rq) {
        MergeRequests(r, next.rq);
      } else {
        RqHashReposition(r, rq.pos + rq.len);
        ix := ix.(last := Just(r));
      }
    }

    /** bio_attempt_front_merge, then attempt_front_merge or elv_merged_request */
    method FrontMergeWith(r: Rid, bio: Bio)
      modifies this`t, this`read, this`write, this`ix
      ensures Snap() == FrontMergeBio(c, old(Snap()), r, bio)
    {
      Grow(r, bio, bio.pos);
      var rq := t[r];
      var prev := Former((if rq.dir.READ? then read else write).sort, r);
      if prev.Just? && CanAbsorb(c, t, prev.rq, r) {
        MergeRequests(prev.rq, r);
      } else {
        Resort(r);
        ix := ix.(last := Just(r));
      }
    }

    /** blk_mq_sched_try_merge */
    method TryMerge(bio: Bio) returns (merged: bool)
      modifies this`t, this`read, this`write, this`ix
      ensures Snap() == MergeBio(c, old(Snap()), bio)
      ensures var m := ElvMerge(c, old(Snap()), bio); merged <==> !m.NoMerge? && Fits(c, Get(old(t), m.target), bio)
    {
      var m := FindMerge(bio);
      if m.NoMerge? { return false; }
      var r := m.target;
      if !Fits(c, Get(t, r), bio) {
        t := t[r := Get(t, r).(mergeable := false)];
        ix := ix.(last := if ix.last == Just(r) then Nobody else ix.last);
        return false;
      }
      if m.BackMerge? { BackMergeWith(r, bio); } else { FrontMergeWith(r, bio); }
      merged := true;
    }

    /** The choice of __dd_dispatch_request: go on with the batch, or select a direction. */
    method SelectRequest(now: nat) returns (rq: Maybe)
      modifies this`batching, this`starved
      ensures match Choose(c, old(Snap()), now)
              case Nothing => rq == Nobody && batching == old(batching) && starved == old(starved)
              case Chosen(r, _, anew, n) =>
                rq == Just(r) && batching == (if anew then 1 else old(batching) + 1) && starved == n
    {
      var anyReads, anyWrites := read.fifo != [], write.fifo != [];
      rq := write.next;
      if rq.Nobody? { rq := read.next; }
      if rq.Nobody? || batching >= c.fifoBatch {
        // not running a batch: select the data direction
        var toWrites := anyWrites;
        if anyReads {
          if !anyWrites { toWrites := false; }
          else {
            toWrites := starved >= c.writesStarved;
            starved := starved + 1;
          }
        } else if !anyWrites {
          return Nobody;
        }
        if toWrites {
          starved := 0;
          rq := Just(FindIn(t, write, now));
        } else {
          rq := Just(FindIn(t, read, now));
        }
        batching := 0;
      }
      batching := batching + 1;
    }

    /** __dd_dispatch_request: the next request for the driver, or nobody. */
    method DispatchRequest(now: nat) returns (rq: Maybe)
      modifies this`read, this`write, this`ix, this`dispatch, this`batching, this`starved
      ensures Snap() == Dispatch(c, old(Snap()), now)
      ensures rq == if old(dispatch) != [] then Just(old(dispatch)[0])
                    else match Choose(c, old(Snap()), now) case Nothing => Nobody case Chosen(r, _, _, _) => Just(r)
    {
      if dispatch != [] {
        rq := Just(dispatch[0]);
        dispatch := dispatch[1..];
        return;
      }
      rq := SelectRequest(now);
      if rq.Just? { MoveToDispatch(rq.rq); }
    }

    /** deadline_move_request */
    method MoveToDispatch(r: Rid)
      modifies this`read, this`write, this`ix
      ensures Snap() == MoveRequest(old(Snap()), r)
    {
      read, write := read.(next := Nobody), write.(next := Nobody);
      var next := RbNext((if Get(t, r).dir.READ? then read else write).sort, r);
      if Get(t, r).dir.READ? { read := read.(next := next); } else { write := write.(next := next); }
      RemoveRequest(r);
    }
  }
}
