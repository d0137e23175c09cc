/** The indexes of the scheduler agree with each other through every run. */
module DeadlineProofs {
  import opened Sequences
  import opened DeadlineModel
  import opened DeadlineLists

  /** One direction without the order: tree and fifo hold the same requests, all of that
      direction, and next_rq is one of them or NULL. */
  ghost predicate Shape(t: Table, l: Lane, d: Dir) {
    && Distinct(l.sort) && Distinct(l.fifo)
    && (forall r :: r in l.sort <==> r in l.fifo)
    && (forall r | r in l.sort :: r in t && t[r].dir == d && (t[r].mergeable ==> t[r].len > 0))
    && (l.next.Just? ==> l.next.rq in l.sort)
  }

  ghost predicate LaneOk(t: Table, l: Lane, d: Dir) { Shape(t, l, d) && Sorted(t, l.sort) }

  ghost predicate Queued(s: Sched, r: Rid) { r in s.read.sort || r in s.write.sort }

  /** The hash and last_merge, except that request `x` may be out of date in the hash. */
  ghost predicate IndexOkBut(t: Table, ix: Index, q: set<Rid>, x: Maybe) {
    && Distinct(ix.hash)
    && (forall r | r in ix.hash :: r in q && r in ix.key && (Just(r) != x ==> ix.key[r] == End(Get(t, r))))
    && (forall r | r in q && Get(t, r).mergeable :: r in ix.hash)
    && (ix.last.Just? ==> ix.last.rq in q)
  }

  ghost function Members(s: Sched): set<Rid> { (set r | r in s.read.sort) + (set r | r in s.write.sort) }

  ghost predicate Inv(s: Sched) {
    && LaneOk(s.t, s.read, READ) && LaneOk(s.t, s.write, WRITE)
    && IndexOkBut(s.t, s.ix, Members(s), Nobody)
    && !(s.read.next.Just? && s.write.next.Just?)
    && (s.read.next.Just? || s.write.next.Just? ==> s.batching >= 1)
  }

  // ===== a lane

  lemma {:induction false} LaneFrame(t: Table, t': Table, l: Lane, d: Dir)
    requires LaneOk(t, l, d) && forall x | x in l.sort :: x in t' && t'[x] == t[x]
    ensures LaneOk(t', l, d)
  {
    SortedFrame(t, t', l.sort);
  }

  lemma {:induction false} DropKeepsLane(t: Table, l: Lane, d: Dir, r: Rid)
    requires LaneOk(t, l, d)
    ensures LaneOk(t, DropFromLane(l, r), d)
    ensures forall x :: x in DropFromLane(l, r).sort <==> x in l.sort && x != r
  {
    RemoveKeeps(l.sort, r);
    RemoveKeeps(l.fifo, r);
    RemoveSorted(t, l.sort, r);
    LatterIn(l.sort, r);
  }

  lemma {:induction false} InsertKeepsLane(t: Table, l: Lane, d: Dir, r: Rid)
    requires LaneOk(t, l, d) && r !in l.sort && r in t && t[r].dir == d && (t[r].mergeable ==> t[r].len > 0)
    ensures LaneOk(t, LaneInsert(t, l, r), d)
    ensures forall x :: x in LaneInsert(t, l, r).sort <==> x in l.sort || x == r
  {
    RbAddOk(t, l.sort, r);
    AppendKeeps(l.fifo, r);
  }

  /** dd_merged_requests on the lane that holds `req`; only `next` may be out of order. */
  lemma {:induction false} AbsorbKeepsLane(t: Table, t': Table, l: Lane, d: Dir, req: Rid, next: Rid, swap: bool)
    requires Shape(t, l, d) && Sorted(t, Remove(l.sort, next))
    requires req in l.sort && req != next && (swap ==> next in l.fifo)
    requires req in t' && t'[req].dir == d && t'[req].len > 0 && t'[req].pos == t[req].pos
    requires forall x | x in l.sort && x != req :: x in t' && t'[x] == t[x]
    ensures LaneOk(t', AbsorbInLane(l, req, next, swap), d)
    ensures forall x :: x in AbsorbInLane(l, req, next, swap).sort <==> x in l.sort && x != next
  {
    RemoveKeeps(l.sort, next);
    FifoMergeOk(l.fifo, req, next, swap);
    LatterIn(l.sort, next);
    SortedFrame(t, t', Remove(l.sort, next));
  }

  lemma {:induction false} RepositionKeepsLane(t: Table, l: Lane, d: Dir, r: Rid)
    requires Shape(t, l, d) && r in l.sort && Sorted(t, Remove(l.sort, r))
    ensures LaneOk(t, Reposition(t, l, r), d)
    ensures forall x :: x in Reposition(t, l, r).sort <==> x in l.sort
  {
    RemoveKeeps(l.sort, r);
    RbAddOk(t, Remove(l.sort, r), r);
  }

  // ===== the hash and last_merge

  lemma {:induction false} ForgetKeepsIndex(t: Table, ix: Index, q: set<Rid>, x: Maybe, r: Rid)
    requires IndexOkBut(t, ix, q, x)
    ensures IndexOkBut(t, Forget(ix, r), q - {r}, x)
  {
    RemoveKeeps(ix.hash, r);
  }

  lemma {:induction false} RehashKeepsIndex(t: Table, t': Table, ix: Index, q: set<Rid>, x: Maybe, r: Rid, last: Maybe)
    requires IndexOkBut(t, ix, q, x) && (x == Nobody || x == Just(r))
    requires forall y | y in q && y != r :: Get(t', y) == Get(t, y)
    requires last.Just? ==> last.rq in q + {r}
    ensures IndexOkBut(t', Rehash(ix, r, End(Get(t', r)), last), q + {r}, Nobody)
  {
    RemoveKeeps(ix.hash, r);
    var h := [r] + Remove(ix.hash, r);
    assert h[1..] == Remove(ix.hash, r);
  }

  lemma {:induction false} IndexFrame(t: Table, t': Table, ix: Index, q: set<Rid>, x: Maybe)
    requires IndexOkBut(t, ix, q, x) && forall y | y in q && Just(y) != x :: Get(t', y) == Get(t, y)
    requires x.Just? ==> (Get(t', x.rq).mergeable ==> x.rq in ix.hash || x.rq !in q)
    ensures IndexOkBut(t', ix, q, x)
  {}

  lemma {:induction false} PurgeKeepsIndex(c: Config, t: Table, ix: Index, q: set<Rid>, x: nat)
    requires IndexOkBut(t, ix, q, Nobody)
    ensures IndexOkBut(t, ix.(hash := HashFind(c, t, ix.hash, ix.key, x).hash), q, Nobody)
    ensures var f := HashFind(c, t, ix.hash, ix.key, x).rq;
            f.Just? ==> f.rq in q && Get(t, f.rq).mergeable && End(Get(t, f.rq)) == x
  {
    HashFindOk(c, t, ix.hash, ix.key, x);
  }

  // ===== one request takes over the next

  ghost predicate NextOk(s: Sched) {
    && !(s.read.next.Just? && s.write.next.Just?)
    && (s.read.next.Just? || s.write.next.Just? ==> s.batching >= 1)
  }

  /** The invariant, except that `bad` may be out of order in its tree and `stale` may be out
      of date in the hash. */
  ghost predicate AlmostInv(s: Sched, bad: Rid, stale: Maybe) {
    && Shape(s.t, s.read, READ) && Shape(s.t, s.write, WRITE)
    && Sorted(s.t, Remove(s.read.sort, bad)) && Sorted(s.t, Remove(s.write.sort, bad))
    && IndexOkBut(s.t, s.ix, Members(s), stale) && NextOk(s)
  }

  lemma {:induction false} InvIsAlmostInv(s: Sched, bad: Rid)
    requires Inv(s)
    ensures AlmostInv(s, bad, Nobody)
  {
    RemoveSorted(s.t, s.read.sort, bad);
    RemoveSorted(s.t, s.write.sort, bad);
  }

  lemma {:induction false} OneDirectionOnly(s: Sched, r: Rid, d: Dir)
    requires Shape(s.t, s.read, READ) && Shape(s.t, s.write, WRITE) && Queued(s, r)
    ensures r in s.t && r in s.At(s.t[r].dir).sort
    ensures s.t[r].dir.READ? ==> r !in s.write.sort
    ensures s.t[r].dir.WRITE? ==> r !in s.read.sort
  {}

  /** The lanes after a merge. */
  lemma {:induction false} AbsorbKeepsLanes(s: Sched, req: Rid, next: Rid)
    requires Shape(s.t, s.read, READ) && Shape(s.t, s.write, WRITE)
    requires Sorted(s.t, Remove(s.read.sort, next)) && Sorted(s.t, Remove(s.write.sort, next))
    requires Queued(s, req) && req != next && s.t[req].len > 0 && Get(s.t, next).dir == s.t[req].dir
    ensures var s' := Absorb(s, req, next);
            && LaneOk(s'.t, s'.read, READ) && LaneOk(s'.t, s'.write, WRITE)
            && (forall x :: Queued(s', x) <==> Queued(s, x) && x != next)
  {
    OneDirectionOnly(s, req, READ);
    var s' := Absorb(s, req, next);
    var swap := Swaps(s, req, next);
    assert next in s.read.sort ==> s.t[req].dir.READ?;
    assert next in s.write.sort ==> s.t[req].dir.WRITE?;
    if s.t[req].dir.READ? {
      AbsorbKeepsLane(s.t, s'.t, s.read, READ, req, next, swap);
      RemoveAbsent(s.write.sort, next);
      LaneFrame(s.t, s'.t, s.write, WRITE);
    } else {
      AbsorbKeepsLane(s.t, s'.t, s.write, WRITE, req, next, swap);
      RemoveAbsent(s.read.sort, next);
      LaneFrame(s.t, s'.t, s.read, READ);
    }
  }

  lemma {:induction false} MembersAre(s: Sched, q: set<Rid>)
    requires forall x :: x in q <==> Queued(s, x)
    ensures Members(s) == q
  {
    forall x ensures x in Members(s) <==> x in q { assert x in Members(s) <==> Queued(s, x); }
  }

  lemma {:induction false} AbsorbKeepsIndex(s: Sched, req: Rid, next: Rid, stale: Maybe)
    requires IndexOkBut(s.t, s.ix, Members(s), stale) && (stale == Nobody || stale == Just(req)) && req != next
    ensures var s' := Absorb(s, req, next); IndexOkBut(s'.t, s'.ix, Members(s) - {next} + {req}, Nobody)
  {
    var s' := Absorb(s, req, next);
    ForgetKeepsIndex(s.t, s.ix, Members(s), stale, next);
    RehashKeepsIndex(s.t, s'.t, Forget(s.ix, next), Members(s) - {next}, stale, req, Just(req));
  }

  lemma {:induction false} AbsorbKeepsInv(s: Sched, req: Rid, next: Rid, stale: Maybe)
    requires AlmostInv(s, next, stale) && (stale == Nobody || stale == Just(req))
    requires Queued(s, req) && req != next && s.t[req].len > 0 && Get(s.t, next).dir == s.t[req].dir
    ensures Inv(Absorb(s, req, next))
    ensures forall x :: Queued(Absorb(s, req, next), x) <==> Queued(s, x) && x != next
  {
    AbsorbKeepsLanes(s, req, next);
    AbsorbKeepsIndex(s, req, next, stale);
    AbsorbKeepsNext(s, req, next);
    MembersChange(s, Absorb(s, req, next), {req}, {next});
    InvOf(Absorb(s, req, next), Members(s) - {next} + {req});
  }

  lemma {:induction false} MembersChange(s: Sched, s': Sched, more: set<Rid>, less: set<Rid>)
    requires forall x :: Queued(s', x) <==> (Queued(s, x) && x !in less) || x in more
    ensures Members(s') == Members(s) - less + more
  {
    MembersAre(s', Members(s) - less + more);
  }

  lemma {:induction false} InvOf(s: Sched, q: set<Rid>)
    requires LaneOk(s.t, s.read, READ) && LaneOk(s.t, s.write, WRITE) && NextOk(s)
    requires q == Members(s) && IndexOkBut(s.t, s.ix, q, Nobody)
    ensures Inv(s)
  {
  }

  lemma {:induction false} AbsorbKeepsNext(s: Sched, req: Rid, next: Rid)
    requires NextOk(s)
    ensures NextOk(Absorb(s, req, next))
  {}

  // ===== insertion

  lemma {:induction false} PurgeKeepsInv(c: Config, s: Sched, x: nat)
    requires Inv(s)
    ensures var f := HashFind(c, s.t, s.ix.hash, s.ix.key, x);
            && Inv(Purge(s, f.hash)) && Members(Purge(s, f.hash)) == Members(s)
            && (f.rq.Just? ==> Queued(s, f.rq.rq) && Get(s.t, f.rq.rq).mergeable && End(Get(s.t, f.rq.rq)) == x)
  {
    PurgeKeepsIndex(c, s.t, s.ix, Members(s), x);
  }

  lemma {:induction false} MergeDownKeepsInv(c: Config, s: Sched, r: Rid)
    requires Inv(s) && Queued(s, r)
    ensures Inv(MergeDown(c, s, r))
    decreases Get(s.t, r).pos
  {
    var f := HashFind(c, s.t, s.ix.hash, s.ix.key, Get(s.t, r).pos);
    var s1 := Purge(s, f.hash);
    PurgeKeepsInv(c, s, Get(s.t, r).pos);
    if f.rq.Just? && CanAbsorb(c, s.t, f.rq.rq, r) {
      JoinOnce(c, s1, f.rq.rq, r);
      MergeDownKeepsInv(c, Absorb(s1, f.rq.rq, r), f.rq.rq);
    }
  }

  lemma {:induction false} JoinOnce(c: Config, s: Sched, target: Rid, r: Rid)
    requires Inv(s) && Queued(s, target) && target != r && CanAbsorb(c, s.t, target, r)
    ensures Inv(Absorb(s, target, r)) && Queued(Absorb(s, target, r), target)
  {
    InvIsAlmostInv(s, r);
    AbsorbKeepsInv(s, target, r, Nobody);
  }

  lemma {:induction false} EnqueueKeepsLanes(c: Config, s: Sched, r: Rid, now: nat)
    requires LaneOk(s.t, s.read, READ) && LaneOk(s.t, s.write, WRITE)
    requires !Queued(s, r) && r in s.t && (s.t[r].mergeable ==> s.t[r].len > 0)
    ensures var s' := Enqueue(c, s, r, now);
            && LaneOk(s'.t, s'.read, READ) && LaneOk(s'.t, s'.write, WRITE)
            && (forall x :: Queued(s', x) <==> Queued(s, x) || x == r)
  {
    var s' := Enqueue(c, s, r, now);
    LaneFrame(s.t, s'.t, s.read, READ);
    LaneFrame(s.t, s'.t, s.write, WRITE);
    if s.t[r].dir.READ? { InsertKeepsLane(s'.t, s.read, READ, r); }
    else { InsertKeepsLane(s'.t, s.write, WRITE, r); }
  }

  lemma {:induction false} EnqueueKeepsInv(c: Config, s: Sched, r: Rid, now: nat)
    requires Inv(s) && !Queued(s, r) && r in s.t && (s.t[r].mergeable ==> s.t[r].len > 0)
    ensures Inv(Enqueue(c, s, r, now))
  {
    var s' := Enqueue(c, s, r, now);
    EnqueueKeepsLanes(c, s, r, now);
    MembersChange(s, s', {r}, {});
    assert Members(s) - {} + {r} == Members(s) + {r};
    EnqueueKeepsIndex(c, s, r, now);
    InvOf(s', Members(s) + {r});
  }

  lemma {:induction false} EnqueueKeepsIndex(c: Config, s: Sched, r: Rid, now: nat)
    requires IndexOkBut(s.t, s.ix, Members(s), Nobody) && r !in Members(s)
    ensures var s' := Enqueue(c, s, r, now); IndexOkBut(s'.t, s'.ix, Members(s) + {r}, Nobody)
  {
    var s' := Enqueue(c, s, r, now);
    RehashKeepsIndex(s.t, s'.t, s.ix, Members(s), Nobody, r, if s.ix.last.Nobody? then Just(r) else s.ix.last);
  }

  /** A new request is in the table and nowhere else. */
  lemma {:induction false} ArrivalKeepsInv(s: Sched, r: Rid, rq: Rq)
    requires Inv(s) && r !in s.t
    ensures Inv(s.(t := s.t[r := rq])) && !Queued(s, r)
  {
    var t := s.t[r := rq];
    LaneFrame(s.t, t, s.read, READ);
    LaneFrame(s.t, t, s.write, WRITE);
    assert Members(s.(t := t)) == Members(s);
    IndexFrame(s.t, t, s.ix, Members(s), Nobody);
  }

  lemma {:induction false} SearchKeepsInv(c: Config, s: Sched, r: Rid)
    requires Inv(s)
    ensures Inv(AfterSearch(c, s, r)) && Members(AfterSearch(c, s, r)) == Members(s) && AfterSearch(c, s, r).t == s.t
    ensures var target := InsertTarget(c, s, r);
            target.Just? ==> Queued(s, target.rq) && CanAbsorb(c, s.t, target.rq, r)
  {
    PurgeKeepsInv(c, s, Get(s.t, r).pos);
    assert s.ix.last.Just? ==> Queued(s, s.ix.last.rq);
  }

  lemma {:induction false} JoinKeepsInv(c: Config, s: Sched, target: Rid, r: Rid)
    requires Inv(s) && Queued(s, target) && target != r && CanAbsorb(c, s.t, target, r)
    ensures Inv(Absorb(s, target, r)) && Inv(MergeDown(c, Absorb(s, target, r), target))
  {
    JoinOnce(c, s, target, r);
    MergeDownKeepsInv(c, Absorb(s, target, r), target);
  }

  lemma {:induction false} InsertKeepsInv(c: Config, s: Sched, r: Rid, atHead: bool, passthrough: bool, now: nat)
    requires Inv(s) && r in s.t && !Queued(s, r) && (s.t[r].mergeable ==> s.t[r].len > 0)
    ensures Inv(InsertRequest(c, s, r, atHead, passthrough, now))
  {
    var target := InsertTarget(c, s, r);
    var s1 := AfterSearch(c, s, r);
    SearchKeepsInv(c, s, r);
    assert forall x :: Queued(s1, x) <==> x in Members(s1);
    assert forall x :: Queued(s, x) <==> x in Members(s);
    if target.Just? { JoinKeepsInv(c, s1, target.rq, r); }
    else if !atHead && !passthrough { EnqueueKeepsInv(c, s1, r, now); }
    else { DispatchListIsFree(s1, if atHead then [r] + s1.dispatch else s1.dispatch + [r]); }
  }

  lemma {:induction false} DispatchListIsFree(s: Sched, l: seq<Rid>)
    requires Inv(s)
    ensures Inv(s.(dispatch := l))
  {
    assert Members(s.(dispatch := l)) == Members(s);
  }

  // ===== merging a bio

  lemma {:induction false} ShapeGrows(t: Table, l: Lane, d: Dir, r: Rid, rq: Rq)
    requires Shape(t, l, d) && r in t && rq.dir == t[r].dir && (rq.mergeable ==> rq.len > 0)
    ensures Shape(t[r := rq], l, d)
  {}

  lemma {:induction false} IndexGrows(t: Table, t': Table, ix: Index, q: set<Rid>, r: Rid, stale: Maybe)
    requires IndexOkBut(t, ix, q, Nobody) && (Get(t', r).mergeable ==> Get(t, r).mergeable)
    requires forall y | y in q && y != r :: Get(t', y) == Get(t, y)
    requires stale == Just(r) || (stale == Nobody && End(Get(t', r)) == End(Get(t, r)))
    ensures IndexOkBut(t', ix, q, stale)
  {
    forall y | y in q && Get(t', y).mergeable ensures y in ix.hash { assert Get(t, y).mergeable; }
  }

  lemma {:induction false} OrderStays(t: Table, l: seq<Rid>, bad: Rid, r: Rid, rq: Rq)
    requires Sorted(t, l) && (Get(t, r).pos == rq.pos || (bad == r && Distinct(l)))
    ensures Sorted(t[r := rq], Remove(l, bad))
  {
    RemoveSorted(t, l, bad);
    if bad == r && Distinct(l) { RemoveKeeps(l, r); } else { RemoveIsPart(l, bad); }
    SortedFrame(t, t[r := rq], Remove(l, bad));
  }

  /** A request grows: only its own order and its own place in the hash can suffer. */
  lemma {:induction false} GrowAlmostInv(s: Sched, r: Rid, rq: Rq, bad: Rid)
    requires Inv(s) && Queued(s, r) && rq.dir == Get(s.t, r).dir
    requires rq.mergeable ==> rq.len > 0 && Get(s.t, r).mergeable
    requires Get(s.t, r).pos == rq.pos || bad == r
    ensures AlmostInv(s.(t := s.t[r := rq]), bad, if End(rq) == End(Get(s.t, r)) then Nobody else Just(r))
  {
    var s1 := s.(t := s.t[r := rq]);
    assert Members(s1) == Members(s);
    ShapeGrows(s.t, s.read, READ, r, rq);
    ShapeGrows(s.t, s.write, WRITE, r, rq);
    OrderStays(s.t, s.read.sort, bad, r, rq);
    OrderStays(s.t, s.write.sort, bad, r, rq);
    IndexGrows(s.t, s1.t, s.ix, Members(s), r, if End(rq) == End(Get(s.t, r)) then Nobody else Just(r));
  }

  lemma {:induction false} SetNoMergeKeepsInv(s: Sched, r: Rid)
    requires Inv(s) && Queued(s, r)
    ensures Inv(SetNoMerge(s, r))
  {
    var rq := Get(s.t, r).(mergeable := false);
    var s' := SetNoMerge(s, r);
    ShapeGrows(s.t, s.read, READ, r, rq);
    ShapeGrows(s.t, s.write, WRITE, r, rq);
    SortedFrame(s.t, s'.t, s.read.sort);
    SortedFrame(s.t, s'.t, s.write.sort);
    IndexGrows(s.t, s'.t, s.ix, Members(s), r, Nobody);
    assert Members(s') == Members(s);
    InvOf(s', Members(s));
  }

  lemma {:induction false} BackMergeKeepsInv(c: Config, s: Sched, r: Rid, bio: Bio)
    requires Inv(s) && Queued(s, r) && Get(s.t, r).mergeable
    ensures Inv(BackMergeBio(c, s, r, bio))
  {
    var rq := Grown(s.t[r], bio, s.t[r].pos);
    var s1 := s.(t := s.t[r := rq]);
    OneDirectionOnly(s, r, READ);
    var next := Latter(s.At(rq.dir).sort, r);
    LatterIn(s.At(rq.dir).sort, r);
    if next.Just? && CanAbsorb(c, s1.t, r, next.rq) {
      GrowAlmostInv(s, r, rq, next.rq);
      AbsorbKeepsInv(s1, r, next.rq, if End(rq) == End(s.t[r]) then Nobody else Just(r));
    } else {
      RehashAfterGrowth(s, r, bio);
    }
  }

  lemma {:induction false} RehashAfterGrowth(s: Sched, r: Rid, bio: Bio)
    requires Inv(s) && Queued(s, r) && Get(s.t, r).mergeable
    ensures var rq := Grown(s.t[r], bio, s.t[r].pos);
            Inv(s.(t := s.t[r := rq], ix := Rehash(s.ix, r, End(rq), Just(r))))
  {
    var rq := Grown(s.t[r], bio, s.t[r].pos);
    var s' := s.(t := s.t[r := rq], ix := Rehash(s.ix, r, End(rq), Just(r)));
    ShapeGrows(s.t, s.read, READ, r, rq);
    ShapeGrows(s.t, s.write, WRITE, r, rq);
    SortedFrame(s.t, s'.t, s.read.sort);
    SortedFrame(s.t, s'.t, s.write.sort);
    RehashKeepsIndex(s.t, s'.t, s.ix, Members(s), Nobody, r, Just(r));
    MembersAre(s', Members(s) + {r});
  }

  lemma {:induction false} FrontMergeKeepsInv(c: Config, s: Sched, r: Rid, bio: Bio)
    requires Inv(s) && Queued(s, r) && Get(s.t, r).mergeable && s.t[r].pos == bio.pos + bio.len
    ensures Inv(FrontMergeBio(c, s, r, bio))
  {
    var rq := Grown(s.t[r], bio, bio.pos);
    var s1 := s.(t := s.t[r := rq]);
    OneDirectionOnly(s, r, READ);
    GrowAlmostInv(s, r, rq, r);
    var prev := Former(s.At(rq.dir).sort, r);
    FormerIn(s.At(rq.dir).sort, r);
    if prev.Just? && CanAbsorb(c, s1.t, prev.rq, r) {
      AbsorbKeepsInv(s1, prev.rq, r, Nobody);
    } else {
      RepositionKeepsInv(s1, r);
    }
  }

  lemma {:induction false} RepositionKeepsInv(s: Sched, r: Rid)
    requires AlmostInv(s, r, Nobody) && Queued(s, r)
    ensures var d := s.t[r].dir;
            Inv(s.(read := if d.READ? then Reposition(s.t, s.read, r) else s.read,
                   write := if d.WRITE? then Reposition(s.t, s.write, r) else s.write,
                   ix := s.ix.(last := Just(r))))
  {
    var d := s.t[r].dir;
    var s' := s.(read := if d.READ? then Reposition(s.t, s.read, r) else s.read,
                 write := if d.WRITE? then Reposition(s.t, s.write, r) else s.write,
                 ix := s.ix.(last := Just(r)));
    OneDirectionOnly(s, r, READ);
    if d.READ? { RepositionKeepsLane(s.t, s.read, READ, r); RemoveAbsent(s.write.sort, r); }
    else { RepositionKeepsLane(s.t, s.write, WRITE, r); RemoveAbsent(s.read.sort, r); }
    MembersAre(s', Members(s));
  }

  /** What the decision of elv_merge means. */
  ghost predicate TargetOk(s: Sched, bio: Bio, m: MergeType) {
    && (!m.NoMerge? ==> Queued(s, m.target) && Get(s.t, m.target).mergeable)
    && (m.BackMerge? ==> End(Get(s.t, m.target)) == bio.pos)
    && (m.FrontMerge? ==> Get(s.t, m.target).pos == bio.pos + bio.len)
  }

  lemma {:induction false} CacheTarget(s: Sched, bio: Bio)
    requires Inv(s)
    ensures TargetOk(s, bio, CacheHit(s, bio))
  {}

  lemma {:induction false} FrontTarget(c: Config, s: Sched, bio: Bio)
    ensures TargetOk(s, bio, FrontHit(c, s, bio))
  {
    RbFindOk(s.t, s.At(bio.dir).sort, bio.pos + bio.len);
  }

  lemma {:induction false} MergeTarget(c: Config, s: Sched, bio: Bio)
    requires Inv(s)
    ensures TargetOk(s, bio, ElvMerge(c, s, bio))
  {
    CacheTarget(s, bio);
    FrontTarget(c, s, bio);
    PurgeKeepsInv(c, s, bio.pos);
  }

  lemma {:induction false} MergeBioKeepsInv(c: Config, s: Sched, bio: Bio)
    requires Inv(s)
    ensures Inv(MergeBio(c, s, bio))
  {
    MergeTarget(c, s, bio);
    LookKeepsInv(c, s, bio);
    MergeIntoKeepsInv(c, AfterLook(c, s, bio), ElvMerge(c, s, bio), bio);
  }

  lemma {:induction false} LookKeepsInv(c: Config, s: Sched, bio: Bio)
    requires Inv(s)
    ensures var s1 := AfterLook(c, s, bio); Inv(s1) && s1.t == s.t && s1.read == s.read && s1.write == s.write
  {
    PurgeKeepsInv(c, s, bio.pos);
  }

  lemma {:induction false} MergeIntoKeepsInv(c: Config, s: Sched, m: MergeType, bio: Bio)
    requires Inv(s) && TargetOk(s, bio, m)
    ensures Inv(MergeInto(c, s, m, bio))
  {
    match m
    case NoMerge =>
    case BackMerge(r) => if Fits(c, Get(s.t, r), bio) { BackMergeKeepsInv(c, s, r, bio); } else { SetNoMergeKeepsInv(s, r); }
    case FrontMerge(r) => if Fits(c, Get(s.t, r), bio) { FrontMergeKeepsInv(c, s, r, bio); } else { SetNoMergeKeepsInv(s, r); }
  }

  // ===== dispatch

  lemma {:induction false} ChoiceIsQueued(c: Config, s: Sched, now: nat)
    requires Inv(s)
    ensures var ch := Choose(c, s, now);
            && (ch.Chosen? ==> ch.rq in s.At(ch.dir).sort && ch.rq in s.t && s.t[ch.rq].dir == ch.dir)
            && (ch.Nothing? <==> s.read.sort == [] && s.write.sort == [])
  {
    assert forall l: Lane :: l.fifo != [] ==> l.fifo[0] in l.fifo;
    assert s.read.sort != [] ==> s.read.sort[0] in s.read.sort;
    assert s.write.sort != [] ==> s.write.sort[0] in s.write.sort;
  }

  lemma {:induction false} MoveKeepsInv(s: Sched, r: Rid)
    requires Inv(s) && Queued(s, r) && s.batching >= 1
    ensures Inv(MoveRequest(s, r))
    ensures forall x :: Queued(MoveRequest(s, r), x) <==> Queued(s, x) && x != r
  {
    var d := s.t[r].dir;
    OneDirectionOnly(s, r, READ);
    LatterIn(s.At(d).sort, r);
    var lr := s.read.(next := if d.READ? then Latter(s.read.sort, r) else Nobody);
    var lw := s.write.(next := if d.WRITE? then Latter(s.write.sort, r) else Nobody);
    if d.READ? { DropKeepsLane(s.t, lr, READ, r); } else { DropKeepsLane(s.t, lw, WRITE, r); }
    ForgetKeepsIndex(s.t, s.ix, Members(s), Nobody, r);
    var s' := MoveRequest(s, r);
    MembersChange(s, s', {}, {r});
    assert Members(s) - {r} + {} == Members(s) - {r};
    InvOf(s', Members(s) - {r});
  }

  lemma {:induction false} DispatchKeepsInv(c: Config, s: Sched, now: nat)
    requires Inv(s)
    ensures Inv(Dispatch(c, s, now))
  {
    if s.dispatch != [] { DispatchListIsFree(s, s.dispatch[1..]); }
    else {
      var ch := Choose(c, s, now);
      ChoiceIsQueued(c, s, now);
      if ch.Chosen? {
        var s1 := s.(batching := if ch.anew then 1 else s.batching + 1, starved := ch.starved);
        assert Members(s1) == Members(s);
        MoveKeepsInv(s1, ch.rq);
      }
    }
  }

  // ===== all runs

  lemma {:induction false} StepKeepsInv(c: Config, s: Sched, step: Step)
    requires Inv(s)
    ensures Inv(Apply(c, s, step))
  {
    match step
    case Insert(r, rq, atHead, passthrough, now) =>
      if r !in s.t && !(rq.mergeable && rq.len == 0) {
        ArrivalKeepsInv(s, r, rq);
        InsertKeepsInv(c, s.(t := s.t[r := rq]), r, atHead, passthrough, now);
      }
    case Merge(bio) => MergeBioKeepsInv(c, s, bio);
    case Take(now) => DispatchKeepsInv(c, s, now);
  }

  lemma {:induction false} RunKeepsInv(c: Config, steps: seq<Step>)
    ensures Inv(Run(c, steps))
  {
    if steps == [] {
      assert Members(Initial()) == {};
    } else {
      RunKeepsInv(c, steps[..|steps| - 1]);
      StepKeepsInv(c, Run(c, steps[..|steps| - 1]), steps[|steps| - 1]);
    }
  }
}
