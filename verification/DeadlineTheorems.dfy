/** What the scheduler promises, over every run of inserts, merges and dispatches. */
module DeadlineTheorems {
  import opened Sequences
  import opened DeadlineModel
  import opened DeadlineLists
  import opened DeadlineProofs

  lemma {:induction false} SortedByIndex(t: Table, l: seq<Rid>, i: nat, j: nat)
    requires Sorted(t, l) && i < j < |l|
    ensures Get(t, l[i]).pos <= Get(t, l[j]).pos
  {
    if i == 0 { assert l[j] == l[1..][j - 1]; } else { SortedByIndex(t, l[1..], i - 1, j - 1); }
  }

  /** In every run: tree and fifo of a direction hold the same requests, each once, all of that
      direction; the tree is ordered by start sector; next_rq, at most one of the two, and
      last_merge are NULL or queued. */
  lemma {:induction false} IndexesAgree(c: Config, steps: seq<Step>, d: Dir)
    ensures var s := Run(c, steps);
            var l := s.At(d);
            && Distinct(l.sort) && Distinct(l.fifo) && (forall r :: r in l.sort <==> r in l.fifo)
            && (forall r | r in l.sort :: r in s.t && s.t[r].dir == d)
            && (forall i, j | 0 <= i < j < |l.sort| :: Get(s.t, l.sort[i]).pos <= Get(s.t, l.sort[j]).pos)
            && (l.next.Just? ==> l.next.rq in l.sort)
            && !(s.read.next.Just? && s.write.next.Just?)
            && (s.ix.last.Just? ==> s.ix.last.rq in s.read.sort || s.ix.last.rq in s.write.sort)
  {
    RunKeepsInv(c, steps);
    var s := Run(c, steps);
    var l := s.At(d);
    forall i, j | 0 <= i < j < |l.sort| ensures Get(s.t, l.sort[i]).pos <= Get(s.t, l.sort[j]).pos {
      SortedByIndex(s.t, l.sort, i, j);
    }
  }

  /** In every run and for every hash function, elv_rqhash_find(x) returns a request if and only
      if some queued request that may be merged ends at sector x, and then such a one. */
  lemma {:induction false} HashFindIsExact(c: Config, steps: seq<Step>, x: nat)
    ensures var s := Run(c, steps);
            var f := HashFind(c, s.t, s.ix.hash, s.ix.key, x).rq;
            && (f.Just? <==> exists r :: Queued(s, r) && Get(s.t, r).mergeable && End(Get(s.t, r)) == x)
            && (f.Just? ==> Queued(s, f.rq) && Get(s.t, f.rq).mergeable && End(Get(s.t, f.rq)) == x)
  {
    RunKeepsInv(c, steps);
    var s := Run(c, steps);
    HashFindOk(c, s.t, s.ix.hash, s.ix.key, x);
    var f := HashFind(c, s.t, s.ix.hash, s.ix.key, x).rq;
    if f.Nobody? {
      forall r | Queued(s, r) && Get(s.t, r).mergeable ensures End(Get(s.t, r)) != x {
        assert r in Members(s);
        assert r in s.ix.hash;
      }
    } else {
      assert f.rq in s.ix.hash && f.rq in Members(s);
    }
  }

  lemma {:induction false} EmptyMeansNobody(s: Sched)
    ensures s.read.sort == [] && s.write.sort == [] <==> forall r :: !Queued(s, r)
  {
    if s.read.sort != [] { assert Queued(s, s.read.sort[0]); }
    if s.write.sort != [] { assert Queued(s, s.write.sort[0]); }
  }

  lemma {:induction false} DispatchTakesOne(c: Config, s: Sched, now: nat, ch: Choice)
    requires Inv(s) && s.dispatch == [] && ch == Choose(c, s, now) && ch.Chosen?
    ensures Queued(s, ch.rq) && forall x :: Queued(Dispatch(c, s, now), x) <==> Queued(s, x) && x != ch.rq
  {
    ChoiceIsQueued(c, s, now);
    MoveTakesOne(s, if ch.anew then 1 else s.batching + 1, ch.starved, ch.rq);
  }

  lemma {:induction false} MoveTakesOne(s: Sched, batching: nat, starved: nat, r: Rid)
    requires Inv(s) && Queued(s, r) && batching >= 1
    ensures var s' := MoveRequest(s.(batching := batching, starved := starved), r);
            forall x :: Queued(s', x) <==> Queued(s, x) && x != r
  {
    var s1 := s.(batching := batching, starved := starved);
    assert Members(s1) == Members(s);
    MoveKeepsInv(s1, r);
    assert forall x :: Queued(s1, x) <==> Queued(s, x);
  }

  /** A dispatch finds nothing only if nothing is queued, and otherwise takes exactly one request
      out of the lists. */
  lemma {:induction false} DispatchIsWorkConserving(c: Config, steps: seq<Step>, now: nat)
    requires Run(c, steps).dispatch == []
    ensures var s := Run(c, steps);
            var ch := Choose(c, s, now);
            && (ch.Nothing? <==> forall r :: !Queued(s, r))
            && (ch.Chosen? ==> (Queued(s, ch.rq) &&
                                forall x :: Queued(Dispatch(c, s, now), x) <==> Queued(s, x) && x != ch.rq))
  {
    RunKeepsInv(c, steps);
    var s := Run(c, steps);
    ChoiceIsQueued(c, s, now);
    EmptyMeansNobody(s);
    if Choose(c, s, now).Chosen? { DispatchTakesOne(c, s, now, Choose(c, s, now)); }
  }

  // ===== merging keeps the meaning: the sectors to be transferred

  ghost predicate In(rq: Rq, d: Dir, x: nat) { rq.dir == d && rq.pos <= x < End(rq) }

  /** Sector `x` is covered by a queued request of direction `d`. */
  ghost predicate Covers(s: Sched, d: Dir, x: nat) { exists r :: Queued(s, r) && In(Get(s.t, r), d, x) }

  lemma {:induction false} AbsorbKeepsSectors(c: Config, s: Sched, req: Rid, next: Rid, d: Dir, x: nat)
    requires Queued(s, req) && req != next && CanAbsorb(c, s.t, req, next)
    requires forall y :: Queued(Absorb(s, req, next), y) <==> Queued(s, y) && y != next
    ensures Covers(Absorb(s, req, next), d, x) <==> Covers(s, d, x) || In(Get(s.t, next), d, x)
  {
    var s' := Absorb(s, req, next);
    assert In(Get(s'.t, req), d, x) <==> In(Get(s.t, req), d, x) || In(Get(s.t, next), d, x);
    if Covers(s, d, x) {
      var r :| Queued(s, r) && In(Get(s.t, r), d, x);
      assert r != next && r != req ==> Queued(s', r) && In(Get(s'.t, r), d, x);
      assert Queued(s', req);
    }
    if Covers(s', d, x) {
      var r :| Queued(s', r) && In(Get(s'.t, r), d, x);
      assert Queued(s, r);
    }
    assert Queued(s', req);
  }

  lemma {:induction false} SameCover(s: Sched, s': Sched, d: Dir, x: nat)
    requires s'.t == s.t && forall r :: Queued(s', r) <==> Queued(s, r)
    ensures Covers(s', d, x) <==> Covers(s, d, x)
  {}

  /** Absorbing a queued request changes no sector, absorbing a new one adds its sectors. */
  lemma {:induction false} JoinKeepsSectors(c: Config, s: Sched, req: Rid, next: Rid, d: Dir, x: nat)
    requires Inv(s) && Queued(s, req) && req != next && CanAbsorb(c, s.t, req, next)
    ensures Inv(Absorb(s, req, next)) && Queued(Absorb(s, req, next), req)
    ensures Covers(Absorb(s, req, next), d, x) <==> Covers(s, d, x) || In(Get(s.t, next), d, x)
  {
    InvIsAlmostInv(s, next);
    AbsorbKeepsInv(s, req, next, Nobody);
    AbsorbKeepsSectors(c, s, req, next, d, x);
  }

  lemma {:induction false} MergeDownKeepsSectors(c: Config, s: Sched, r: Rid, d: Dir, x: nat)
    requires Inv(s) && Queued(s, r)
    ensures Covers(MergeDown(c, s, r), d, x) <==> Covers(s, d, x)
    decreases Get(s.t, r).pos
  {
    var f := HashFind(c, s.t, s.ix.hash, s.ix.key, Get(s.t, r).pos);
    var s1 := Purge(s, f.hash);
    PurgeKeepsInv(c, s, Get(s.t, r).pos);
    SameCover(s, s1, d, x);
    if f.rq.Just? && CanAbsorb(c, s.t, f.rq.rq, r) {
      JoinQueued(c, s1, f.rq.rq, r, d, x);
      MergeDownKeepsSectors(c, Absorb(s1, f.rq.rq, r), f.rq.rq, d, x);
    }
  }

  lemma {:induction false} JoinQueued(c: Config, s: Sched, req: Rid, next: Rid, d: Dir, x: nat)
    requires Inv(s) && Queued(s, req) && Queued(s, next) && req != next && CanAbsorb(c, s.t, req, next)
    ensures Inv(Absorb(s, req, next)) && Queued(Absorb(s, req, next), req)
    ensures Covers(Absorb(s, req, next), d, x) <==> Covers(s, d, x)
  {
    JoinKeepsSectors(c, s, req, next, d, x);
    if In(Get(s.t, next), d, x) { CoveredBy(s, next, d, x); }
  }

  lemma {:induction false} EnqueueAddsSectors(c: Config, s: Sched, r: Rid, now: nat, d: Dir, x: nat)
    requires Inv(s) && !Queued(s, r) && r in s.t && (s.t[r].mergeable ==> s.t[r].len > 0)
    ensures Covers(Enqueue(c, s, r, now), d, x) <==> Covers(s, d, x) || In(s.t[r], d, x)
  {
    EnqueueQueues(c, s, r, now);
    OneMore(s, Enqueue(c, s, r, now), r, d, x);
  }

  lemma {:induction false} EnqueueQueues(c: Config, s: Sched, r: Rid, now: nat)
    requires Inv(s) && !Queued(s, r) && r in s.t && (s.t[r].mergeable ==> s.t[r].len > 0)
    ensures forall y :: Queued(Enqueue(c, s, r, now), y) <==> Queued(s, y) || y == r
  {
    EnqueueKeepsLanes(c, s, r, now);
  }

  lemma {:induction false} OneMore(s: Sched, s': Sched, r: Rid, d: Dir, x: nat)
    requires !Queued(s, r) && forall y :: Queued(s', y) <==> Queued(s, y) || y == r
    requires forall y | y != r :: Get(s'.t, y) == Get(s.t, y)
    ensures Covers(s', d, x) <==> Covers(s, d, x) || In(Get(s'.t, r), d, x)
  {
    if Covers(s, d, x) {
      var y :| Queued(s, y) && In(Get(s.t, y), d, x);
      CoveredBy(s', y, d, x);
    } else if Covers(s', d, x) {
      var y :| Queued(s', y) && In(Get(s'.t, y), d, x);
      if y != r { CoveredBy(s, y, d, x); }
    } else if In(Get(s'.t, r), d, x) {
      CoveredBy(s', r, d, x);
    }
  }

  /** Inserting a request, joined to others or not, adds exactly its sectors to those queued in
      its direction, unless it goes straight to the dispatch list. */
  lemma {:induction false} InsertAddsItsSectors(c: Config, s: Sched, r: Rid, now: nat, d: Dir, x: nat)
    requires Inv(s) && !Queued(s, r) && r in s.t && (s.t[r].mergeable ==> s.t[r].len > 0)
    ensures Covers(InsertRequest(c, s, r, false, false, now), d, x) <==> Covers(s, d, x) || In(s.t[r], d, x)
  {
    var target := InsertTarget(c, s, r);
    var s1 := AfterSearch(c, s, r);
    SearchKeepsInv(c, s, r);
    assert forall y :: Queued(s1, y) <==> y in Members(s1);
    assert forall y :: Queued(s, y) <==> y in Members(s);
    SameCover(s, s1, d, x);
    if target.Just? {
      JoinKeepsSectors(c, s1, target.rq, r, d, x);
      MergeDownKeepsSectors(c, Absorb(s1, target.rq, r), target.rq, d, x);
    } else {
      EnqueueAddsSectors(c, s1, r, now, d, x);
    }
  }

  // ----- a bio

  ghost predicate InBio(bio: Bio, d: Dir, x: nat) { bio.dir == d && bio.pos <= x < bio.pos + bio.len }

  /** blk_mq_sched_try_merge returns true. */
  ghost predicate Merged(c: Config, s: Sched, bio: Bio) {
    !ElvMerge(c, s, bio).NoMerge? && Fits(c, Get(s.t, ElvMerge(c, s, bio).target), bio)
  }

  lemma {:induction false} CoveredBy(s: Sched, r: Rid, d: Dir, x: nat)
    requires Queued(s, r) && In(Get(s.t, r), d, x)
    ensures Covers(s, d, x)
  {}

  lemma {:induction false} GrowAddsSectors(s: Sched, s1: Sched, r: Rid, rq: Rq, bio: Bio, d: Dir, x: nat)
    requires Queued(s, r) && s1.t == s.t[r := rq] && s1.read == s.read && s1.write == s.write
    requires In(rq, d, x) <==> In(Get(s.t, r), d, x) || InBio(bio, d, x)
    ensures Covers(s1, d, x) <==> Covers(s, d, x) || InBio(bio, d, x)
  {
    if In(rq, d, x) {
      CoveredBy(s1, r, d, x);
      if !InBio(bio, d, x) { CoveredBy(s, r, d, x); }
    } else {
      OtherCovers(s, s1, r, d, x);
      OtherCovers(s1, s, r, d, x);
    }
  }

  lemma {:induction false} OtherCovers(s: Sched, s1: Sched, r: Rid, d: Dir, x: nat)
    requires s1.read == s.read && s1.write == s.write && !In(Get(s.t, r), d, x)
    requires forall y | y != r :: Get(s1.t, y) == Get(s.t, y)
    ensures Covers(s, d, x) ==> Covers(s1, d, x)
  {
    if Covers(s, d, x) {
      var y :| Queued(s, y) && In(Get(s.t, y), d, x);
      assert Queued(s1, y);
      CoveredBy(s1, y, d, x);
    }
  }

  lemma {:induction false} AbsorbGrown(c: Config, s: Sched, req: Rid, next: Rid, stale: Maybe, d: Dir, x: nat)
    requires AlmostInv(s, next, stale) && (stale == Nobody || stale == Just(req))
    requires Queued(s, req) && Queued(s, next) && req != next && CanAbsorb(c, s.t, req, next)
    ensures Covers(Absorb(s, req, next), d, x) <==> Covers(s, d, x)
  {
    AbsorbKeepsInv(s, req, next, stale);
    AbsorbKeepsSectors(c, s, req, next, d, x);
    assert In(Get(s.t, next), d, x) ==> Covers(s, d, x);
  }

  lemma {:induction false} BackMergeAddsSectors(c: Config, s: Sched, r: Rid, bio: Bio, d: Dir, x: nat)
    requires Inv(s) && Queued(s, r) && BioMergeOk(s.t, r, bio) && End(Get(s.t, r)) == bio.pos
    ensures Covers(BackMergeBio(c, s, r, bio), d, x) <==> Covers(s, d, x) || InBio(bio, d, x)
  {
    var rq := Grown(s.t[r], bio, s.t[r].pos);
    var s1 := s.(t := s.t[r := rq]);
    GrowAddsSectors(s, s1, r, rq, bio, d, x);
    OneDirectionOnly(s, r, READ);
    var next := Latter(s.At(rq.dir).sort, r);
    LatterIn(s.At(rq.dir).sort, r);
    if next.Just? && CanAbsorb(c, s1.t, r, next.rq) {
      GrowAlmostInv(s, r, rq, next.rq);
      AbsorbGrown(c, s1, r, next.rq, if End(rq) == End(s.t[r]) then Nobody else Just(r), d, x);
    } else {
      SameCover(s1, BackMergeBio(c, s, r, bio), d, x);
    }
  }

  lemma {:induction false} FrontMergeAddsSectors(c: Config, s: Sched, r: Rid, bio: Bio, d: Dir, x: nat)
    requires Inv(s) && Queued(s, r) && BioMergeOk(s.t, r, bio) && Get(s.t, r).pos == bio.pos + bio.len
    ensures Covers(FrontMergeBio(c, s, r, bio), d, x) <==> Covers(s, d, x) || InBio(bio, d, x)
  {
    var rq := Grown(s.t[r], bio, bio.pos);
    var s1 := s.(t := s.t[r := rq]);
    GrowAddsSectors(s, s1, r, rq, bio, d, x);
    OneDirectionOnly(s, r, READ);
    GrowAlmostInv(s, r, rq, r);
    var prev := Former(s.At(rq.dir).sort, r);
    FormerIn(s.At(rq.dir).sort, r);
    if prev.Just? && CanAbsorb(c, s1.t, prev.rq, r) {
      AbsorbGrown(c, s1, prev.rq, r, Nobody, d, x);
    } else {
      if rq.dir.READ? { RepositionKeepsLane(s1.t, s1.read, READ, r); }
      else { RepositionKeepsLane(s1.t, s1.write, WRITE, r); }
      SameCover(s1, FrontMergeBio(c, s, r, bio), d, x);
    }
  }

  lemma {:induction false} SetNoMergeKeepsSectors(s: Sched, r: Rid, d: Dir, x: nat)
    requires Queued(s, r)
    ensures Covers(SetNoMerge(s, r), d, x) <==> Covers(s, d, x)
  {
    var s' := SetNoMerge(s, r);
    assert forall y :: Queued(s', y) <==> Queued(s, y);
    assert forall y :: In(Get(s'.t, y), d, x) <==> In(Get(s.t, y), d, x);
  }

  /** Offering a bio to the scheduler: if it is merged, at the back or at the front and with or
      without joining two requests, exactly its sectors are added to those queued in its
      direction; if it is not, the queued sectors are what they were. */
  lemma {:induction false} MergeAddsTheBiosSectors(c: Config, s: Sched, bio: Bio, d: Dir, x: nat)
    requires Inv(s)
    ensures Covers(MergeBio(c, s, bio), d, x) <==> Covers(s, d, x) || (Merged(c, s, bio) && InBio(bio, d, x))
  {
    MergeTarget(c, s, bio);
    LookKeepsInv(c, s, bio);
    SameCover(s, AfterLook(c, s, bio), d, x);
    MergeIsAllowed(c, s, bio);
    MergeIntoAddsSectors(c, AfterLook(c, s, bio), ElvMerge(c, s, bio), bio, d, x);
  }

  lemma {:induction false} MergeIntoAddsSectors(c: Config, s: Sched, m: MergeType, bio: Bio, d: Dir, x: nat)
    requires Inv(s) && TargetOk(s, bio, m) && (!m.NoMerge? ==> BioMergeOk(s.t, m.target, bio))
    ensures (Covers(MergeInto(c, s, m, bio), d, x)
             <==> Covers(s, d, x) || (!m.NoMerge? && Fits(c, Get(s.t, m.target), bio) && InBio(bio, d, x)))
  {
    match m
    case NoMerge =>
    case BackMerge(r) =>
      if Fits(c, Get(s.t, r), bio) { BackMergeAddsSectors(c, s, r, bio, d, x); } else { SetNoMergeKeepsSectors(s, r, d, x); }
    case FrontMerge(r) =>
      if Fits(c, Get(s.t, r), bio) { FrontMergeAddsSectors(c, s, r, bio, d, x); } else { SetNoMergeKeepsSectors(s, r, d, x); }
  }

  lemma {:induction false} MergeIsAllowed(c: Config, s: Sched, bio: Bio)
    ensures var m := ElvMerge(c, s, bio); !m.NoMerge? ==> BioMergeOk(s.t, m.target, bio)
  {}
}
