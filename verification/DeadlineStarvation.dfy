/** Bounded write starvation. */
module DeadlineStarvation {
  import opened Sequences
  import opened DeadlineModel
  import opened DeadlineLists
  import opened DeadlineProofs

  /** The step dispatches a request of direction `d` from the scheduler's lists. */
  ghost predicate Dispatches(c: Config, s: Sched, step: Step, d: Dir) {
    step.Take? && s.dispatch == [] && Choose(c, s, step.now).Chosen? && Choose(c, s, step.now).dir == d
  }

  /** All along `steps` some write waits in fifo_list[WRITE] and none is dispatched from the lists. */
  ghost predicate WriteWaits(c: Config, s: Sched, steps: seq<Step>)
    decreases |steps|
  {
    steps == [] || (s.write.fifo != [] && !Dispatches(c, s, steps[0], WRITE) && WriteWaits(c, Apply(c, s, steps[0]), steps[1..]))
  }

  ghost function ReadsDispatched(c: Config, s: Sched, steps: seq<Step>): nat
    decreases |steps|
  {
    if steps == [] then 0
    else (if Dispatches(c, s, steps[0], READ) then 1 else 0) + ReadsDispatched(c, Apply(c, s, steps[0]), steps[1..])
  }

  /** Reads that may still go first: the rest of a read batch, and whole batches until
      writes_starved is reached. */
  ghost function Patience(c: Config, s: Sched): nat {
    (if s.read.next.Just? && s.batching < c.fifoBatch then c.fifoBatch - s.batching else 0)
    + (if s.starved < c.writesStarved then (c.writesStarved - s.starved) * c.fifoBatch else 0)
  }

  /** Nothing but a dispatch starts a batch or counts. */
  ghost predicate NoNewBatch(s: Sched, s': Sched) {
    && (s'.read.next.Just? ==> s.read.next.Just?)
    && s'.batching == s.batching && s'.starved == s.starved
  }

  lemma {:induction false} AbsorbStartsNoBatch(s: Sched, req: Rid, next: Rid)
    ensures NoNewBatch(s, Absorb(s, req, next))
  {}

  lemma {:induction false} MergeDownStartsNoBatch(c: Config, s: Sched, r: Rid)
    ensures NoNewBatch(s, MergeDown(c, s, r))
    decreases Get(s.t, r).pos
  {
    var f := HashFind(c, s.t, s.ix.hash, s.ix.key, Get(s.t, r).pos);
    var s1 := Purge(s, f.hash);
    if f.rq.Just? && CanAbsorb(c, s.t, f.rq.rq, r) {
      AbsorbStartsNoBatch(s1, f.rq.rq, r);
      MergeDownStartsNoBatch(c, Absorb(s1, f.rq.rq, r), f.rq.rq);
    }
  }

  lemma {:induction false} InsertStartsNoBatch(c: Config, s: Sched, r: Rid, atHead: bool, passthrough: bool, now: nat)
    ensures NoNewBatch(s, InsertRequest(c, s, r, atHead, passthrough, now))
  {
    var target := InsertTarget(c, s, r);
    var s1 := AfterSearch(c, s, r);
    assert NoNewBatch(s, s1);
    if target.Just? {
      AbsorbStartsNoBatch(s1, target.rq, r);
      MergeDownStartsNoBatch(c, Absorb(s1, target.rq, r), target.rq);
    }
  }

  lemma {:induction false} BackStartsNoBatch(c: Config, s: Sched, r: Rid, bio: Bio)
    ensures NoNewBatch(s, BackMergeBio(c, s, r, bio))
  {
    var rq := Grown(Get(s.t, r), bio, Get(s.t, r).pos);
    var s1 := s.(t := s.t[r := rq]);
    var next := Latter(s.At(rq.dir).sort, r);
    if next.Just? { AbsorbStartsNoBatch(s1, r, next.rq); }
  }

  lemma {:induction false} FrontStartsNoBatch(c: Config, s: Sched, r: Rid, bio: Bio)
    ensures NoNewBatch(s, FrontMergeBio(c, s, r, bio))
  {
    var rq := Grown(Get(s.t, r), bio, bio.pos);
    var s1 := s.(t := s.t[r := rq]);
    var prev := Former(s.At(rq.dir).sort, r);
    if prev.Just? { AbsorbStartsNoBatch(s1, prev.rq, r); }
  }

  lemma {:induction false} MergeStartsNoBatch(c: Config, s: Sched, bio: Bio)
    ensures NoNewBatch(s, MergeBio(c, s, bio))
  {
    var s1 := if Searches(c, s, bio) then Purge(s, HashFind(c, s.t, s.ix.hash, s.ix.key, bio.pos).hash) else s;
    assert NoNewBatch(s, s1);
    match ElvMerge(c, s, bio)
    case NoMerge =>
    case BackMerge(r) => BackStartsNoBatch(c, s1, r, bio);
    case FrontMerge(r) => FrontStartsNoBatch(c, s1, r, bio);
  }

  lemma {:induction false} ProductStep(a: nat, b: nat)
    requires a >= 1
    ensures a * b == (a - 1) * b + b
  {}

  /** A read dispatched from the lists while a write waits uses up patience. */
  lemma {:induction false} ReadUsesPatience(c: Config, s: Sched, now: nat)
    requires Inv(s) && c.fifoBatch >= 1 && s.write.fifo != [] && Dispatches(c, s, Take(now), READ)
    ensures Patience(c, Dispatch(c, s, now)) < Patience(c, s)
  {
    var ch := Choose(c, s, now);
    var s' := Dispatch(c, s, now);
    assert s'.batching == if ch.anew then 1 else s.batching + 1;
    assert s'.starved == ch.starved;
    if ch.anew {
      ProductStep(c.writesStarved - s.starved, c.fifoBatch);
    }
  }

  lemma {:induction false} StepKeepsPatience(c: Config, s: Sched, step: Step)
    requires Inv(s) && c.fifoBatch >= 1 && s.write.fifo != [] && !Dispatches(c, s, step, WRITE)
    ensures Patience(c, Apply(c, s, step)) + (if Dispatches(c, s, step, READ) then 1 else 0) <= Patience(c, s)
  {
    match step
    case Insert(r, rq, atHead, passthrough, now) =>
      InsertStartsNoBatch(c, s.(t := s.t[r := rq]), r, atHead, passthrough, now);
    case Merge(bio) => MergeStartsNoBatch(c, s, bio);
    case Take(now) =>
      ChoiceIsQueued(c, s, now);
      if Dispatches(c, s, step, READ) { ReadUsesPatience(c, s, now); }
      else { assert s.write.fifo[0] in s.write.sort; }
  }

  lemma {:induction false} ReadsAreBounded(c: Config, s: Sched, steps: seq<Step>)
    requires Inv(s) && c.fifoBatch >= 1 && WriteWaits(c, s, steps)
    ensures ReadsDispatched(c, s, steps) <= Patience(c, s)
    decreases |steps|
  {
    if steps != [] {
      StepKeepsPatience(c, s, steps[0]);
      StepKeepsInv(c, s, steps[0]);
      ReadsAreBounded(c, Apply(c, s, steps[0]), steps[1..]);
    }
  }

  lemma {:induction false} PatienceBound(c: Config, s: Sched)
    requires Inv(s) && c.fifoBatch >= 1
    ensures Patience(c, s) < (c.writesStarved + 1) * c.fifoBatch
  {
    var b, w := c.fifoBatch, c.writesStarved;
    ProductStep(w + 1, b);
    if s.starved < w { ProductMonotone(w - s.starved, w, b); }
  }

  lemma {:induction false} ProductMonotone(a: nat, a': nat, b: nat)
    requires a <= a'
    ensures a * b <= a' * b
  {
    assert (a' - a) * b >= 0;
    assert a' * b == a * b + (a' - a) * b;
  }

  /** For every run `before` and every continuation in which a write waits all along without one
      being dispatched from the lists, fewer than (writes_starved + 1) * fifo_batch reads are
      dispatched from the lists, whatever is inserted and merged meanwhile. */
  lemma {:induction false} WritesAreNotStarved(c: Config, before: seq<Step>, steps: seq<Step>)
    requires c.fifoBatch >= 1 && WriteWaits(c, Run(c, before), steps)
    ensures ReadsDispatched(c, Run(c, before), steps) < (c.writesStarved + 1) * c.fifoBatch
  {
    RunKeepsInv(c, before);
    ReadsAreBounded(c, Run(c, before), steps);
    PatienceBound(c, Run(c, before));
  }
}
