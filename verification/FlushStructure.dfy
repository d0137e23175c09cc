/** The lists of the sequencer: every sequenced request is on exactly one of the two
    flush queues or the data-in-flight list, at the stage that list stands for. */
module FlushStructure {
  import opened Sequences
  import opened FlushModel

  datatype Place = OnQueue(i: bool) | OnData | Off

  ghost predicate Linked(ls: Lists) {
    && Distinct(ls.q0) && Distinct(ls.q1) && Distinct(ls.data)
    && (forall x | x in ls.q0 :: x !in ls.q1 && x !in ls.data)
    && (forall x | x in ls.q1 :: x !in ls.data)
  }

  ghost function At(ls: Lists, x: Rid): Place {
    if x in ls.q0 then OnQueue(false) else if x in ls.q1 then OnQueue(true) else if x in ls.data then OnData else Off
  }

  ghost function Target(stage: Stage, pending: bool): Place {
    match stage case PREFLUSH => OnQueue(pending) case POSTFLUSH => OnQueue(pending) case DATA => OnData case DONE => Off
  }

  lemma {:induction false} MoveInList(l: seq<Rid>, r: Rid, add: bool)
    requires Distinct(l)
    ensures Distinct(Remove(l, r) + Only(add, r))
    ensures forall x :: x in Remove(l, r) + Only(add, r) <==> if x == r then add else x in l
  {
    RemoveKeeps(l, r);
    if add { AppendKeeps(Remove(l, r), r); } else { assert Remove(l, r) + [] == Remove(l, r); }
  }

  /** `ls'` is `ls` with `r` moved to place `to`. */
  ghost predicate Moved(ls: Lists, ls': Lists, r: Rid, to: Place) {
    && Distinct(ls'.q0) && Distinct(ls'.q1) && Distinct(ls'.data)
    && (forall x :: x in ls'.q0 <==> if x == r then to == OnQueue(false) else x in ls.q0)
    && (forall x :: x in ls'.q1 <==> if x == r then to == OnQueue(true) else x in ls.q1)
    && (forall x :: x in ls'.data <==> if x == r then to == OnData else x in ls.data)
  }

  lemma {:induction false} MovedKeepsLinked(ls: Lists, ls': Lists, r: Rid, to: Place)
    requires Linked(ls) && Moved(ls, ls', r, to)
    ensures Linked(ls')
    ensures forall x :: At(ls', x) == if x == r then to else At(ls, x)
  {}

  lemma {:induction false} MoveToMoves(ls: Lists, stage: Stage, pending: bool, r: Rid)
    requires Linked(ls)
    ensures Moved(ls, MoveTo(ls, stage, pending, r), r, Target(stage, pending))
  {
    var flush := stage == PREFLUSH || stage == POSTFLUSH;
    MoveInList(ls.q0, r, flush && !pending);
    MoveInList(ls.q1, r, flush && pending);
    MoveInList(ls.data, r, stage == DATA);
  }

  lemma {:induction false} MoveKeepsLinked(ls: Lists, stage: Stage, pending: bool, r: Rid)
    requires Linked(ls)
    ensures Linked(MoveTo(ls, stage, pending, r))
    ensures forall x :: At(MoveTo(ls, stage, pending, r), x) == if x == r then Target(stage, pending) else At(ls, x)
  {
    MoveToMoves(ls, stage, pending, r);
    MovedKeepsLinked(ls, MoveTo(ls, stage, pending, r), r, Target(stage, pending));
  }

  /** Bytes still to complete: the bio and the request agree on them. */
  ghost predicate BioOk(rq: Request) {
    && (rq.bioHead ==> rq.hasBio && rq.dataLen == rq.biSize)
    && (rq.hasBio && !rq.bioHead ==> rq.biSize == 0 && rq.dataLen == 0)
  }

  /** A policy that needs no flush is executed without the flush machinery. */
  ghost predicate Bypasses(p: Mask) { p.data && !p.pre && !p.post }

  ghost predicate PlaceOk(rq: Request, at: Place) {
    && BioOk(rq)
    && (rq.sequenced ==> !Bypasses(rq.policy) && !(rq.policy.post && rq.fseq.post))
    && (rq.sequenced <==> at != Off)
    && (rq.sequenced ==> !Overlap(Complement(rq.policy), Complement(rq.fseq)))
    && (at.OnQueue? ==> CurSeq(rq.fseq) in {PREFLUSH, POSTFLUSH})
    && (at.OnData? ==> CurSeq(rq.fseq) == DATA)
  }

  ghost predicate Structure(ls: Lists, reqs: map<Rid, Request>) {
    && Linked(ls)
    && (forall x :: At(ls, x) != Off ==> x in reqs)
    && (forall x | x in reqs :: PlaceOk(reqs[x], At(ls, x)))
  }

  /** `r` is about to complete `mask`; every other request is in order. */
  ghost predicate Ready(ls: Lists, reqs: map<Rid, Request>, r: Rid, mask: Mask) {
    && Linked(ls)
    && (forall x :: At(ls, x) != Off ==> x in reqs)
    && (forall x | x in reqs && x != r :: PlaceOk(reqs[x], At(ls, x)))
    && r in reqs && reqs[r].sequenced && BioOk(reqs[r]) && !Bypasses(reqs[r].policy)
    && !Overlap(reqs[r].fseq, mask)
    && !Overlap(Complement(reqs[r].policy), Complement(Or(reqs[r].fseq, mask)))
    && LastIsPost(reqs[r].policy, Or(reqs[r].fseq, mask))
  }

  /** POSTFLUSH is the last step of a sequence that has it. */
  ghost predicate LastIsPost(policy: Mask, done: Mask) { policy.post && done.post ==> CurSeq(done) == DONE }

  lemma {:induction false} StructureIsReady(ls: Lists, reqs: map<Rid, Request>, r: Rid, stage: Stage)
    requires Structure(ls, reqs) && r in reqs && At(ls, r) != Off && CurSeq(reqs[r].fseq) == stage
    ensures stage != DONE && Ready(ls, reqs, r, Bit(stage))
  {}

  lemma {:induction false} EnterKeepsBio(rq: Request, stage: Stage, error: Status)
    requires BioOk(rq)
    ensures BioOk(Enter(stage, rq, error))
    ensures stage == DONE ==> !Enter(stage, rq, error).sequenced && !Enter(stage, rq, error).bioHead
    ensures stage == DONE ==> (EndsBio(Restore(rq), Restore(rq).dataLen) <==> rq.hasBio)
  {}

  lemma {:induction false} PlacesAfterMove(ls: Lists, ls': Lists, reqs: map<Rid, Request>, r: Rid, to: Place, rq: Request)
    requires Linked(ls')
    requires forall x :: At(ls', x) == if x == r then to else At(ls, x)
    requires forall x :: At(ls, x) != Off ==> x in reqs
    requires forall x | x in reqs && x != r :: PlaceOk(reqs[x], At(ls, x))
    requires PlaceOk(rq, to)
    ensures Structure(ls', reqs[r := rq])
  {
    forall x | x in reqs[r := rq] ensures PlaceOk(reqs[r := rq][x], At(ls', x)) {
      if x != r { assert PlaceOk(reqs[x], At(ls, x)); }
    }
  }

  lemma {:induction false} EnterIsPlaced(rq: Request, mask: Mask, error: Status, pending: bool)
    requires rq.sequenced && BioOk(rq) && !Bypasses(rq.policy)
    requires !Overlap(Complement(rq.policy), Complement(Or(rq.fseq, mask)))
    requires LastIsPost(rq.policy, Or(rq.fseq, mask))
    ensures var stage := NextStage(rq, mask, error);
            PlaceOk(Enter(stage, rq.(fseq := Or(rq.fseq, mask)), error), Target(stage, pending))
  {
    EnterKeepsBio(rq.(fseq := Or(rq.fseq, mask)), NextStage(rq, mask, error), error);
  }

  lemma {:induction false} AdvanceKeepsStructure(s: State, r: Rid, mask: Mask, error: Status, now: nat)
    requires Ready(s.ls, s.reqs, r, mask)
    ensures var s' := Advance(s, r, mask, error, now);
            && Structure(s'.ls, s'.reqs)
            && s'.bug == s.bug
            && forall x :: At(s'.ls, x) == if x == r then Target(NextStage(s.reqs[r], mask, error), s.pendingIdx)
                                           else At(s.ls, x)
  {
    var stage := NextStage(s.reqs[r], mask, error);
    var rq := s.reqs[r].(fseq := Or(s.reqs[r].fseq, mask));
    MoveKeepsLinked(s.ls, stage, s.pendingIdx, r);
    EnterIsPlaced(s.reqs[r], mask, error, s.pendingIdx);
    EnterKeepsBio(rq, stage, error);
    PlacesAfterMove(s.ls, MoveTo(s.ls, stage, s.pendingIdx, r), s.reqs, r, Target(stage, s.pendingIdx), Enter(stage, rq, error));
  }

  // ===== the double buffering

  /** C1 and no stall: the indices differ exactly while a flush is in flight, its queue is
      then not empty and lends it its tag; otherwise nothing runs, and whatever waits,
      waits for a DATA step. */
  ghost predicate Buffered(s: State) {
    && (s.InFlight() <==> s.frq.ref > 0)
    && (s.InFlight() ==> s.Running() != [] && s.frq.tagOf == s.Running()[0])
    && (!s.InFlight() ==> s.ls.Queue(!s.runningIdx) == [])
    && (s.Pending() != [] ==> s.InFlight() || s.ls.data != [])
  }

  /** The same while list `w` is being walked by flush_end_io. */
  ghost predicate Walking(s: State, w: bool) {
    && s.runningIdx == !w
    && (s.InFlight() <==> s.frq.ref > 0)
    && (s.InFlight() ==> s.Running() != [] && s.frq.tagOf == s.Running()[0])
  }

  /** Moving a request leaves alone every queue it is neither on nor going to. */
  lemma {:induction false} MoveLeavesQueue(ls: Lists, stage: Stage, pending: bool, r: Rid, i: bool)
    requires r !in ls.Queue(i) && Target(stage, pending) != OnQueue(i)
    ensures MoveTo(ls, stage, pending, r).Queue(i) == ls.Queue(i)
  {
    RemoveAbsent(ls.Queue(i), r);
    assert ls.Queue(i) + [] == ls.Queue(i);
  }

  lemma {:induction false} KickKeepsBuffered(s: State, now: nat)
    requires s.InFlight() <==> s.frq.ref > 0
    requires s.InFlight() ==> s.Running() != [] && s.frq.tagOf == s.Running()[0]
    requires !s.InFlight() ==> s.ls.Queue(!s.runningIdx) == []
    ensures Buffered(Kick(s, now))
  {}

  lemma {:induction false} KickKeepsWalking(s: State, w: bool, now: nat)
    requires s.runningIdx == !w
    requires s.InFlight() <==> s.frq.ref > 0
    requires s.InFlight() ==> s.Running() != [] && s.frq.tagOf == s.Running()[0]
    ensures Walking(Kick(s, now), w)
  {}

  /** Completing a step of a request that waits for no flush: blk_insert_flush, mq_flush_data_end_io. */
  lemma {:induction false} CompleteKeepsBuffered(s: State, r: Rid, mask: Mask, error: Status, now: nat)
    requires Buffered(s) && !At(s.ls, r).OnQueue?
    ensures Buffered(CompleteSeq(s, r, mask, error, now))
  {
    var stage := NextStage(Lookup(s.reqs, r), mask, error);
    if s.InFlight() { MoveLeavesQueue(s.ls, stage, s.pendingIdx, r, s.runningIdx); }
    else { MoveLeavesQueue(s.ls, stage, s.pendingIdx, r, !s.runningIdx); }
    KickKeepsBuffered(Advance(s, r, mask, error, now), now);
  }

  lemma {:induction false} VisitIsComplete(s: State, w: bool, error: Status, now: nat)
    requires Structure(s.ls, s.reqs) && s.ls.Queue(w) != []
    ensures var r := s.ls.Queue(w)[0];
            && r in s.reqs && At(s.ls, r) == OnQueue(w)
            && Ready(s.ls, s.reqs, r, Bit(CurSeq(s.reqs[r].fseq)))
            && Visit(s, w, error, now) == Kick(Advance(s, r, Bit(CurSeq(s.reqs[r].fseq)), error, now), now)
  {
    var r := s.ls.Queue(w)[0];
    assert At(s.ls, r) == OnQueue(w);
    StructureIsReady(s.ls, s.reqs, r, CurSeq(s.reqs[r].fseq));
  }

  lemma {:induction false} MoveShrinksQueue(ls: Lists, stage: Stage, pending: bool, w: bool)
    requires ls.Queue(w) != []
    ensures var l := MoveTo(ls, stage, pending, ls.Queue(w)[0]).Queue(w);
            && (|ls.Queue(w)| > 1 ==> l != [])
            && (|ls.Queue(w)| == 1 && pending != w ==> l == [])
  {
    var l := ls.Queue(w);
    assert Remove(l, l[0]) == l[1..];
  }

  lemma {:induction false} VisitKeepsWalking(s: State, w: bool, error: Status, now: nat)
    requires Structure(s.ls, s.reqs) && Walking(s, w) && s.ls.Queue(w) != []
    ensures var s' := Visit(s, w, error, now);
            && Structure(s'.ls, s'.reqs) && Walking(s', w) && s'.bug == s.bug
            && (|s.ls.Queue(w)| == 1 ==> Buffered(s'))
            && (|s.ls.Queue(w)| > 1 ==> s'.ls.Queue(w) != [])
  {
    VisitIsComplete(s, w, error, now);
    var r := s.ls.Queue(w)[0];
    var mask := Bit(CurSeq(s.reqs[r].fseq));
    AdvanceKeepsStructure(s, r, mask, error, now);
    AdvanceKeepsWalking(s, w, r, mask, error, now, Advance(s, r, mask, error, now));
  }

  lemma {:induction false} AdvanceKeepsWalking(s: State, w: bool, r: Rid, mask: Mask, error: Status, now: nat, s1: State)
    requires Linked(s.ls) && Walking(s, w) && s.ls.Queue(w) != [] && r == s.ls.Queue(w)[0] && At(s.ls, r) == OnQueue(w)
    requires s1 == Advance(s, r, mask, error, now)
    ensures Walking(Kick(s1, now), w)
    ensures |s.ls.Queue(w)| == 1 ==> Buffered(Kick(s1, now))
    ensures |s.ls.Queue(w)| > 1 ==> Kick(s1, now).ls.Queue(w) != []
  {
    var stage := NextStage(Lookup(s.reqs, r), mask, error);
    if s.InFlight() { MoveLeavesQueue(s.ls, stage, s.pendingIdx, r, !w); }
    MoveShrinksQueue(s.ls, stage, s.pendingIdx, w);
    KickKeepsWalking(s1, w, now);
    if |s.ls.Queue(w)| == 1 { KickKeepsBuffered(s1, now); }
  }
}
