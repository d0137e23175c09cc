/** struct blk_flush_queue and the functions that run under its lock, as they update it in
    place.  Each is proved to take the step that FlushModel defines. */
module FlushQueue {
  import FM = FlushModel
  import opened Sequences
  import opened FlushModel
  import FlushProofs

  class BlkFlushQueue {
    var queue0: seq<Rid>
    var queue1: seq<Rid>
    var dataInFlight: seq<Rid>
    var pendingIdx: bool
    var runningIdx: bool
    var pendingSince: nat
    var reqs: map<Rid, Request>
    var ref: nat
    var rqStatus: Status
    var tagOf: Rid
    ghost var bug: bool
    ghost var h: History

    ghost function Ls(): Lists
      reads this`queue0, this`queue1, this`dataInFlight
    {
      Lists(queue0, queue1, dataInFlight)
    }

    ghost function Snap(): State
      reads this
    {
      State(Ls(), pendingIdx, runningIdx, pendingSince, reqs,
            FlushRq(ref, rqStatus, tagOf), bug, h)
    }

    function Queue(i: bool): seq<Rid>
      reads this
    {
      if i then queue1 else queue0
    }

    constructor ()
      ensures Snap() == Initial()
    {
      queue0, queue1, dataInFlight := [], [], [];
      pendingIdx, runningIdx, pendingSince := false, false, 0;
      reqs, ref, rqStatus, tagOf := map[], 0, STS_OK, 0;
      bug, h := false, Initial().h;
    }

    /** list_move_tail(&rq->flush.list, pending) */
    method QueueForFlush(r: Rid, now: nat)
      modifies this`queue0, this`queue1, this`dataInFlight, this`pendingSince
      ensures Ls() == MoveTo(old(Ls()), PREFLUSH, pendingIdx, r)
      ensures Ls() == MoveTo(old(Ls()), POSTFLUSH, pendingIdx, r)
      ensures pendingSince == if old(Queue(pendingIdx)) == [] then now else old(pendingSince)
    {
      if Queue(pendingIdx) == [] { pendingSince := now; }
      MoveToPending(Ls(), pendingIdx, r);
      queue0, queue1, dataInFlight := Remove(queue0, r), Remove(queue1, r), Remove(dataInFlight, r);
      if pendingIdx { queue1 := queue1 + [r]; } else { queue0 := queue0 + [r]; }
    }

    /** list_move_tail(&rq->flush.list, &fq->flush_data_in_flight) and blk_flush_queue_rq */
    method QueueData(r: Rid, fua: bool)
      modifies this`queue0, this`queue1, this`dataInFlight, this`h
      ensures Ls() == MoveTo(old(Ls()), DATA, pendingIdx, r)
      ensures h == old(h).(log := old(h).log + [DataIssued(r, fua)])
    {
      queue0, queue1, dataInFlight := Remove(queue0, r), Remove(queue1, r), Remove(dataInFlight, r) + [r];
      h := h.(log := h.log + [DataIssued(r, fua)]);
      assert Ls() == MoveTo(old(Ls()), DATA, pendingIdx, r);
    }

    /** list_del_init(&rq->flush.list) */
    method Unlink(r: Rid)
      modifies this`queue0, this`queue1, this`dataInFlight
      ensures Ls() == MoveTo(old(Ls()), DONE, pendingIdx, r)
    {
      queue0, queue1, dataInFlight := Remove(queue0, r), Remove(queue1, r), Remove(dataInFlight, r);
      assert Ls() == MoveTo(old(Ls()), DONE, pendingIdx, r);
    }

    /** blk_kick_flush */
    method KickFlush(now: nat)
      modifies this
      ensures Snap() == Kick(old(Snap()), now)
    {
      var pending := Queue(pendingIdx);
      if pendingIdx != runningIdx || pending == [] { return; }
      if dataInFlight != [] && now < pendingSince + FLUSH_PENDING_TIMEOUT { return; }
      pendingIdx := !pendingIdx;
      tagOf := pending[0];
      ref := 1;
      h := IssueFlush(h);
    }

    /** blk_flush_restore_request followed by blk_mq_end_request */
    method EndRequest(r: Rid, error: Status)
      requires r in reqs
      modifies this`reqs, this`bug, this`h
      ensures reqs == old(reqs)[r := Ended(Restore(old(reqs)[r]), error)]
      ensures bug == (old(bug) || reqs[r].bioHead)
      ensures h == old(h).(log := old(h).log + EndEvents(r, Restore(old(reqs)[r]), error))
    {
      ghost var log := h.log;
      // blk_flush_restore_request
      var rq := reqs[r];
      rq := rq.(bioHead := rq.hasBio, sequenced := false);
      ghost var rq0 := rq;
      // blk_update_request for all that is left, with its one bio
      if rq.bioHead {
        var bytes := if rq.biSize < rq.dataLen then rq.biSize else rq.dataLen;
        if bytes == rq.biSize { rq := rq.(bioHead := false); }
        // req_bio_endio
        if error != STS_OK { rq := rq.(biStatus := error); }
        rq := rq.(biSize := rq.biSize - bytes);
        if rq.biSize == 0 { h := h.(log := h.log + [BioEnded(r, rq.biStatus)]); }
        rq := rq.(dataLen := if rq.bioHead then rq.dataLen - bytes else 0);
      }
      assert rq == Ended(rq0, error);
      reqs := reqs[r := rq];
      bug := bug || rq.bioHead;
      h := h.(log := h.log + [RequestEnded(r, error)]);
      assert h.log == log + EndEvents(r, rq0, error);
    }

    /** The switch of blk_flush_complete_seq, once the finished part is marked in the request */
    method EnterStage(stage: Stage, r: Rid, rq: Request, error: Status, now: nat)
      modifies this`queue0, this`queue1, this`dataInFlight, this`pendingSince, this`reqs, this`bug, this`h
      ensures Ls() == MoveTo(old(Ls()), stage, pendingIdx, r)
      ensures pendingSince == if stage in {PREFLUSH, POSTFLUSH} && old(Queue(pendingIdx)) == [] then now else old(pendingSince)
      ensures reqs == old(reqs)[r := Enter(stage, rq, error)]
      ensures bug == (old(bug) || (stage == DONE && reqs[r].bioHead))
      ensures h == old(h).(log := old(h).log + EntryEvents(stage, r, rq, error))
    {
      reqs := reqs[r := rq];
      match stage {
        case PREFLUSH => QueueForFlush(r, now); assert h.log + [] == h.log;
        case POSTFLUSH => QueueForFlush(r, now); assert h.log + [] == h.log;
        case DATA => QueueData(r, rq.fuaFlag);
        case DONE => Unlink(r); EndRequest(r, error); UpdateTwice(old(reqs), r, rq, reqs[r]);
      }
    }

    /** blk_flush_complete_seq */
    method FlushCompleteSeq(r: Rid, mask: Mask, error: Status, now: nat)
      requires r in reqs
      modifies this
      ensures Snap() == CompleteSeq(old(Snap()), r, mask, error, now)
    {
      RecordStage(r, mask, error, now);
      KickFlush(now);
    }

    /** Its body up to blk_kick_flush. */
    method RecordStage(r: Rid, mask: Mask, error: Status, now: nat)
      requires r in reqs
      modifies this`queue0, this`queue1, this`dataInFlight, this`pendingSince, this`reqs, this`bug, this`h
      ensures Snap() == Advance(old(Snap()), r, mask, error, now)
    {
      ghost var s0 := Snap();
      bug := bug || Overlap(reqs[r].fseq, mask);
      var rq := reqs[r].(fseq := Or(reqs[r].fseq, mask));
      var stage := if error == STS_OK then CurSeq(rq.fseq) else DONE;
      EnterStage(stage, r, rq, error, now);
      ComponentsAdvance(s0, Snap(), r, mask, error, now, rq, stage);
    }

    /** flush_end_io */
    method FlushEndIo(error: Status, now: nat)
      requires ref > 0 && forall x | x in Queue(runningIdx) :: x in reqs
      modifies this
      ensures Snap() == FM.FlushEndIo(old(Snap()), error, now)
    {
      ghost var s0 := Snap();
      if ref > 1 {
        ref, rqStatus := ref - 1, error;
        return;
      }
      var status := if rqStatus != STS_OK then rqStatus else error;
      var w := runningIdx;
      ref, rqStatus := 0, STS_OK;
      bug := bug || pendingIdx == runningIdx;
      runningIdx := !runningIdx;
      h := h.(log := h.log + [FlushRetired(h.fl.number, status)]);
      assert Snap() == Retire(s0, error);
      WalkRunning(w, status, now);
    }

    /** The body of the walk in flush_end_io */
    method VisitFirst(w: bool, error: Status, now: nat)
      requires Queue(w) != [] && Queue(w)[0] in reqs
      modifies this
      ensures Snap() == Visit(old(Snap()), w, error, now)
    {
      var r := Queue(w)[0];
      var stage := CurSeq(reqs[r].fseq);
      bug := bug || stage == DATA || stage == DONE;
      FlushCompleteSeq(r, Bit(stage), error, now);
    }

    /** list_for_each_entry_safe over the requests that waited for the flush */
    method WalkRunning(w: bool, error: Status, now: nat)
      requires forall x | x in Queue(w) :: x in reqs
      modifies this
      ensures Snap() == Walk(old(Snap()), w, error, now)
    {
      var more := Queue(w) != [];
      while more
        invariant more ==> Queue(w) != [] && forall x | x in Queue(w) :: x in reqs
        invariant Walk(old(Snap()), w, error, now) == if more then Walk(Snap(), w, error, now) else Snap()
        decreases more, Work(reqs, Queue(w))
      {
        ghost var s := Snap();
        var next := |Queue(w)| > 1;
        VisitFirst(w, error, now);
        VisitMakesProgress(s, w, error, now);
        VisitKeepsListed(s, w, error, now);
        more := next;
      }
    }

    /** mq_flush_data_end_io */
    method DataEndIo(r: Rid, error: Status, now: nat)
      requires r in reqs
      modifies this
      ensures Snap() == FM.DataEndIo(old(Snap()), r, error, now)
    {
      h := h.(dataEndedAt := h.dataEndedAt[r := |h.log|], log := h.log + [DataEnded(r, error)]);
      FlushCompleteSeq(r, Bit(DATA), error, now);
    }

    /** blk_insert_flush */
    method InsertFlush(r: Rid, c: Command, caps: Caps, now: nat)
      requires r !in reqs
      modifies this
      ensures Snap() == FM.InsertFlush(old(Snap()), r, c, caps, now)
    {
      var rq := NewRequest(c, caps);
      var policy := rq.policy;
      h := h.(insertedAt := h.insertedAt[r := |h.log|], log := h.log + [Inserted(r, c, caps)]);
      if policy == NONE {
        reqs := reqs[r := UpdateRequest(rq, STS_OK, rq.dataLen)];
        bug := bug || reqs[r].bioHead;
        h := h.(log := h.log + EndEvents(r, rq, STS_OK));
      } else if policy.data && !policy.pre && !policy.post {
        reqs := reqs[r := rq];
        h := h.(log := h.log + [DataIssued(r, rq.fuaFlag)]);
      } else {
        reqs := reqs[r := rq.(sequenced := true)];
        FlushCompleteSeq(r, Complement(policy), STS_OK, now);
      }
    }
  }

  lemma {:induction false} MoveToPending(ls: Lists, pending: bool, r: Rid)
    ensures MoveTo(ls, PREFLUSH, pending, r) == MoveTo(ls, POSTFLUSH, pending, r)
    ensures (MoveTo(ls, PREFLUSH, pending, r)
             == (if pending then Lists(Remove(ls.q0, r), Remove(ls.q1, r) + [r], Remove(ls.data, r))
                 else Lists(Remove(ls.q0, r) + [r], Remove(ls.q1, r), Remove(ls.data, r))))
  {
    assert forall l: seq<Rid> :: l + [] == l;
  }

  lemma {:induction false} UpdateTwice(reqs: map<Rid, Request>, r: Rid, a: Request, b: Request)
    ensures reqs[r := a][r := b] == reqs[r := b] && reqs[r := a][r] == a
  {}

  lemma {:induction false} ComponentsAdvance(s0: State, s1: State, r: Rid, mask: Mask, error: Status, now: nat,
                                             rq: Request, stage: Stage)
    requires r in s0.reqs && rq == s0.reqs[r].(fseq := Or(s0.reqs[r].fseq, mask)) && stage == NextStage(s0.reqs[r], mask, error)
    requires s1.ls == MoveTo(s0.ls, stage, s0.pendingIdx, r)
    requires s1.pendingIdx == s0.pendingIdx && s1.runningIdx == s0.runningIdx && s1.frq == s0.frq
    requires s1.pendingSince == if stage in {PREFLUSH, POSTFLUSH} && s0.Pending() == [] then now else s0.pendingSince
    requires s1.reqs == s0.reqs[r := Enter(stage, rq, error)]
    requires s1.bug == (s0.bug || Overlap(s0.reqs[r].fseq, mask) || (stage == DONE && Enter(stage, rq, error).bioHead))
    requires s1.h == s0.h.(log := s0.h.log + EntryEvents(stage, r, rq, error))
    ensures s1 == Advance(s0, r, mask, error, now)
  {}

  /** After a visit the walked list still holds known requests, and is not empty if it had
      more than one. */
  lemma {:induction false} VisitKeepsListed(s: State, w: bool, error: Status, now: nat)
    requires s.ls.Queue(w) != [] && forall x | x in s.ls.Queue(w) :: x in s.reqs
    ensures var s' := Visit(s, w, error, now);
            && (forall x | x in s'.ls.Queue(w) :: x in s'.reqs)
            && (|s.ls.Queue(w)| > 1 ==> s'.ls.Queue(w) != [])
  {
    var r := s.ls.Queue(w)[0];
    var stage := CurSeq(s.reqs[r].fseq);
    var s1 := s.(bug := s.bug || stage in {DATA, DONE});
    FlushProofs.CompleteParts(s1, r, Bit(stage), error, now);
    FlushProofs.MoveStaysInQueue(s.ls, NextStage(s.reqs[r], Bit(stage), error), s.pendingIdx, w);
    assert Remove(s.ls.Queue(w), r) == s.ls.Queue(w)[1..];
  }
}
