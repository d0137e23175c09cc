/** What the sequencer promises to a submitter, over every run of the machine. */
module FlushTheorems {
  import opened Sequences
  import opened FlushModel
  import opened FlushStructure
  import opened FlushProofs

  /** The bio of a request reports success at position `k` only if the request was inserted
      before, and: a preflush (on a device with a write cache) was served by a flush issued
      after the insertion; DATA, if the request is sequenced and has any, had ended without
      error; and FUA on a device without FUA was served by a flush issued after DATA ended.
      Each of those flushes was issued, completed by the driver and retired without error,
      all before `k`, and the driver reported success unless its error was erased. */
  lemma {:induction false} Durability(steps: seq<Step>, k: nat, r: Rid)
    requires k < |Run(steps).h.log| && Run(steps).h.log[k] == BioEnded(r, STS_OK)
    ensures var log := Run(steps).h.log;
            exists i :: InsertedAt(log, r, i, k)
              && (var c, caps := log[i].c, log[i].caps;
                  && (caps.wc && c.preflush ==> Served(log, i, k))
                  && (caps.wc && c.fua && !caps.fua && c.bytes < 512 ==> Served(log, i, k))
                  && (caps.wc && (c.preflush || (c.fua && !caps.fua)) && c.bytes >= 512 ==>
                        exists d :: DataDone(log, r, i, d, k) && (c.fua && !caps.fua ==> Served(log, d, k))))
  {
    RunKeepsInv(steps);
    var log := Run(steps).h.log;
    assert EventOk(log, k);
    var i :| InsertedAt(log, r, i, k) && Durable(log, r, Policy(log[i].caps, log[i].c), i, k);
  }

  /** DATA is handed to the driver only after the preflush was served, and carries FUA
      exactly when the submitter asked for it and the device has it. */
  lemma {:induction false} DataFollowsPreflush(steps: seq<Step>, k: nat, r: Rid, fua: bool)
    requires k < |Run(steps).h.log| && Run(steps).h.log[k] == DataIssued(r, fua)
    ensures var log := Run(steps).h.log;
            exists i :: InsertedAt(log, r, i, k) && fua == (log[i].c.fua && log[i].caps.fua)
              && (log[i].caps.wc && log[i].c.preflush ==> Served(log, i, k))
  {
    RunKeepsInv(steps);
    var log := Run(steps).h.log;
    assert EventOk(log, k);
    var i :| InsertedAt(log, r, i, k) && fua == (log[i].c.fua && log[i].caps.fua)
             && (Policy(log[i].caps, log[i].c).pre ==> Served(log, i, k));
  }

  /** The status with which the waiting requests are pushed on is the status the driver
      reported, if and only if that status is success or at most one further reference to the
      flush request was dropped between the driver's completion and the retirement. */
  lemma {:induction false} FlushErrorReachesWaiters(steps: seq<Step>, k: nat, n: nat, error: Status)
    requires k < |Run(steps).h.log| && Run(steps).h.log[k] == FlushRetired(n, error)
    ensures var log := Run(steps).h.log;
            exists b :: 0 <= b < k && log[b].FlushCompleted? && log[b].n == n
              && (error == log[b].error <==> log[b].error == STS_OK || Puts(log, n, b, k) <= 1)
  {
    RunKeepsInv(steps);
    var log := Run(steps).h.log;
    assert EventOk(log, k);
    var b :| RetiredStatus(log, n, error, b, k);
  }

  /** Where every request is, in every reachable state: a sequenced request is on exactly one
      list, and only sequenced requests are on a list.  No BUG_ON of the sequencer fires. */
  lemma {:induction false} OneListEach(steps: seq<Step>, x: Rid)
    ensures var s := Run(steps);
            && !s.bug
            && Distinct(s.ls.q0) && Distinct(s.ls.q1) && Distinct(s.ls.data)
            && !(x in s.ls.q0 && x in s.ls.q1) && !(x in s.ls.q0 && x in s.ls.data) && !(x in s.ls.q1 && x in s.ls.data)
            && (x in s.ls.q0 || x in s.ls.q1 || x in s.ls.data <==> x in s.reqs && s.reqs[x].sequenced)
            && (x in s.ls.q0 || x in s.ls.q1 ==> CurSeq(s.reqs[x].fseq) in {PREFLUSH, POSTFLUSH})
            && (x in s.ls.data ==> CurSeq(s.reqs[x].fseq) == DATA)
  {
    RunKeepsInv(steps);
    var s := Run(steps);
    if x in s.reqs { assert PlaceOk(s.reqs[x], At(s.ls, x)); }
  }

  /** At most one flush is in flight and nothing waits for nothing: a non-empty pending queue
      implies a flush in flight or a DATA step in flight.  The flush in flight owns a
      non-empty queue whose first request lends it its tag. */
  lemma {:induction false} NoStall(steps: seq<Step>)
    ensures var s := Run(steps);
            && (s.InFlight() <==> s.frq.ref > 0)
            && (s.InFlight() ==> s.Running() != [] && s.frq.tagOf == s.Running()[0])
            && (!s.InFlight() ==> s.ls.Queue(!s.runningIdx) == [])
            && (s.Pending() != [] ==> s.InFlight() || s.ls.data != [])
  {
    RunKeepsInv(steps);
  }

  /** However DATA is split into partial completions and whichever step fails: the bio of a
      request is never ended twice, is not ended while the request is sequenced, and has been
      ended exactly once when the request has been. */
  lemma {:induction false} BioEndsOnce(steps: seq<Step>, r: Rid)
    ensures var s := Run(steps);
            && BioEnds(s.h.log, r) <= 1 && RequestEnds(s.h.log, r) <= 1
            && (r in s.reqs && s.reqs[r].sequenced ==> BioEnds(s.h.log, r) == 0 && RequestEnds(s.h.log, r) == 0)
            && (r in s.reqs && !s.reqs[r].sequenced && !Bypasses(s.reqs[r].policy) ==>
                  RequestEnds(s.h.log, r) == 1 && BioEnds(s.h.log, r) == if s.reqs[r].hasBio then 1 else 0)
  {
    RunKeepsInv(steps);
  }

  // ===== something that is not promised

  const WC := Caps(true, false)
  const EMPTY_FLUSH := Command(0, true, true, false)

  lemma {:induction false} RunSnoc(steps: seq<Step>, step: Step)
    ensures Run(steps + [step]) == Apply(Run(steps), step)
  {
    assert (steps + [step])[..|steps|] == steps;
  }

  /** Request 0, an empty flush, waits for flush 1. */
  function Waiting(ref: nat, status: Status, log: seq<Event>, fl: FlushLog): State {
    State(Lists([0], [], []), true, false, 0,
          map[0 := NewRequest(EMPTY_FLUSH, WC).(sequenced := true, fseq := Mask(false, true, true))],
          FlushRq(ref, status, 0), false, History(log, map[0 := 0], map[], fl))
  }

  lemma {:induction false} FirstFlush() returns (steps: seq<Step>)
    ensures Run(steps) == Waiting(1, 0, [Inserted(0, EMPTY_FLUSH, WC), FlushIssued(1)], FlushLog(1, 1, 0, false, 0, 0))
  {
    var s1 := Arrive(Initial(), 0, NewRequest(EMPTY_FLUSH, WC).(sequenced := true), EMPTY_FLUSH, WC);
    var s2 := Advance(s1, 0, Mask(false, true, true), STS_OK, 0);
    steps := [Insert(0, EMPTY_FLUSH, WC, 0)];
    RunSnoc([], steps[0]);
    assert [] + [steps[0]] == steps;
    assert s2.ls == Lists([0], [], []);
    assert Apply(Initial(), steps[0]) == Kick(s2, 0);
    assert s2.h.log == [Inserted(0, EMPTY_FLUSH, WC)];
  }

  lemma {:induction false} TwoHolders(steps0: seq<Step>, log: seq<Event>, fl: FlushLog) returns (steps: seq<Step>)
    requires Run(steps0) == Waiting(1, 0, log, fl)
    ensures Run(steps) == Waiting(3, 0, log, fl)
  {
    RunSnoc(steps0, GetRef);
    RunSnoc(steps0 + [GetRef], GetRef);
    steps := steps0 + [GetRef] + [GetRef];
  }

  lemma {:induction false} DriverFails(steps0: seq<Step>, log: seq<Event>) returns (steps: seq<Step>)
    requires |log| == 2 && Run(steps0) == Waiting(3, 0, log, FlushLog(1, 1, 0, false, 0, 0))
    ensures Run(steps) == Waiting(1, 0, log + [FlushCompleted(1, 5), FlushPut(1)], FlushLog(1, 1, 2, true, 5, 1))
  {
    RunSnoc(steps0, FlushDone(5, 0));
    RunSnoc(steps0 + [FlushDone(5, 0)], PutRef(0));
    assert Run(steps0 + [FlushDone(5, 0)]) == Waiting(2, 5, log + [FlushCompleted(1, 5)], FlushLog(1, 1, 2, true, 5, 0));
    assert log + [FlushCompleted(1, 5)] + [FlushPut(1)] == log + [FlushCompleted(1, 5), FlushPut(1)];
    steps := steps0 + [FlushDone(5, 0)] + [PutRef(0)];
  }

  lemma {:induction false} WalkOfOne(s: State, w: bool, r: Rid, error: Status, now: nat)
    requires s.ls.Queue(w) == [r] && CurSeq(Lookup(s.reqs, r).fseq) == PREFLUSH
    ensures Walk(s, w, error, now) == CompleteSeq(s, r, Bit(PREFLUSH), error, now)
  {}

  lemma {:induction false} CompleteLog(s: State, r: Rid, mask: Mask, error: Status, now: nat)
    ensures var rq := Lookup(s.reqs, r);
            s.h.log + EntryEvents(NextStage(rq, mask, error), r, rq.(fseq := Or(rq.fseq, mask)), error)
              <= CompleteSeq(s, r, mask, error, now).h.log
  {}

  /** Retiring a flush without error ends the empty flush request that waits for it. */
  lemma {:induction false} EmptyFlushEnds(s: State, rq: Request)
    requires s.ls.Queue(false) == [0] && Lookup(s.reqs, 0) == rq
    requires rq.fseq == Mask(false, true, true) && rq.hasBio && rq.biSize == rq.dataLen == 0 && rq.biStatus == STS_OK
    ensures s.h.log + [BioEnded(0, STS_OK), RequestEnded(0, STS_OK)] <= Walk(s, false, STS_OK, 0).h.log
  {
    WalkOfOne(s, false, 0, STS_OK, 0);
    CompleteLog(s, 0, Bit(PREFLUSH), STS_OK, 0);
    assert EntryEvents(DONE, 0, rq.(fseq := Mask(true, true, true)), STS_OK) == [BioEnded(0, STS_OK), RequestEnded(0, STS_OK)];
  }

  lemma {:induction false} LastPutEnds(s0: State, rq: Request)
    requires s0.frq.ref == 1 && s0.frq.status == STS_OK && s0.h.fl.driverDone && !s0.runningIdx
    requires s0.ls.Queue(false) == [0] && Lookup(s0.reqs, 0) == rq
    requires rq.fseq == Mask(false, true, true) && rq.hasBio && rq.biSize == rq.dataLen == 0 && rq.biStatus == STS_OK
    ensures var n := s0.h.fl.number;
            s0.h.log + [FlushPut(n), FlushRetired(n, STS_OK)] + [BioEnded(0, STS_OK), RequestEnded(0, STS_OK)]
              <= Apply(s0, PutRef(0)).h.log
  {
    var s := Retire(NotePut(s0), STS_OK);
    var n := s0.h.fl.number;
    EmptyFlushEnds(s, rq);
    assert s.h.log == s0.h.log + [FlushPut(n), FlushRetired(n, STS_OK)];
  }

  lemma {:induction false} LastPutRun(steps0: seq<Step>, s0: State, rq: Request) returns (steps: seq<Step>)
    requires Run(steps0) == s0
    requires s0.frq.ref == 1 && s0.frq.status == STS_OK && s0.h.fl.driverDone && !s0.runningIdx
    requires s0.ls.Queue(false) == [0] && Lookup(s0.reqs, 0) == rq
    requires rq.fseq == Mask(false, true, true) && rq.hasBio && rq.biSize == rq.dataLen == 0 && rq.biStatus == STS_OK
    ensures var log := Run(steps).h.log;
            s0.h.log + [FlushPut(s0.h.fl.number), FlushRetired(s0.h.fl.number, STS_OK), BioEnded(0, STS_OK)] <= log
  {
    LastPutEnds(s0, rq);
    RunSnoc(steps0, PutRef(0));
    steps := steps0 + [PutRef(0)];
  }

  /** A failed flush reported as a success: the driver fails the only flush while two others hold
      references to the flush request, the first of them to let go erases the status, and the
      request that waited for that flush ends without error. */
  lemma {:induction false} FlushErrorCanBeLost() returns (steps: seq<Step>)
    ensures [Inserted(0, EMPTY_FLUSH, WC), FlushIssued(1), FlushCompleted(1, 5), FlushPut(1), FlushPut(1),
             FlushRetired(1, STS_OK), BioEnded(0, STS_OK)] <= Run(steps).h.log
  {
    var log := [Inserted(0, EMPTY_FLUSH, WC), FlushIssued(1)];
    var steps1 := FirstFlush();
    var steps2 := TwoHolders(steps1, log, FlushLog(1, 1, 0, false, 0, 0));
    var steps3 := DriverFails(steps2, log);
    var s0 := Waiting(1, 0, log + [FlushCompleted(1, 5), FlushPut(1)], FlushLog(1, 1, 2, true, 5, 1));
    steps := LastPutRun(steps3, s0, s0.reqs[0]);
    assert s0.h.log + [FlushPut(1), FlushRetired(1, STS_OK), BioEnded(0, STS_OK)]
        == [Inserted(0, EMPTY_FLUSH, WC), FlushIssued(1), FlushCompleted(1, 5), FlushPut(1), FlushPut(1),
            FlushRetired(1, STS_OK), BioEnded(0, STS_OK)];
  }
}
