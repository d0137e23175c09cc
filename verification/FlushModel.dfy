/** The PREFLUSH/FUA sequencer of block/blk-flush.c as a state machine.

    Every function that the kernel runs under fq->mq_flush_lock is one step of the
    machine.  A state carries, next to the kernel's own fields, a history: the log of
    everything that was issued and completed so far, and where in it each request was
    inserted and finished its DATA step.  The history never influences a step. */
module FlushModel {
  import opened Sequences

  type Rid = nat
  type Status = nat
  const STS_OK: Status := 0
  const FLUSH_PENDING_TIMEOUT: nat := 5000

  /** A mask of REQ_FSEQ_PREFLUSH, REQ_FSEQ_DATA and REQ_FSEQ_POSTFLUSH bits. */
  datatype Mask = Mask(pre: bool, data: bool, post: bool)
  datatype Stage = PREFLUSH | DATA | POSTFLUSH | DONE

  function Or(a: Mask, b: Mask): Mask { Mask(a.pre || b.pre, a.data || b.data, a.post || b.post) }
  predicate Overlap(a: Mask, b: Mask) { (a.pre && b.pre) || (a.data && b.data) || (a.post && b.post) }
  function Complement(m: Mask): Mask { Mask(!m.pre, !m.data, !m.post) }
  function Bit(s: Stage): Mask { Mask(s == PREFLUSH, s == DATA, s == POSTFLUSH) }

  /** 1 << ffz(seq): the first step not yet recorded as finished. */
  function CurSeq(m: Mask): Stage {
    if !m.pre then PREFLUSH else if !m.data then DATA else if !m.post then POSTFLUSH else DONE
  }

  datatype Command = Command(bytes: nat, hasBio: bool, preflush: bool, fua: bool)
  datatype Caps = Caps(wc: bool, fua: bool)

  function Policy(caps: Caps, c: Command): Mask {
    Mask(caps.wc && c.preflush, c.bytes / 512 > 0, caps.wc && !caps.fua && c.fua)
  }

  /** A request with its at most one bio: `bioHead` is rq->bio != NULL, `hasBio` is
      rq->biotail != NULL, `sequenced` is RQF_FLUSH_SEQ, `fuaFlag` is REQ_FUA as the
      driver sees it. */
  datatype Request = Request(policy: Mask, fseq: Mask, sequenced: bool, fuaFlag: bool,
                             hasBio: bool, bioHead: bool, biSize: nat, biStatus: Status, dataLen: nat)

  datatype Event =
    | Inserted(r: Rid, c: Command, caps: Caps)
    | DataIssued(r: Rid, fua: bool)
    | DataEnded(r: Rid, error: Status)
    | FlushIssued(n: nat)
    | FlushCompleted(n: nat, error: Status)   // the driver finished flush n
    | FlushPut(n: nat)                        // somebody else dropped a reference to it
    | FlushRetired(n: nat, error: Status)     // the waiting requests are pushed on with this error
    | BioEnded(r: Rid, status: Status)
    | RequestEnded(r: Rid, error: Status)

  /** History of the flush requests issued so far. */
  datatype FlushLog = FlushLog(number: nat, issuedAt: nat, completedAt: nat,
                               driverDone: bool, driverStatus: Status, puts: nat)
  datatype History = History(log: seq<Event>, insertedAt: map<Rid, nat>, dataEndedAt: map<Rid, nat>, fl: FlushLog)

  /** fq->flush_queue[0..1] and fq->flush_data_in_flight */
  datatype Lists = Lists(q0: seq<Rid>, q1: seq<Rid>, data: seq<Rid>) {
    function Queue(i: bool): seq<Rid> { if i then q1 else q0 }
  }

  /** The shared flush request: its reference count, the saved status of an early
      flush_end_io, and the request whose tag it borrows. */
  datatype FlushRq = FlushRq(ref: nat, status: Status, tagOf: Rid)

  datatype State = State(ls: Lists, pendingIdx: bool, runningIdx: bool, pendingSince: nat,
                         reqs: map<Rid, Request>, frq: FlushRq, bug: bool, h: History) {
    function Pending(): seq<Rid> { ls.Queue(pendingIdx) }
    function Running(): seq<Rid> { ls.Queue(runningIdx) }
    predicate InFlight() { pendingIdx != runningIdx }
  }

  const NONE := Mask(false, false, false)
  const BLANK := Request(NONE, NONE, false, false, false, false, 0, STS_OK, 0)
  function Lookup(reqs: map<Rid, Request>, r: Rid): Request { if r in reqs then reqs[r] else BLANK }

  function Initial(): State {
    State(Lists([], [], []), false, false, 0, map[], FlushRq(0, STS_OK, 0), false,
          History([], map[], map[], FlushLog(0, 0, 0, false, STS_OK, 0)))
  }

  // ----- lists

  function Only(b: bool, r: Rid): seq<Rid> { if b then [r] else [] }

  /** Where a request goes when it enters a stage, if `pending` is the pending queue. */
  function MoveTo(ls: Lists, stage: Stage, pending: bool, r: Rid): Lists {
    var flush := stage == PREFLUSH || stage == POSTFLUSH;
    Lists(Remove(ls.q0, r) + Only(flush && !pending, r), Remove(ls.q1, r) + Only(flush && pending, r),
          Remove(ls.data, r) + Only(stage == DATA, r))
  }

  // ----- completion of bytes (block/blk-core.c) on a request with at most one bio

  function Min(a: nat, b: nat): nat { if a < b then a else b }

  /** blk_update_request: the request afterwards. */
  function UpdateRequest(rq: Request, error: Status, nbytes: nat): Request {
    if !rq.bioHead then rq
    else
      var bytes := Min(rq.biSize, nbytes);
      rq.(bioHead := bytes != rq.biSize, biSize := rq.biSize - bytes,
          biStatus := if error != STS_OK then error else rq.biStatus,
          dataLen := if bytes != rq.biSize && bytes <= rq.dataLen then rq.dataLen - bytes else 0)
  }

  /** Whether that completion ends the bio (req_bio_endio). */
  predicate EndsBio(rq: Request, nbytes: nat) { rq.bioHead && rq.biSize <= nbytes && !rq.sequenced }

  function Restore(rq: Request): Request { rq.(bioHead := rq.hasBio, sequenced := false) }

  /** blk_mq_end_request: complete every remaining byte, then the request. */
  function Ended(rq: Request, error: Status): Request { UpdateRequest(rq, error, rq.dataLen) }

  function EndEvents(r: Rid, rq: Request, error: Status): seq<Event> {
    (if EndsBio(rq, rq.dataLen) then [BioEnded(r, Ended(rq, error).biStatus)] else []) + [RequestEnded(r, error)]
  }

  // ----- blk_kick_flush

  predicate MayFlush(s: State, now: nat) {
    && !s.InFlight()
    && s.Pending() != []
    && (s.ls.data == [] || now >= s.pendingSince + FLUSH_PENDING_TIMEOUT)
  }

  function IssueFlush(h: History): History {
    History(h.log + [FlushIssued(h.fl.number + 1)], h.insertedAt, h.dataEndedAt,
            FlushLog(h.fl.number + 1, |h.log|, 0, false, STS_OK, 0))
  }

  function Kick(s: State, now: nat): State {
    if !MayFlush(s, now) then s
    else s.(pendingIdx := !s.pendingIdx, frq := FlushRq(1, s.frq.status, s.Pending()[0]), h := IssueFlush(s.h))
  }

  // ----- blk_flush_complete_seq

  function NextStage(rq: Request, mask: Mask, error: Status): Stage {
    if error == STS_OK then CurSeq(Or(rq.fseq, mask)) else DONE
  }

  function EntryEvents(stage: Stage, r: Rid, rq: Request, error: Status): seq<Event> {
    match stage
    case DATA => [DataIssued(r, rq.fuaFlag)]
    case DONE => EndEvents(r, Restore(rq), error)
    case _ => []
  }

  function Enter(stage: Stage, rq: Request, error: Status): Request {
    if stage == DONE then Ended(Restore(rq), error) else rq
  }

  /** Everything before the final blk_kick_flush. */
  function Advance(s: State, r: Rid, mask: Mask, error: Status, now: nat): State {
    var rq0 := Lookup(s.reqs, r);
    var stage := NextStage(rq0, mask, error);
    var rq := rq0.(fseq := Or(rq0.fseq, mask));
    State(MoveTo(s.ls, stage, s.pendingIdx, r), s.pendingIdx, s.runningIdx,
          if stage in {PREFLUSH, POSTFLUSH} && s.Pending() == [] then now else s.pendingSince,
          s.reqs[r := Enter(stage, rq, error)], s.frq,
          s.bug || Overlap(rq0.fseq, mask) || (stage == DONE && Enter(stage, rq, error).bioHead),
          s.h.(log := s.h.log + EntryEvents(stage, r, rq, error)))
  }

  function CompleteSeq(s: State, r: Rid, mask: Mask, error: Status, now: nat): State {
    Kick(Advance(s, r, mask, error, now), now)
  }

  // ----- flush_end_io

  function Unset(rq: Request): nat {
    (if rq.fseq.pre then 0 else 1) + (if rq.fseq.data then 0 else 1) + (if rq.fseq.post then 0 else 1)
  }

  /** What a walk over the list `l` still has to do; decreases with every visit. */
  function Work(reqs: map<Rid, Request>, l: seq<Rid>): nat {
    if l == [] then 0 else 1 + Unset(Lookup(reqs, l[0])) + Work(reqs, l[1..])
  }

  lemma {:induction l} WorkAppend(reqs: map<Rid, Request>, l: seq<Rid>, r: Rid)
    ensures Work(reqs, l + [r]) == Work(reqs, l) + 1 + Unset(Lookup(reqs, r))
  {
    if l == [] { assert l + [r] == [r]; }
    else { assert (l + [r])[1..] == l[1..] + [r]; }
  }

  lemma {:induction l} WorkMonotone(reqs: map<Rid, Request>, r: Rid, rq: Request, l: seq<Rid>)
    requires Unset(rq) <= Unset(Lookup(reqs, r))
    ensures Work(reqs[r := rq], l) <= Work(reqs, l)
  {}

  /** One visit of the walk handles the head of list `w`. */
  function Visit(s: State, w: bool, error: Status, now: nat): State
    requires s.ls.Queue(w) != []
  {
    var r := s.ls.Queue(w)[0];
    var stage := CurSeq(Lookup(s.reqs, r).fseq);
    CompleteSeq(s.(bug := s.bug || stage in {DATA, DONE}), r, Bit(stage), error, now)
  }

  lemma {:induction false} MoveShrinksWork(reqs: map<Rid, Request>, ls: Lists, w: bool, p: bool, stage: Stage, rq: Request)
    requires ls.Queue(w) != []
    requires Unset(rq) <= Unset(Lookup(reqs, ls.Queue(w)[0]))
    requires stage == DONE || Unset(rq) < Unset(Lookup(reqs, ls.Queue(w)[0]))
    ensures var r := ls.Queue(w)[0];
            Work(reqs[r := rq], MoveTo(ls, stage, p, r).Queue(w)) < Work(reqs, ls.Queue(w))
  {
    var l := ls.Queue(w);
    assert Remove(l, l[0]) == l[1..];
    WorkMonotone(reqs, l[0], rq, l[1..]);
    WorkAppend(reqs[l[0] := rq], l[1..], l[0]);
    assert l[1..] + [] == l[1..];
  }

  lemma {:induction false} BitIsSet(rq: Request, error: Status)
    ensures var mask := Bit(CurSeq(rq.fseq));
            var stage := NextStage(rq, mask, error);
            var rq1 := Enter(stage, rq.(fseq := Or(rq.fseq, mask)), error);
            Unset(rq1) <= Unset(rq) && (stage == DONE || Unset(rq1) < Unset(rq))
  {
  }

  lemma {:induction false} VisitMakesProgress(s: State, w: bool, error: Status, now: nat)
    requires s.ls.Queue(w) != []
    ensures Work(Visit(s, w, error, now).reqs, Visit(s, w, error, now).ls.Queue(w)) < Work(s.reqs, s.ls.Queue(w))
  {
    var rq := Lookup(s.reqs, s.ls.Queue(w)[0]);
    var mask := Bit(CurSeq(rq.fseq));
    var stage := NextStage(rq, mask, error);
    BitIsSet(rq, error);
    MoveShrinksWork(s.reqs, s.ls, w, s.pendingIdx, stage, Enter(stage, rq.(fseq := Or(rq.fseq, mask)), error));
  }

  /** list_for_each_entry_safe over list `w`: the next entry is looked up before the
      current one is handled, so the walk stops after handling what was the last entry,
      even if that entry was put back on the same list. */
  function Walk(s: State, w: bool, error: Status, now: nat): State
    decreases Work(s.reqs, s.ls.Queue(w))
  {
    if s.ls.Queue(w) == [] then s
    else
      VisitMakesProgress(s, w, error, now);
      var s1 := Visit(s, w, error, now);
      if |s.ls.Queue(w)| == 1 then s1 else Walk(s1, w, error, now)
  }

  function MergedStatus(frq: FlushRq, error: Status): Status {
    if frq.status != STS_OK then frq.status else error
  }

  function Retire(s: State, error: Status): State {
    s.(frq := FlushRq(0, STS_OK, s.frq.tagOf), runningIdx := !s.runningIdx, bug := s.bug || !s.InFlight(),
       h := s.h.(log := s.h.log + [FlushRetired(s.h.fl.number, MergedStatus(s.frq, error))]))
  }

  /** flush_end_io, for the driver's completion as well as for blk_mq_put_rq_ref. */
  function FlushEndIo(s: State, error: Status, now: nat): State {
    if s.frq.ref > 1 then s.(frq := FlushRq(s.frq.ref - 1, error, s.frq.tagOf))
    else Walk(Retire(s, error), s.runningIdx, MergedStatus(s.frq, error), now)
  }

  // ----- the steps of a run

  datatype Step =
    | Insert(r: Rid, c: Command, caps: Caps, now: nat)        // blk_insert_flush
    | DataBytes(r: Rid, error: Status, nbytes: nat)           // blk_update_request by the driver
    | DataEnd(r: Rid, error: Status, now: nat)                // mq_flush_data_end_io
    | GetRef                                                  // blk_mq_find_and_get_req
    | PutRef(now: nat)                                        // blk_mq_put_rq_ref
    | FlushDone(error: Status, now: nat)                      // the driver ends the flush request

  /** What the kernel around the sequencer guarantees when it takes a step. */
  predicate Enabled(s: State, step: Step) {
    match step
    case Insert(r, _, _, _) => r !in s.reqs
    case DataBytes(r, _, _) => r in s.ls.data
    case DataEnd(r, _, _) => r in s.ls.data && !Lookup(s.reqs, r).bioHead
    case GetRef => s.frq.ref > 0
    case PutRef(_) => s.frq.ref > (if s.h.fl.driverDone then 0 else 1)
    case FlushDone(_, _) => s.frq.ref > 0 && !s.h.fl.driverDone
  }

  function NewRequest(c: Command, caps: Caps): Request {
    Request(Policy(caps, c), NONE, false, c.fua && caps.fua,
            c.hasBio, c.hasBio, if c.hasBio then c.bytes else 0, STS_OK, c.bytes)
  }

  /** The request and the history on entry to blk_insert_flush. */
  function Arrive(s: State, r: Rid, rq: Request, c: Command, caps: Caps): State {
    s.(reqs := s.reqs[r := rq],
       h := s.h.(insertedAt := s.h.insertedAt[r := |s.h.log|], log := s.h.log + [Inserted(r, c, caps)]))
  }

  function InsertFlush(s: State, r: Rid, c: Command, caps: Caps, now: nat): State {
    var rq := NewRequest(c, caps);
    var p := rq.policy;
    if p == NONE then
      var s1 := Arrive(s, r, Ended(rq, STS_OK), c, caps);
      s1.(bug := s.bug || Ended(rq, STS_OK).bioHead, h := s1.h.(log := s1.h.log + EndEvents(r, rq, STS_OK)))
    else if p.data && !p.pre && !p.post then
      var s1 := Arrive(s, r, rq, c, caps);
      s1.(h := s1.h.(log := s1.h.log + [DataIssued(r, rq.fuaFlag)]))
    else
      CompleteSeq(Arrive(s, r, rq.(sequenced := true), c, caps), r, Complement(p), STS_OK, now)
  }

  function DataArrives(s: State, r: Rid, error: Status): State {
    s.(h := s.h.(dataEndedAt := s.h.dataEndedAt[r := |s.h.log|], log := s.h.log + [DataEnded(r, error)]))
  }

  function DataEndIo(s: State, r: Rid, error: Status, now: nat): State {
    CompleteSeq(DataArrives(s, r, error), r, Bit(DATA), error, now)
  }

  function DriverCompletes(s: State, error: Status): State {
    s.(h := s.h.(log := s.h.log + [FlushCompleted(s.h.fl.number, error)],
                 fl := s.h.fl.(driverDone := true, driverStatus := error, completedAt := |s.h.log|, puts := 0)))
  }

  function NotePut(s: State): State {
    s.(h := s.h.(log := s.h.log + [FlushPut(s.h.fl.number)],
                 fl := s.h.fl.(puts := if s.h.fl.driverDone then s.h.fl.puts + 1 else 0)))
  }

  function Apply(s: State, step: Step): State {
    if !Enabled(s, step) then s
    else
      match step
      case Insert(r, c, caps, now) => InsertFlush(s, r, c, caps, now)
      case DataBytes(r, error, nbytes) => s.(reqs := s.reqs[r := UpdateRequest(Lookup(s.reqs, r), error, nbytes)])
      case DataEnd(r, error, now) => DataEndIo(s, r, error, now)
      case GetRef => s.(frq := s.frq.(ref := s.frq.ref + 1))
      case PutRef(now) => FlushEndIo(NotePut(s), STS_OK, now)
      case FlushDone(error, now) => FlushEndIo(DriverCompletes(s, error), error, now)
  }

  /** The state after any list of steps; a step that is not enabled does nothing. */
  function Run(steps: seq<Step>): State {
    if steps == [] then Initial()
    else Apply(Run(steps[..|steps| - 1]), steps[|steps| - 1])
  }
}
