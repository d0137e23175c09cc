/** What every run of the PREFLUSH/FUA sequencer keeps, and what follows for the
    submitter of a request. */
module FlushProofs {
  import opened Sequences
  import opened FlushModel
  import opened FlushStructure

  // ===== what the log must satisfy: the specification

  /** References to flush `n` dropped strictly between positions `b` and `k`. */
  function Puts(log: seq<Event>, n: nat, b: nat, k: nat): nat
    requires k <= |log|
  {
    if k <= b + 1 then 0 else Puts(log, n, b, k - 1) + (if log[k - 1] == FlushPut(n) then 1 else 0)
  }

  /** The driver completed flush `n` without error at `b`, or the error was erased before `c`. */
  ghost predicate Succeeded(log: seq<Event>, n: nat, b: nat, c: nat) {
    b < c < |log| && log[b].FlushCompleted? && log[b].n == n && (log[b].error == STS_OK || Puts(log, n, b, c) > 1)
  }

  /** A flush was issued after position `from`, the driver completed it without error (or its
      error was erased), and it was retired without an error before position `to`. */
  ghost predicate Flush(log: seq<Event>, from: int, a: int, b: int, c: int, to: int) {
    && 0 <= from < a < b < c < to <= |log|
    && log[a].FlushIssued?
    && Succeeded(log, log[a].n, b, c)
    && log[c] == FlushRetired(log[a].n, STS_OK)
  }

  ghost predicate Served(log: seq<Event>, from: int, to: int) {
    exists a, b, c :: Flush(log, from, a, b, c, to)
  }

  /** Request `r` was inserted at `i` and its DATA step ended without error at `d`. */
  ghost predicate DataDone(log: seq<Event>, r: Rid, i: int, d: int, k: int) {
    0 <= i < d < k <= |log| && log[d] == DataEnded(r, STS_OK)
  }

  /** Position `k` may report success of a request inserted at `i`. */
  ghost predicate Durable(log: seq<Event>, r: Rid, p: Mask, i: int, k: int) {
    && (p.pre ==> Served(log, i, k))
    && (p.post && !p.data ==> Served(log, i, k))
    && (p.data && (p.pre || p.post) ==> exists d :: DataDone(log, r, i, d, k) && (p.post ==> Served(log, d, k)))
  }

  ghost predicate InsertedAt(log: seq<Event>, r: Rid, i: int, k: int) {
    0 <= i < k <= |log| && log[i].Inserted? && log[i].r == r
  }

  /** The status with which a flush is retired: the driver's, unless two references were
      dropped after the driver's completion; then the second drop has erased it. */
  ghost predicate RetiredStatus(log: seq<Event>, n: nat, error: Status, b: int, k: int) {
    && 0 <= b < k < |log| && log[b].FlushCompleted? && log[b].n == n
    && error == (if Puts(log, n, b, k) <= 1 then log[b].error else STS_OK)
  }

  ghost predicate EventOk(log: seq<Event>, k: nat)
    requires k < |log|
  {
    match log[k]
    case BioEnded(r, status) => status == STS_OK ==>
      exists i :: InsertedAt(log, r, i, k) && Durable(log, r, Policy(log[i].caps, log[i].c), i, k)
    case RequestEnded(r, error) => error == STS_OK ==>
      exists i :: InsertedAt(log, r, i, k) && Durable(log, r, Policy(log[i].caps, log[i].c), i, k)
    case DataIssued(r, fua) =>
      exists i :: InsertedAt(log, r, i, k) && fua == (log[i].c.fua && log[i].caps.fua)
                  && (Policy(log[i].caps, log[i].c).pre ==> Served(log, i, k))
    case FlushRetired(n, error) => exists b :: RetiredStatus(log, n, error, b, k)
    case _ => true
  }

  ghost predicate LogOk(log: seq<Event>) { forall k | 0 <= k < |log| :: EventOk(log, k) }

  function BioEnds(log: seq<Event>, r: Rid): nat {
    if log == [] then 0
    else BioEnds(log[..|log| - 1], r) + (if log[|log| - 1].BioEnded? && log[|log| - 1].r == r then 1 else 0)
  }

  function RequestEnds(log: seq<Event>, r: Rid): nat {
    if log == [] then 0
    else RequestEnds(log[..|log| - 1], r) + (if log[|log| - 1].RequestEnded? && log[|log| - 1].r == r then 1 else 0)
  }

  // ===== the log only grows: what was true stays true

  lemma {:induction false} ServedStays(log: seq<Event>, es: seq<Event>, from: int, to: int, to': int)
    requires Served(log, from, to) && to <= to' <= |log + es|
    ensures Served(log + es, from, to')
  {
    var a, b, c :| Flush(log, from, a, b, c, to);
    PutsStays(log, es, log[a].n, b, c);
    assert Flush(log + es, from, a, b, c, to');
  }

  lemma {:induction k} PutsStays(log: seq<Event>, es: seq<Event>, n: nat, b: nat, k: nat)
    requires k <= |log|
    ensures Puts(log + es, n, b, k) == Puts(log, n, b, k)
  {}

  lemma {:induction false} DurableStays(log: seq<Event>, es: seq<Event>, r: Rid, p: Mask, i: int, k: int)
    requires 0 <= k <= |log| && Durable(log, r, p, i, k)
    ensures Durable(log + es, r, p, i, k)
  {
    if p.pre || (p.post && !p.data) { ServedStays(log, es, i, k, k); }
    if p.data && (p.pre || p.post) {
      var d :| DataDone(log, r, i, d, k) && (p.post ==> Served(log, d, k));
      assert DataDone(log + es, r, i, d, k);
      if p.post { ServedStays(log, es, d, k, k); }
    }
  }

  lemma {:induction false} EventStays(log: seq<Event>, es: seq<Event>, k: nat)
    requires k < |log| && EventOk(log, k)
    ensures EventOk(log + es, k)
  {
    var log' := log + es;
    match log[k]
    case BioEnded(r, status) => if status == STS_OK {
      var i :| InsertedAt(log, r, i, k) && Durable(log, r, Policy(log[i].caps, log[i].c), i, k);
      assert InsertedAt(log', r, i, k);
      DurableStays(log, es, r, Policy(log[i].caps, log[i].c), i, k);
    }
    case RequestEnded(r, error) => if error == STS_OK {
      var i :| InsertedAt(log, r, i, k) && Durable(log, r, Policy(log[i].caps, log[i].c), i, k);
      assert InsertedAt(log', r, i, k);
      DurableStays(log, es, r, Policy(log[i].caps, log[i].c), i, k);
    }
    case DataIssued(r, fua) =>
      var i :| InsertedAt(log, r, i, k) && fua == (log[i].c.fua && log[i].caps.fua)
               && (Policy(log[i].caps, log[i].c).pre ==> Served(log, i, k));
      assert InsertedAt(log', r, i, k);
      if Policy(log[i].caps, log[i].c).pre { ServedStays(log, es, i, k, k); }
    case FlushRetired(n, error) =>
      var b :| RetiredStatus(log, n, error, b, k);
      PutsStays(log, es, n, b, k);
      assert RetiredStatus(log', n, error, b, k);
    case _ =>
  }

  lemma {:induction false} LogGrows(log: seq<Event>, e: Event)
    requires LogOk(log) && EventOk(log + [e], |log|)
    ensures LogOk(log + [e])
  {
    forall k | 0 <= k < |log + [e]| ensures EventOk(log + [e], k) {
      if k < |log| { EventStays(log, [e], k); }
    }
  }

  // ===== the history invariant

  ghost function Stamp(m: map<Rid, nat>, x: Rid): nat { if x in m then m[x] else 0 }

  ghost predicate Known(x: Rid, rq: Request, h: History) {
    var i := Stamp(h.insertedAt, x);
    && InsertedAt(h.log, x, i, |h.log|)
    && rq.policy == Policy(h.log[i].caps, h.log[i].c)
    && rq.fuaFlag == (h.log[i].c.fua && h.log[i].caps.fua)
  }

  /** Every step that `rq` has recorded as finished was really served. */
  ghost predicate Progress(x: Rid, rq: Request, h: History) {
    var i := Stamp(h.insertedAt, x);
    var d := Stamp(h.dataEndedAt, x);
    && (rq.policy.pre && rq.fseq.pre ==> Served(h.log, i, |h.log|))
    && (rq.policy.data && rq.fseq.data ==> DataDone(h.log, x, i, d, |h.log|))
    && (rq.policy.post && rq.fseq.post ==> Served(h.log, From(x, rq, h), |h.log|))
  }

  /** The position after which the flush that `rq` waits for has to be issued. */
  ghost function From(x: Rid, rq: Request, h: History): nat {
    if rq.policy.data && rq.fseq.data then Stamp(h.dataEndedAt, x) else Stamp(h.insertedAt, x)
  }

  ghost predicate HistOk(x: Rid, rq: Request, h: History) {
    Known(x, rq, h) && (rq.sequenced ==> Progress(x, rq, h))
  }

  ghost predicate Histories(reqs: map<Rid, Request>, h: History) { forall x | x in reqs :: HistOk(x, reqs[x], h) }

  ghost function Grown(h: History, es: seq<Event>): History { h.(log := h.log + es) }

  lemma {:induction false} HistStays(x: Rid, rq: Request, h: History, es: seq<Event>)
    requires HistOk(x, rq, h)
    ensures HistOk(x, rq, Grown(h, es))
  {
    if rq.sequenced { ProgressStays(x, rq, h, es); }
  }

  lemma {:induction false} ProgressStays(x: Rid, rq: Request, h: History, es: seq<Event>)
    requires Progress(x, rq, h)
    ensures Progress(x, rq, Grown(h, es))
  {
    var i := Stamp(h.insertedAt, x);
    if rq.policy.pre && rq.fseq.pre { ServedStays(h.log, es, i, |h.log|, |h.log + es|); }
    if rq.policy.post && rq.fseq.post { ServedStays(h.log, es, From(x, rq, h), |h.log|, |h.log + es|); }
  }

  /** A request whose whole sequence was served may report success. */
  lemma {:induction false} ProgressIsDurable(x: Rid, rq: Request, h: History)
    requires Known(x, rq, h) && Progress(x, rq, h) && CurSeq(rq.fseq) == DONE
    ensures Durable(h.log, x, rq.policy, Stamp(h.insertedAt, x), |h.log|)
  {
    var d := Stamp(h.dataEndedAt, x);
    if rq.policy.data { assert DataDone(h.log, x, Stamp(h.insertedAt, x), d, |h.log|); }
  }

  lemma {:induction false} EndEventsOk(x: Rid, rq: Request, h: History, ended: Request, error: Status)
    requires LogOk(h.log) && Known(x, rq, h)
    requires error == STS_OK ==> Progress(x, rq, h) && CurSeq(rq.fseq) == DONE
    ensures LogOk(h.log + EndEvents(x, ended, error))
  {
    var i := Stamp(h.insertedAt, x);
    var bio := if EndsBio(ended, ended.dataLen) then [BioEnded(x, Ended(ended, error).biStatus)] else [];
    var log1 := h.log + bio;
    if error == STS_OK { ProgressIsDurable(x, rq, h); }
    if bio != [] {
      if error == STS_OK { DurableStays(h.log, bio, x, rq.policy, i, |h.log|); }
      assert InsertedAt(log1, x, i, |h.log|);
      LogGrows(h.log, bio[0]);
      assert log1 == h.log + [bio[0]];
    } else {
      assert log1 == h.log;
    }
    if error == STS_OK {
      ProgressStays(x, rq, h, bio);
      ProgressIsDurable(x, rq, Grown(h, bio));
      DurableStays(log1, [RequestEnded(x, error)], x, rq.policy, i, |log1|);
    }
    assert InsertedAt(log1 + [RequestEnded(x, error)], x, i, |log1|);
    LogGrows(log1, RequestEnded(x, error));
    assert h.log + EndEvents(x, ended, error) == log1 + [RequestEnded(x, error)];
  }

  /** `r` is about to complete `mask`; unless that failed, the completed part was served. */
  ghost predicate Earned(s: State, r: Rid, mask: Mask, error: Status) {
    && r in s.reqs && Known(r, s.reqs[r], s.h)
    && (error == STS_OK ==> Progress(r, s.reqs[r].(fseq := Or(s.reqs[r].fseq, mask)), s.h))
  }

  lemma {:induction false} AdvanceKeepsLog(s: State, r: Rid, mask: Mask, error: Status, now: nat)
    requires LogOk(s.h.log) && Earned(s, r, mask, error)
    ensures LogOk(Advance(s, r, mask, error, now).h.log)
  {
    var stage := NextStage(s.reqs[r], mask, error);
    var rq := s.reqs[r].(fseq := Or(s.reqs[r].fseq, mask));
    var es := EntryEvents(stage, r, rq, error);
    match stage {
      case DATA =>
        var i := Stamp(s.h.insertedAt, r);
        assert InsertedAt(s.h.log + es, r, i, |s.h.log|);
        if rq.policy.pre { ServedStays(s.h.log, es, i, |s.h.log|, |s.h.log|); }
        LogGrows(s.h.log, es[0]);
        assert es == [es[0]];
      case DONE => EndEventsOk(r, rq, s.h, Restore(rq), error);
      case _ => assert s.h.log + es == s.h.log;
    }
  }

  lemma {:induction false} AdvanceKeepsHistories(s: State, r: Rid, mask: Mask, error: Status, now: nat)
    requires forall x | x in s.reqs && x != r :: HistOk(x, s.reqs[x], s.h)
    requires Earned(s, r, mask, error)
    ensures var s' := Advance(s, r, mask, error, now); Histories(s'.reqs, s'.h)
  {
    var s' := Advance(s, r, mask, error, now);
    var stage := NextStage(s.reqs[r], mask, error);
    var rq := s.reqs[r].(fseq := Or(s.reqs[r].fseq, mask));
    var es := EntryEvents(stage, r, rq, error);
    forall x | x in s'.reqs ensures HistOk(x, s'.reqs[x], s'.h) {
      if x != r { HistStays(x, s.reqs[x], s.h, es); }
      else {
        HistStays(r, s'.reqs[r], s.h, es) by {
          assert stage == DONE ==> !s'.reqs[r].sequenced;
          assert s'.reqs[r].policy == rq.policy && s'.reqs[r].fuaFlag == rq.fuaFlag;
        }
      }
    }
  }

  // ===== every bio and every request ends exactly once

  ghost predicate Finished(reqs: map<Rid, Request>, x: Rid) {
    x in reqs && !reqs[x].sequenced && !Bypasses(reqs[x].policy)
  }

  ghost predicate Counted(reqs: map<Rid, Request>, log: seq<Event>) {
    && (forall x :: RequestEnds(log, x) == if Finished(reqs, x) then 1 else 0)
    && (forall x :: BioEnds(log, x) == if Finished(reqs, x) && reqs[x].hasBio then 1 else 0)
  }

  lemma {:induction false} CountGrows(log: seq<Event>, e: Event, x: Rid)
    ensures BioEnds(log + [e], x) == BioEnds(log, x) + (if e.BioEnded? && e.r == x then 1 else 0)
    ensures RequestEnds(log + [e], x) == RequestEnds(log, x) + (if e.RequestEnded? && e.r == x then 1 else 0)
  {
    assert (log + [e])[..|log|] == log;
  }

  lemma {:induction false} CountEndEvents(log: seq<Event>, r: Rid, rq: Request, error: Status, x: Rid)
    ensures RequestEnds(log + EndEvents(r, rq, error), x) == RequestEnds(log, x) + (if x == r then 1 else 0)
    ensures BioEnds(log + EndEvents(r, rq, error), x)
         == BioEnds(log, x) + (if x == r && EndsBio(rq, rq.dataLen) then 1 else 0)
  {
    var es := EndEvents(r, rq, error);
    if EndsBio(rq, rq.dataLen) {
      CountGrows(log, es[0], x);
      CountGrows(log + [es[0]], es[1], x);
      assert log + es == log + [es[0]] + [es[1]];
    } else {
      CountGrows(log, es[0], x);
      assert es == [es[0]];
    }
  }

  lemma {:induction false} AdvanceKeepsCounted(s: State, r: Rid, mask: Mask, error: Status, now: nat)
    requires Counted(s.reqs, s.h.log) && r in s.reqs && s.reqs[r].sequenced && BioOk(s.reqs[r])
    requires !Bypasses(s.reqs[r].policy)
    ensures var s' := Advance(s, r, mask, error, now); Counted(s'.reqs, s'.h.log)
  {
    var s' := Advance(s, r, mask, error, now);
    var stage := NextStage(s.reqs[r], mask, error);
    var rq := s.reqs[r].(fseq := Or(s.reqs[r].fseq, mask));
    EnterKeepsBio(rq, stage, error);
    forall x ensures RequestEnds(s'.h.log, x) == RequestEnds(s.h.log, x) + (if stage == DONE && x == r then 1 else 0)
             ensures BioEnds(s'.h.log, x) == BioEnds(s.h.log, x) + (if stage == DONE && x == r && rq.hasBio then 1 else 0)
    {
      match stage {
        case DATA => CountGrows(s.h.log, DataIssued(r, rq.fuaFlag), x);
        case DONE => CountEndEvents(s.h.log, r, Restore(rq), error, x);
        case _ => assert s.h.log + [] == s.h.log;
      }
    }
    assert forall x :: Finished(s'.reqs, x) <==> Finished(s.reqs, x) || (stage == DONE && x == r);
  }

  // ===== the flush in flight

  /** Whoever waits for the flush in flight was ready before it was issued; and the saved
      status is the driver's as long as nobody else has overwritten it. */
  ghost predicate Flight(s: State) {
    var h := s.h;
    var fl := h.fl;
    && (s.InFlight() ==> fl.issuedAt < |h.log| && h.log[fl.issuedAt] == FlushIssued(fl.number))
    && (s.InFlight() ==> forall x | x in s.Running() && x in s.reqs :: From(x, s.reqs[x], h) < fl.issuedAt)
    && (s.InFlight() && fl.driverDone ==>
          && fl.issuedAt < fl.completedAt < |h.log|
          && h.log[fl.completedAt] == FlushCompleted(fl.number, fl.driverStatus)
          && fl.puts == Puts(h.log, fl.number, fl.completedAt, |h.log|))
    && s.frq.status == if s.InFlight() && fl.driverDone && fl.puts == 0 then fl.driverStatus else STS_OK
  }

  lemma {:induction false} KickKeepsFlight(s: State, now: nat)
    requires Flight(s) && Histories(s.reqs, s.h) && Structure(s.ls, s.reqs)
    ensures Flight(Kick(s, now))
  {}

  lemma {:induction false} PutsGrows(log: seq<Event>, es: seq<Event>, n: nat, b: nat)
    requires b < |log| && FlushPut(n) !in es
    ensures Puts(log + es, n, b, |log + es|) == Puts(log, n, b, |log|)
    decreases |es|
  {
    if es == [] { assert log + es == log; }
    else {
      var k := |es| - 1;
      PutsGrows(log, es[..k], n, b);
      PutsStays(log + es[..k], [es[k]], n, b, |log| + k);
      assert log + es == (log + es[..k]) + [es[k]];
    }
  }

  lemma {:induction false} AdvanceKeepsFlight(s: State, r: Rid, mask: Mask, error: Status, now: nat)
    requires Flight(s) && (s.InFlight() ==> r !in s.Running())
    ensures Flight(Advance(s, r, mask, error, now))
  {
    var stage := NextStage(Lookup(s.reqs, r), mask, error);
    if s.InFlight() { MoveLeavesQueue(s.ls, stage, s.pendingIdx, r, s.runningIdx); }
    var rq := Lookup(s.reqs, r);
    FlightGrows(s, Advance(s, r, mask, error, now), r, EntryEvents(stage, r, rq.(fseq := Or(rq.fseq, mask)), error));
  }

  /** What is running stays, and the log grows by events that are no references dropped. */
  lemma {:induction false} FlightGrows(s: State, s': State, r: Rid, es: seq<Event>)
    requires Flight(s) && (s.InFlight() ==> r !in s.Running() && s'.Running() == s.Running())
    requires s'.pendingIdx == s.pendingIdx && s'.runningIdx == s.runningIdx && s'.frq == s.frq && s'.h == Grown(s.h, es)
    requires r in s'.reqs && s'.reqs == s.reqs[r := s'.reqs[r]] && forall k | 0 <= k < |es| :: !es[k].FlushPut?
    ensures Flight(s')
  {
    if s.InFlight() {
      if s.h.fl.driverDone { PutsGrows(s.h.log, es, s.h.fl.number, s.h.fl.completedAt); }
      assert forall x | x in s.Running() && x in s'.reqs && x in s.reqs :: From(x, s'.reqs[x], s'.h) == From(x, s.reqs[x], s.h);
    }
  }

  lemma {:induction false} KickKeepsHistory(s: State, now: nat)
    requires LogOk(s.h.log) && Histories(s.reqs, s.h) && Counted(s.reqs, s.h.log)
    ensures var s' := Kick(s, now); LogOk(s'.h.log) && Histories(s'.reqs, s'.h) && Counted(s'.reqs, s'.h.log)
  {
    if MayFlush(s, now) {
      var e := FlushIssued(s.h.fl.number + 1);
      LogGrows(s.h.log, e);
      forall x | x in s.reqs ensures HistOk(x, s.reqs[x], IssueFlush(s.h)) { HistStays(x, s.reqs[x], s.h, [e]); }
      forall x { CountGrows(s.h.log, e, x); }
    }
  }

  // ===== the invariant of the machine

  ghost predicate Chronicle(s: State) {
    LogOk(s.h.log) && Histories(s.reqs, s.h) && Counted(s.reqs, s.h.log) && Flight(s)
  }

  ghost predicate Inv(s: State) {
    Structure(s.ls, s.reqs) && Buffered(s) && !s.bug && Chronicle(s)
  }

  lemma {:induction false} CompleteKeepsChronicle(s: State, r: Rid, mask: Mask, error: Status, now: nat)
    requires Ready(s.ls, s.reqs, r, mask) && Earned(s, r, mask, error)
    requires LogOk(s.h.log) && Counted(s.reqs, s.h.log) && Flight(s)
    requires forall x | x in s.reqs && x != r :: HistOk(x, s.reqs[x], s.h)
    requires s.InFlight() ==> r !in s.Running()
    ensures Chronicle(CompleteSeq(s, r, mask, error, now))
  {
    AdvanceKeepsStructure(s, r, mask, error, now);
    AdvanceKeepsLog(s, r, mask, error, now);
    AdvanceKeepsHistories(s, r, mask, error, now);
    AdvanceKeepsCounted(s, r, mask, error, now);
    AdvanceKeepsFlight(s, r, mask, error, now);
    KickKeepsHistory(Advance(s, r, mask, error, now), now);
    KickKeepsFlight(Advance(s, r, mask, error, now), now);
  }

  /** The flush just retired with `error`: issued at `a`, completed at `b`, retired at `c`. */
  ghost predicate Window(log: seq<Event>, error: Status, a: int, b: int, c: int) {
    && 0 <= a < b < c < |log| && log[a].FlushIssued?
    && (error == STS_OK ==> Succeeded(log, log[a].n, b, c))
    && log[c] == FlushRetired(log[a].n, error)
  }

  lemma {:induction false} WindowStays(log: seq<Event>, log': seq<Event>, error: Status, a: int, b: int, c: int)
    requires Window(log, error, a, b, c) && log <= log'
    ensures Window(log', error, a, b, c)
  {
    assert log' == log + log'[|log|..];
    PutsStays(log, log'[|log|..], log[a].n, b, c);
  }

  ghost predicate Awaited(reqs: map<Rid, Request>, h: History, l: seq<Rid>, a: int) {
    forall x | x in l && x in reqs :: From(x, reqs[x], h) < a
  }

  ghost predicate WalkInv(s: State, w: bool, error: Status, a: int, b: int, c: int) {
    && Structure(s.ls, s.reqs) && Walking(s, w) && !s.bug && Chronicle(s)
    && Window(s.h.log, error, a, b, c) && Awaited(s.reqs, s.h, s.ls.Queue(w), a)
  }

  lemma {:induction false} VisitEarned(s: State, w: bool, error: Status, a: int, b: int, c: int)
    requires WalkInv(s, w, error, a, b, c) && s.ls.Queue(w) != []
    ensures var r := s.ls.Queue(w)[0];
            r in s.reqs && Earned(s, r, Bit(CurSeq(s.reqs[r].fseq)), error)
  {
    var r := s.ls.Queue(w)[0];
    assert At(s.ls, r) == OnQueue(w);
    var rq := s.reqs[r];
    var mask := Bit(CurSeq(rq.fseq));
    assert HistOk(r, rq, s.h);
    if error == STS_OK {
      assert Flush(s.h.log, From(r, rq, s.h), a, b, c, |s.h.log|);
      assert Flush(s.h.log, Stamp(s.h.insertedAt, r), a, b, c, |s.h.log|);
      assert From(r, rq.(fseq := Or(rq.fseq, mask)), s.h) == From(r, rq, s.h);
    }
  }

  lemma {:induction false} VisitKeepsWalkInv(s: State, w: bool, error: Status, now: nat, a: int, b: int, c: int)
    requires WalkInv(s, w, error, a, b, c) && s.ls.Queue(w) != []
    ensures WalkInv(Visit(s, w, error, now), w, error, a, b, c)
    ensures |s.ls.Queue(w)| == 1 ==> Inv(Visit(s, w, error, now))
    ensures |s.ls.Queue(w)| > 1 ==> Visit(s, w, error, now).ls.Queue(w) != []
  {
    var r := s.ls.Queue(w)[0];
    assert At(s.ls, r) == OnQueue(w);
    var mask := Bit(CurSeq(s.reqs[r].fseq));
    VisitEarned(s, w, error, a, b, c);
    VisitKeepsWalking(s, w, error, now);
    StructureIsReady(s.ls, s.reqs, r, CurSeq(s.reqs[r].fseq));
    CompleteKeepsChronicle(s, r, mask, error, now);
    CompleteKeepsWindow(s, w, mask, error, now, a, b, c);
    assert Visit(s, w, error, now) == CompleteSeq(s, r, mask, error, now);
  }

  /** A visit to `r` changes no stamp and no DATA bit. */
  lemma {:induction false} AwaitedStays(reqs: map<Rid, Request>, h: History, h': History, l: seq<Rid>, l': seq<Rid>,
                                        r: Rid, rq: Request, a: int)
    requires Awaited(reqs, h, l, a) && h'.insertedAt == h.insertedAt && h'.dataEndedAt == h.dataEndedAt
    requires r in reqs && rq.policy == reqs[r].policy && rq.fseq.data == reqs[r].fseq.data
    requires forall x | x in l' :: x in l
    ensures Awaited(reqs[r := rq], h', l', a)
  {
    forall x | x in l' && x in reqs[r := rq] ensures From(x, reqs[r := rq][x], h') < a {
      assert From(x, reqs[r := rq][x], h') == From(x, reqs[x], h);
    }
  }

  lemma {:induction false} MoveStaysInQueue(ls: Lists, stage: Stage, pending: bool, w: bool)
    requires ls.Queue(w) != []
    ensures forall x | x in MoveTo(ls, stage, pending, ls.Queue(w)[0]).Queue(w) :: x in ls.Queue(w)
  {
    assert Remove(ls.Queue(w), ls.Queue(w)[0]) == ls.Queue(w)[1..];
  }

  lemma {:induction false} CompleteParts(s: State, r: Rid, mask: Mask, error: Status, now: nat)
    ensures var s' := CompleteSeq(s, r, mask, error, now);
            var rq := Lookup(s.reqs, r);
            var stage := NextStage(rq, mask, error);
            && s'.ls == MoveTo(s.ls, stage, s.pendingIdx, r)
            && s'.reqs == s.reqs[r := Enter(stage, rq.(fseq := Or(rq.fseq, mask)), error)]
            && s'.h.insertedAt == s.h.insertedAt && s'.h.dataEndedAt == s.h.dataEndedAt
            && s.h.log <= s'.h.log
  {}

  lemma {:induction false} CompleteKeepsWindow(s: State, w: bool, mask: Mask, error: Status, now: nat, a: int, b: int, c: int)
    requires s.ls.Queue(w) != [] && s.ls.Queue(w)[0] in s.reqs && !mask.data
    requires Window(s.h.log, error, a, b, c) && Awaited(s.reqs, s.h, s.ls.Queue(w), a)
    ensures var s' := CompleteSeq(s, s.ls.Queue(w)[0], mask, error, now);
            Window(s'.h.log, error, a, b, c) && Awaited(s'.reqs, s'.h, s'.ls.Queue(w), a)
  {
    var r := s.ls.Queue(w)[0];
    var s' := CompleteSeq(s, r, mask, error, now);
    MoveStaysInQueue(s.ls, NextStage(s.reqs[r], mask, error), s.pendingIdx, w);
    CompleteParts(s, r, mask, error, now);
    WindowStays(s.h.log, s'.h.log, error, a, b, c);
    AwaitedStays(s.reqs, s.h, s'.h, s.ls.Queue(w), s'.ls.Queue(w), r, s'.reqs[r], a);
  }

  lemma {:induction false} WalkKeepsInv(s: State, w: bool, error: Status, now: nat, a: int, b: int, c: int)
    requires WalkInv(s, w, error, a, b, c) && s.ls.Queue(w) != []
    ensures Inv(Walk(s, w, error, now))
    decreases Work(s.reqs, s.ls.Queue(w))
  {
    VisitMakesProgress(s, w, error, now);
    VisitKeepsWalkInv(s, w, error, now, a, b, c);
    if |s.ls.Queue(w)| > 1 { WalkKeepsInv(Visit(s, w, error, now), w, error, now, a, b, c); }
  }

  // ===== every step keeps the invariant

  /** Events that touch no request: the drops of references to the flush request. */
  lemma {:induction false} NoteKeepsHistory(s: State, h: History, e: Event)
    requires LogOk(s.h.log) && Histories(s.reqs, s.h) && Counted(s.reqs, s.h.log)
    requires h.log == s.h.log + [e] && h.insertedAt == s.h.insertedAt && h.dataEndedAt == s.h.dataEndedAt
    requires EventOk(h.log, |s.h.log|) && !e.BioEnded? && !e.RequestEnded?
    ensures LogOk(h.log) && Histories(s.reqs, h) && Counted(s.reqs, h.log)
  {
    LogGrows(s.h.log, e);
    forall x | x in s.reqs ensures HistOk(x, s.reqs[x], h) { HistStays(x, s.reqs[x], s.h, [e]); }
    forall x { CountGrows(s.h.log, e, x); }
  }

  /** `s1` is the state in which somebody drops a reference with status `error`; `p` of the
      drops after the driver's completion came from others. */
  ghost predicate Dropping(s1: State, error: Status, p: nat) {
    var fl := s1.h.fl;
    && Structure(s1.ls, s1.reqs) && Buffered(s1) && !s1.bug && s1.InFlight()
    && LogOk(s1.h.log) && Histories(s1.reqs, s1.h) && Counted(s1.reqs, s1.h.log)
    && fl.issuedAt < |s1.h.log| && s1.h.log[fl.issuedAt] == FlushIssued(fl.number)
    && Awaited(s1.reqs, s1.h, s1.Running(), fl.issuedAt)
    && p == fl.puts
    && (fl.driverDone ==>
          && fl.issuedAt < fl.completedAt < |s1.h.log|
          && s1.h.log[fl.completedAt] == FlushCompleted(fl.number, fl.driverStatus)
          && fl.puts == Puts(s1.h.log, fl.number, fl.completedAt, |s1.h.log|)
          && error == (if p == 0 then fl.driverStatus else STS_OK)
          && s1.frq.status == (if p == 1 then fl.driverStatus else STS_OK))
    && (!fl.driverDone ==> error == STS_OK && s1.frq.status == STS_OK && s1.frq.ref > 1)
  }

  lemma {:induction false} RetireStartsWalk(s1: State, error: Status, p: nat)
    requires Dropping(s1, error, p) && s1.frq.ref == 1
    ensures var fl := s1.h.fl;
            WalkInv(Retire(s1, error), s1.runningIdx, MergedStatus(s1.frq, error), fl.issuedAt, fl.completedAt, |s1.h.log|)
  {
    var s2 := Retire(s1, error);
    var fl := s1.h.fl;
    var e := FlushRetired(fl.number, MergedStatus(s1.frq, error));
    PutsStays(s1.h.log, [e], fl.number, fl.completedAt, |s1.h.log|);
    assert RetiredStatus(s2.h.log, fl.number, e.error, fl.completedAt, |s1.h.log|);
    NoteKeepsHistory(s1, s2.h, e);
    assert Awaited(s2.reqs, s2.h, s2.ls.Queue(s1.runningIdx), fl.issuedAt) by {
      forall x | x in s1.Running() && x in s1.reqs ensures From(x, s1.reqs[x], s2.h) < fl.issuedAt {
        assert From(x, s1.reqs[x], s2.h) == From(x, s1.reqs[x], s1.h);
      }
    }
  }

  lemma {:induction false} DropKeepsInv(s1: State, error: Status, now: nat, p: nat)
    requires Dropping(s1, error, p)
    ensures Inv(FlushEndIo(s1, error, now))
  {
    if s1.frq.ref == 1 {
      RetireStartsWalk(s1, error, p);
      WalkKeepsInv(Retire(s1, error), s1.runningIdx, MergedStatus(s1.frq, error), now,
                   s1.h.fl.issuedAt, s1.h.fl.completedAt, |s1.h.log|);
    }
  }

  lemma {:induction false} PutKeepsInv(s: State, now: nat)
    requires Inv(s) && Enabled(s, PutRef(now))
    ensures Inv(Apply(s, PutRef(now)))
  {
    var s1 := NotePut(s);
    NoteKeepsHistory(s, s1.h, FlushPut(s.h.fl.number));
    AwaitedFrame(s.reqs, s.h, s1.h, s.Running(), s.h.fl.issuedAt);
    if s.h.fl.driverDone { PutsStays(s.h.log, [FlushPut(s.h.fl.number)], s.h.fl.number, s.h.fl.completedAt, |s.h.log|); }
    DropKeepsInv(s1, STS_OK, now, s1.h.fl.puts);
  }

  lemma {:induction false} AwaitedFrame(reqs: map<Rid, Request>, h: History, h': History, l: seq<Rid>, a: int)
    requires Awaited(reqs, h, l, a) && h'.insertedAt == h.insertedAt && h'.dataEndedAt == h.dataEndedAt
    ensures Awaited(reqs, h', l, a)
  {
    forall x | x in l && x in reqs ensures From(x, reqs[x], h') < a { assert From(x, reqs[x], h') == From(x, reqs[x], h); }
  }

  lemma {:induction false} FlushDoneKeepsInv(s: State, error: Status, now: nat)
    requires Inv(s) && Enabled(s, FlushDone(error, now))
    ensures Inv(Apply(s, FlushDone(error, now)))
  {
    var s1 := DriverCompletes(s, error);
    NoteKeepsHistory(s, s1.h, FlushCompleted(s.h.fl.number, error));
    AwaitedFrame(s.reqs, s.h, s1.h, s.Running(), s.h.fl.issuedAt);
    DropKeepsInv(s1, error, now, 0);
  }

  lemma {:induction false} CompleteKeepsInv(s: State, r: Rid, mask: Mask, error: Status, now: nat)
    requires Ready(s.ls, s.reqs, r, mask) && Earned(s, r, mask, error)
    requires Buffered(s) && !s.bug && !At(s.ls, r).OnQueue?
    requires LogOk(s.h.log) && Counted(s.reqs, s.h.log) && Flight(s)
    requires forall x | x in s.reqs && x != r :: HistOk(x, s.reqs[x], s.h)
    ensures Inv(CompleteSeq(s, r, mask, error, now))
  {
    AdvanceKeepsStructure(s, r, mask, error, now);
    CompleteKeepsBuffered(s, r, mask, error, now);
    assert r !in s.Running();
    CompleteKeepsChronicle(s, r, mask, error, now);
  }

  lemma {:induction false} FlightStays(s: State, s': State, e: Event)
    requires Flight(s) && !e.FlushPut?
    requires s'.ls == s.ls && s'.pendingIdx == s.pendingIdx && s'.runningIdx == s.runningIdx && s'.frq == s.frq
    requires s'.h.log == s.h.log + [e] && s'.h.fl == s.h.fl
    requires forall x | x in s.Running() && x in s'.reqs :: x in s.reqs && From(x, s'.reqs[x], s'.h) == From(x, s.reqs[x], s.h)
    ensures Flight(s')
  {
    if s.InFlight() && s.h.fl.driverDone { PutsGrows(s.h.log, [e], s.h.fl.number, s.h.fl.completedAt); }
  }

  lemma {:induction false} NotRunning(ls: Lists, x: Rid, i: bool)
    requires !At(ls, x).OnQueue?
    ensures x !in ls.Queue(i)
  {}

  lemma {:induction false} DataArrivesKeepsHistory(s: State, r: Rid, error: Status)
    requires LogOk(s.h.log) && Histories(s.reqs, s.h) && Counted(s.reqs, s.h.log)
    requires r in s.reqs && s.reqs[r].sequenced && CurSeq(s.reqs[r].fseq) == DATA
    requires !(s.reqs[r].policy.post && s.reqs[r].fseq.post)
    ensures var s1 := DataArrives(s, r, error);
            && LogOk(s1.h.log) && Counted(s1.reqs, s1.h.log) && Earned(s1, r, Bit(DATA), error)
            && (forall x | x in s1.reqs && x != r :: HistOk(x, s1.reqs[x], s1.h))
  {
    var s1 := DataArrives(s, r, error);
    var e := DataEnded(r, error);
    LogGrows(s.h.log, e);
    forall x { CountGrows(s.h.log, e, x); }
    forall x | x in s.reqs ensures HistOk(x, s.reqs[x], Grown(s.h, [e])) { HistStays(x, s.reqs[x], s.h, [e]); }
    forall x | x in s.reqs && x != r ensures HistOk(x, s.reqs[x], s1.h) {
      assert HistOk(x, s.reqs[x], Grown(s.h, [e]));
    }
  }

  lemma {:induction false} DataArrivesKeepsFlight(s: State, r: Rid, error: Status)
    requires Flight(s) && r !in s.Running() && (forall x | x in s.Running() :: x in s.reqs)
    ensures Flight(DataArrives(s, r, error))
  {
    var s1 := DataArrives(s, r, error);
    assert forall x | x in s.Running() && x in s1.reqs :: From(x, s1.reqs[x], s1.h) == From(x, s.reqs[x], s.h);
    FlightStays(s, s1, DataEnded(r, error));
  }

  lemma {:induction false} OnListsIsKnown(ls: Lists, reqs: map<Rid, Request>, i: bool)
    requires Structure(ls, reqs)
    ensures forall x | x in ls.Queue(i) :: x in reqs
    ensures forall x | x in ls.data :: x in reqs && reqs[x].sequenced && CurSeq(reqs[x].fseq) == DATA && At(ls, x) == OnData
  {
    forall x | x in ls.Queue(i) ensures x in reqs { assert At(ls, x) != Off; }
    forall x | x in ls.data ensures x in reqs && reqs[x].sequenced && CurSeq(reqs[x].fseq) == DATA && At(ls, x) == OnData {
      assert At(ls, x) == OnData;
    }
  }

  lemma {:induction false} DataEndKeepsInv(s: State, r: Rid, error: Status, now: nat)
    requires Inv(s) && Enabled(s, DataEnd(r, error, now))
    ensures Inv(Apply(s, DataEnd(r, error, now)))
  {
    OnListsIsKnown(s.ls, s.reqs, s.runningIdx);
    NotRunning(s.ls, r, s.runningIdx);
    DataArrivesKeepsHistory(s, r, error);
    DataArrivesKeepsFlight(s, r, error);
    StructureIsReady(s.ls, s.reqs, r, DATA);
    CompleteKeepsInv(DataArrives(s, r, error), r, Bit(DATA), error, now);
  }

  lemma {:induction false} ArriveKeepsHistory(s: State, r: Rid, rq: Request, c: Command, caps: Caps)
    requires LogOk(s.h.log) && Histories(s.reqs, s.h) && r !in s.reqs
    requires rq.policy == Policy(caps, c) && rq.fuaFlag == (c.fua && caps.fua)
    ensures var s1 := Arrive(s, r, rq, c, caps);
            && LogOk(s1.h.log) && Known(r, rq, s1.h)
            && (forall x | x in s1.reqs && x != r :: HistOk(x, s1.reqs[x], s1.h))
            && (forall x :: RequestEnds(s1.h.log, x) == RequestEnds(s.h.log, x) && BioEnds(s1.h.log, x) == BioEnds(s.h.log, x))
  {
    var s1 := Arrive(s, r, rq, c, caps);
    var e := Inserted(r, c, caps);
    LogGrows(s.h.log, e);
    forall x { CountGrows(s.h.log, e, x); }
    forall x | x in s1.reqs && x != r ensures HistOk(x, s1.reqs[x], s1.h) {
      HistStays(x, s.reqs[x], s.h, [e]);
      assert HistOk(x, s.reqs[x], Grown(s.h, [e]));
    }
  }

  lemma {:induction false} ArriveKeepsFlight(s: State, r: Rid, rq: Request, c: Command, caps: Caps)
    requires Flight(s) && r !in s.reqs && (forall x | x in s.Running() :: x in s.reqs)
    ensures Flight(Arrive(s, r, rq, c, caps))
  {
    var s1 := Arrive(s, r, rq, c, caps);
    assert forall x | x in s.Running() && x in s1.reqs :: x in s.reqs && From(x, s1.reqs[x], s1.h) == From(x, s.reqs[x], s.h);
    FlightStays(s, s1, Inserted(r, c, caps));
  }

  lemma {:induction false} ArriveIsReady(ls: Lists, reqs: map<Rid, Request>, r: Rid, rq: Request)
    requires Structure(ls, reqs) && r !in reqs
    requires rq.sequenced && rq.fseq == NONE && BioOk(rq) && !Bypasses(rq.policy) && rq.policy != NONE
    ensures Ready(ls, reqs[r := rq], r, Complement(rq.policy)) && At(ls, r) == Off
  {
    forall x | x in reqs[r := rq] && x != r ensures PlaceOk(reqs[r := rq][x], At(ls, x)) {
      assert PlaceOk(reqs[x], At(ls, x));
    }
  }

  /** Changing a request without finishing or unfinishing it changes no count. */
  lemma {:induction false} CountedStays(reqs: map<Rid, Request>, log: seq<Event>, r: Rid, rq: Request, log': seq<Event>)
    requires Counted(reqs, log) && !Finished(reqs, r) && (rq.sequenced || Bypasses(rq.policy))
    requires forall x :: RequestEnds(log', x) == RequestEnds(log, x) && BioEnds(log', x) == BioEnds(log, x)
    ensures Counted(reqs[r := rq], log')
  {
    assert forall x :: Finished(reqs[r := rq], x) <==> Finished(reqs, x);
  }

  lemma {:induction false} InsertEarned(s: State, r: Rid, c: Command, caps: Caps)
    requires Chronicle(s) && r !in s.reqs
    requires forall x | x in s.Running() :: x in s.reqs
    ensures var s1 := Arrive(s, r, NewRequest(c, caps).(sequenced := true), c, caps);
            && LogOk(s1.h.log) && Counted(s1.reqs, s1.h.log) && Flight(s1)
            && Earned(s1, r, Complement(Policy(caps, c)), STS_OK)
            && (forall x | x in s1.reqs && x != r :: HistOk(x, s1.reqs[x], s1.h))
  {
    var rq := NewRequest(c, caps).(sequenced := true);
    var s1 := Arrive(s, r, rq, c, caps);
    ArriveKeepsHistory(s, r, rq, c, caps);
    ArriveKeepsFlight(s, r, rq, c, caps);
    CountedStays(s.reqs, s.h.log, r, rq, s1.h.log);
    assert Progress(r, rq.(fseq := Complement(rq.policy)), s1.h);
    assert Or(NONE, Complement(rq.policy)) == Complement(rq.policy);
  }

  lemma {:induction false} InsertSequenced(s: State, r: Rid, c: Command, caps: Caps, now: nat)
    requires Inv(s) && r !in s.reqs
    requires Policy(caps, c) != NONE && !Bypasses(Policy(caps, c))
    ensures Inv(InsertFlush(s, r, c, caps, now))
  {
    var rq := NewRequest(c, caps).(sequenced := true);
    OnListsIsKnown(s.ls, s.reqs, s.runningIdx);
    InsertEarned(s, r, c, caps);
    ArriveIsReady(s.ls, s.reqs, r, rq);
    CompleteKeepsInv(Arrive(s, r, rq, c, caps), r, Complement(rq.policy), STS_OK, now);
  }

  /** What a request that stays out of the flush machinery leaves in the log. */
  ghost function DirectEvents(r: Rid, rq: Request): seq<Event> {
    if rq.policy == NONE then EndEvents(r, rq, STS_OK) else [DataIssued(r, rq.fuaFlag)]
  }

  lemma {:induction false} DirectLogOk(h: History, r: Rid, rq: Request)
    requires (rq.policy == NONE || Bypasses(rq.policy)) && LogOk(h.log) && Known(r, rq, h)
    ensures LogOk(h.log + DirectEvents(r, rq))
  {
    if rq.policy == NONE {
      EndEventsOk(r, rq.(fseq := Mask(true, true, true)), h, rq, STS_OK);
    } else {
      var e := DataIssued(r, rq.fuaFlag);
      assert InsertedAt(h.log + [e], r, Stamp(h.insertedAt, r), |h.log|);
      LogGrows(h.log, e);
    }
  }

  lemma {:induction false} DirectCounted(reqs: map<Rid, Request>, log: seq<Event>, log1: seq<Event>, r: Rid, rq: Request, rq': Request)
    requires (rq.policy == NONE || Bypasses(rq.policy)) && r !in reqs && Counted(reqs, log)
    requires BioOk(rq) && rq.bioHead == rq.hasBio && !rq.sequenced
    requires rq' == (if rq.policy == NONE then Ended(rq, STS_OK) else rq)
    requires forall x :: RequestEnds(log1, x) == RequestEnds(log, x) && BioEnds(log1, x) == BioEnds(log, x)
    ensures Counted(reqs[r := rq'], log1 + DirectEvents(r, rq))
  {
    if rq.policy == NONE {
      forall x { CountEndEvents(log1, r, rq, STS_OK, x); }
    } else {
      forall x { CountGrows(log1, DataIssued(r, rq.fuaFlag), x); }
    }
    assert forall x :: Finished(reqs[r := rq'], x) <==> Finished(reqs, x) || (x == r && rq.policy == NONE);
  }

  lemma {:induction false} DirectKeepsHistory(s: State, s1: State, r: Rid, rq: Request, rq': Request)
    requires rq.policy == NONE || Bypasses(rq.policy)
    requires r !in s.reqs && Counted(s.reqs, s.h.log) && BioOk(rq) && rq.bioHead == rq.hasBio && !rq.sequenced
    requires s1.reqs == s.reqs[r := rq'] && rq' == (if rq.policy == NONE then Ended(rq, STS_OK) else rq)
    requires LogOk(s1.h.log) && Known(r, rq, s1.h)
    requires forall x | x in s1.reqs && x != r :: HistOk(x, s1.reqs[x], s1.h)
    requires forall x :: RequestEnds(s1.h.log, x) == RequestEnds(s.h.log, x) && BioEnds(s1.h.log, x) == BioEnds(s.h.log, x)
    ensures var h := Grown(s1.h, DirectEvents(r, rq));
            LogOk(h.log) && Histories(s1.reqs, h) && Counted(s1.reqs, h.log)
  {
    var es := DirectEvents(r, rq);
    DirectLogOk(s1.h, r, rq);
    DirectCounted(s.reqs, s.h.log, s1.h.log, r, rq, rq');
    forall x | x in s1.reqs ensures HistOk(x, s1.reqs[x], Grown(s1.h, es)) { HistStays(x, s1.reqs[x], s1.h, es); }
  }

  lemma {:induction false} DirectKeepsChronicle(s: State, r: Rid, rq: Request, rq': Request, c: Command, caps: Caps)
    requires Chronicle(s) && r !in s.reqs && (rq.policy == NONE || Bypasses(rq.policy))
    requires forall x | x in s.Running() :: x in s.reqs
    requires rq == NewRequest(c, caps) && rq' == (if rq.policy == NONE then Ended(rq, STS_OK) else rq)
    ensures var s1 := Arrive(s, r, rq', c, caps); Chronicle(s1.(h := Grown(s1.h, DirectEvents(r, rq))))
  {
    var s1 := Arrive(s, r, rq', c, caps);
    ArriveKeepsHistory(s, r, rq', c, caps);
    ArriveKeepsFlight(s, r, rq', c, caps);
    DirectKeepsHistory(s, s1, r, rq, rq');
    GrownKeepsFlight(s1, DirectEvents(r, rq));
  }

  lemma {:induction false} InsertDirect(s: State, r: Rid, c: Command, caps: Caps, now: nat)
    requires Inv(s) && r !in s.reqs
    requires Policy(caps, c) == NONE || Bypasses(Policy(caps, c))
    ensures Inv(InsertFlush(s, r, c, caps, now))
  {
    var rq := NewRequest(c, caps);
    var rq' := if rq.policy == NONE then Ended(rq, STS_OK) else rq;
    OnListsIsKnown(s.ls, s.reqs, s.runningIdx);
    DirectKeepsChronicle(s, r, rq, rq', c, caps);
    assert At(s.ls, r) == Off;
    PlacesAfterMove(s.ls, s.ls, s.reqs, r, Off, rq');
    var s1 := Arrive(s, r, rq', c, caps);
    assert InsertFlush(s, r, c, caps, now) == s1.(h := Grown(s1.h, DirectEvents(r, rq)));
  }

  lemma {:induction false} GrownKeepsFlight(s: State, es: seq<Event>)
    requires Flight(s) && FlushPut(s.h.fl.number) !in es
    ensures Flight(s.(h := Grown(s.h, es)))
  {
    if s.InFlight() && s.h.fl.driverDone { PutsGrows(s.h.log, es, s.h.fl.number, s.h.fl.completedAt); }
    assert forall x | x in s.Running() && x in s.reqs :: From(x, s.reqs[x], Grown(s.h, es)) == From(x, s.reqs[x], s.h);
  }

  lemma {:induction false} BytesKeepBio(rq: Request, error: Status, nbytes: nat)
    requires BioOk(rq)
    ensures BioOk(UpdateRequest(rq, error, nbytes))
  {}

  lemma {:induction false} BytesKeepChronicle(s: State, r: Rid, rq: Request)
    requires Chronicle(s) && r in s.reqs && s.reqs[r].sequenced
    requires rq.policy == s.reqs[r].policy && rq.fseq == s.reqs[r].fseq && rq.fuaFlag == s.reqs[r].fuaFlag && rq.sequenced
    ensures Chronicle(s.(reqs := s.reqs[r := rq]))
  {
    var reqs := s.reqs[r := rq];
    assert Histories(reqs, s.h) by {
      forall x | x in reqs ensures HistOk(x, reqs[x], s.h) { assert HistOk(x, s.reqs[x], s.h); }
    }
    CountedStays(s.reqs, s.h.log, r, rq, s.h.log);
    if s.InFlight() { AwaitedStays(s.reqs, s.h, s.h, s.Running(), s.Running(), r, rq, s.h.fl.issuedAt); }
  }

  lemma {:induction false} DataBytesKeepsInv(s: State, r: Rid, error: Status, nbytes: nat)
    requires Inv(s) && Enabled(s, DataBytes(r, error, nbytes))
    ensures Inv(Apply(s, DataBytes(r, error, nbytes)))
  {
    OnListsIsKnown(s.ls, s.reqs, s.runningIdx);
    var rq := UpdateRequest(s.reqs[r], error, nbytes);
    BytesKeepBio(s.reqs[r], error, nbytes);
    PlacesAfterMove(s.ls, s.ls, s.reqs, r, OnData, rq);
    BytesKeepChronicle(s, r, rq);
  }

  lemma {:induction false} StepKeepsInv(s: State, step: Step)
    requires Inv(s)
    ensures Inv(Apply(s, step))
  {
    if Enabled(s, step) {
      match step
      case Insert(r, c, caps, now) =>
        if Policy(caps, c) == NONE || Bypasses(Policy(caps, c)) { InsertDirect(s, r, c, caps, now); }
        else { InsertSequenced(s, r, c, caps, now); }
      case DataBytes(r, error, nbytes) => DataBytesKeepsInv(s, r, error, nbytes);
      case DataEnd(r, error, now) => DataEndKeepsInv(s, r, error, now);
      case GetRef =>
      case PutRef(now) => PutKeepsInv(s, now);
      case FlushDone(error, now) => FlushDoneKeepsInv(s, error, now);
    }
  }

  lemma {:induction false} RunKeepsInv(steps: seq<Step>)
    ensures Inv(Run(steps))
  {
    if steps != [] {
      RunKeepsInv(steps[..|steps| - 1]);
      StepKeepsInv(Run(steps[..|steps| - 1]), steps[|steps| - 1]);
    }
  }
}
