/** The dispatch and restart handshake of block/blk-mq.c and block/blk-mq-sched.c.

    One hardware queue with an I/O scheduler and unshared driver tags, one dispatcher, and
    any number of requests finishing at the same time.  A test or a change of the
    SCHED_RESTART bit, taking a tag for the first request, freeing the tag of a finished one,
    looking at or splicing hctx->dispatch: each is a step of its own, and steps interleave
    freely.  The `Queue` step joins three accesses: it takes a tag along for the next request,
    hands the first one to queue_rq, and gives back the tag of a refused one. */
module RestartHandshake {

  type Rid = nat

  /** How far a request that was queued to the driver is on its way out:
      it still owns its tag; it has freed it; it has seen SCHED_RESTART set; it has cleared
      the bit and is about to call blk_mq_run_hw_queue. */
  datatype Leaving = InDriver | TagFreed | SawRestart | Cleared

  datatype Answer = OK | RESOURCE | DEV_RESOURCE | ZONE_RESOURCE | ERROR

  /** Why blk_mq_dispatch_rq_list left its loop. */
  datatype Reason = Finished | NoTag | NoBudget | Refused(dev: bool)

  /** The next thing the dispatcher does. */
  datatype At =
    | Idle
    | Mark      // blk_mq_sched_mark_restart_hctx: test the bit
    | SetMark   // blk_mq_sched_mark_restart_hctx: set the bit
    | Loop      // a budget and a tag for the first request
    | TagMark   // there was no tag: test the bit
    | TagSet    // there was no tag: set the bit
    | TagRetry  // there was no tag: try once more
    | Queue     // queue_rq on the first request
    | Splice    // put what is left back on hctx->dispatch
    | Check     // look at SCHED_RESTART
    | Act       // run the queue or not

  /** The dispatcher and the local variables of blk_mq_dispatch_rq_list. */
  datatype Dispatcher = Dispatcher(at: At, list: seq<Rid>, zone: seq<Rid>, needBudget: bool, holdsTag: bool,
                                   needsResource: bool, why: Reason, needsRestart: bool)

  const IDLE := Dispatcher(Idle, [], [], false, false, false, Finished, false)

  /** `free` counts the free driver tags.  A request in the driver owns one; of the requests
      on the dispatcher's list only the first may own one (`holdsTag`). */
  datatype State = State(free: nat, dispatch: seq<Rid>, restart: bool, runPending: bool, devResource: bool,
                         leaving: map<Rid, Leaving>, d: Dispatcher)

  function Initial(depth: nat): State { State(depth, [], false, false, false, map[], IDLE) }

  datatype Step =
    | Insert(r: Rid)                 // somebody adds to hctx->dispatch and runs the queue
    | RunWork                        // the queued run_work starts
    | RunNow                         // a caller runs the queue itself
    | FromScheduler(list: seq<Rid>)  // the dispatcher pulled requests, with budgets, out of the scheduler
    | Dispatch(budget: bool, answer: Answer)   // its next step; what get_budget or queue_rq answer
    | Leave(r: Rid)                  // the next step of a finishing request

  function One(b: bool): nat { if b then 1 else 0 }

  /** blk_mq_sched_dispatch_requests finds hctx->dispatch not empty and takes all of it. */
  function TakeDispatch(s: State): State {
    if s.dispatch == [] then s
    else s.(dispatch := [], devResource := false, d := IDLE.(at := Mark, list := s.dispatch, needBudget := true))
  }

  // ----- one step of the dispatcher, by what it changes

  /** A tag can be had for the first request: it has one, or one is free. */
  predicate CanTag(s: State) { s.d.holdsTag || s.free > 0 }

  /** A tag for the request after the first one can be taken along. */
  predicate Prefetches(s: State) { |s.d.list| > 1 && s.free > 0 }

  /** The request handed to queue_rq stays with the driver (a failed one is ended at once). */
  predicate Accepted(answer: Answer) { answer.OK? || answer.ERROR? }

  /** Locals after blk_mq_get_driver_tag for the first request. */
  function Tagged(s: State, failed: At, why: Reason): Dispatcher {
    s.d.(at := if CanTag(s) then Queue else failed, holdsTag := CanTag(s), why := if CanTag(s) then s.d.why else why)
  }

  /** Locals after queue_rq answered for the first request. */
  function Answered(d: Dispatcher, answer: Answer, prefetched: bool): Dispatcher
    requires d.list != []
  {
    var rest := d.list[1..];
    var more := if rest == [] then Splice else Loop;
    match answer
    case RESOURCE => d.(at := Splice, holdsTag := false, needsResource := true, why := Refused(false))
    case DEV_RESOURCE => d.(at := Splice, holdsTag := false, why := Refused(true))
    case ZONE_RESOURCE =>
      d.(at := more, list := rest, zone := [d.list[0]] + d.zone, holdsTag := prefetched, needsResource := true)
    case _ => d.(at := more, list := rest, holdsTag := prefetched)
  }

  /** The dispatcher's locals. */
  function NextLocals(s: State, budget: bool, answer: Answer): Dispatcher {
    var d := s.d;
    match d.at
    case Idle => d
    case Mark => d.(at := if s.restart then Loop else SetMark)
    case SetMark => d.(at := Loop)
    case Loop => if d.needBudget && !budget then d.(at := Splice, holdsTag := false, why := NoBudget)
                 else Tagged(s, TagMark, d.why)
    case TagMark => d.(at := if s.restart then TagRetry else TagSet)
    case TagSet => d.(at := TagRetry)
    case TagRetry => Tagged(s, Splice, NoTag)
    case Queue => if d.list == [] then d else Answered(d, answer, Prefetches(s))
    case Splice => if d.list == [] && d.zone == [] then IDLE else d.(at := Check, list := [], zone := [])
    case Check => d.(at := Act, needsRestart := s.restart, needsResource := d.needsResource || d.why == NoBudget)
    case Act => IDLE
  }

  /** Free tags: taken for the first request, taken along for the next, or given back. */
  function NextFree(s: State, budget: bool, answer: Answer): nat {
    match s.d.at
    case Loop => if s.d.needBudget && !budget then s.free + One(s.d.holdsTag)
                 else s.free - One(!s.d.holdsTag && s.free > 0)
    case TagRetry => s.free - One(!s.d.holdsTag && s.free > 0)
    case Queue => if s.d.list == [] then s.free
                  else if Accepted(answer) then s.free - One(Prefetches(s))
                  else if answer == ZONE_RESOURCE then s.free + 1 - One(Prefetches(s))
                  else s.free + 1
    case _ => s.free
  }

  /** The next step of the dispatcher: blk_mq_dispatch_rq_list splices what is left to
      hctx->dispatch, and at the end blk_mq_run_hw_queue looks at that list again while
      blk_mq_delay_run_hw_queue does not. */
  function DispatchStep(s: State, budget: bool, answer: Answer): State {
    var d := s.d;
    State(NextFree(s, budget, answer),
          if d.at.Splice? then s.dispatch + d.list + d.zone else s.dispatch,
          s.restart || d.at.SetMark? || d.at.TagSet?,
          s.runPending || (d.at.Act? && ((!d.needsRestart && s.dispatch != []) || (d.needsRestart && d.needsResource))),
          s.devResource || (d.at.Act? && d.why == Refused(true)),
          if d.at.Queue? && d.list != [] && Accepted(answer) then s.leaving[d.list[0] := InDriver] else s.leaving,
          NextLocals(s, budget, answer))
  }

  /** The next step of a finishing request: free the tag, then blk_mq_sched_restart. */
  function LeaveStep(s: State, r: Rid): State {
    if r !in s.leaving then s
    else
      var at := s.leaving[r];
      s.(free := s.free + One(at == InDriver),
         restart := s.restart && at != SawRestart,
         runPending := s.runPending || (at == Cleared && s.dispatch != []),
         leaving := NextLeaving(s.leaving, r, s.restart))
  }

  function NextLeaving(leaving: map<Rid, Leaving>, r: Rid, restart: bool): map<Rid, Leaving>
    requires r in leaving
  {
    match leaving[r]
    case InDriver => leaving[r := TagFreed]
    case TagFreed => if restart then leaving[r := SawRestart] else leaving - {r}
    case SawRestart => leaving[r := Cleared]
    case Cleared => leaving - {r}
  }

  predicate Fresh(s: State, list: seq<Rid>) {
    && (forall r | r in list :: r !in s.leaving && r !in s.dispatch && r !in s.d.list && r !in s.d.zone)
    && (forall i, j | 0 <= i < j < |list| :: list[i] != list[j])
  }

  function Apply(s: State, step: Step): State {
    match step
    case Insert(r) => if Fresh(s, [r]) then s.(dispatch := s.dispatch + [r], runPending := true) else s
    case RunWork => if s.d.at.Idle? && s.runPending then TakeDispatch(s.(runPending := false)) else s
    case RunNow => if s.d.at.Idle? then TakeDispatch(s) else s
    case FromScheduler(list) =>
      if s.d.at.Idle? && list != [] && Fresh(s, list) then s.(d := IDLE.(at := Loop, list := list)) else s
    case Dispatch(budget, answer) => DispatchStep(s, budget, answer)
    case Leave(r) => LeaveStep(s, r)
  }

  function Run(depth: nat, steps: seq<Step>): State {
    if steps == [] then Initial(depth) else Apply(Run(depth, steps[..|steps| - 1]), steps[|steps| - 1])
  }

  // ===== the invariant

  /** Something will run the queue again: a run is pending, or a finishing request has cleared
      SCHED_RESTART and is about to run the queue, or the bit is set and some request on its
      way out has yet to look at it or has just seen it, or the driver promised to do it. */
  ghost predicate Wake(s: State) {
    s.runPending || Running(s.leaving) || (s.restart && Outstanding(s.leaving)) || s.devResource
  }

  ghost predicate Running(leaving: map<Rid, Leaving>) { exists r :: r in leaving && leaving[r] == Cleared }
  ghost predicate Outstanding(leaving: map<Rid, Leaving>) { exists r :: r in leaving && leaving[r] != Cleared }

  /** The dispatcher's locals at each point. */
  ghost predicate LocalsOk(d: Dispatcher) {
    && (d.at.Idle? || d.at.Check? || d.at.Act? ==> d.list == [] && d.zone == [])
    && (d.zone != [] ==> d.needsResource)
    && (d.at.Splice? && d.why == Finished ==> d.list == [])
    && (d.at.Splice? || d.at.Check? || d.at.Act? || d.at.Idle? || (d.list != [] && d.why == Finished))
    && (d.at.Check? || d.at.Act? ==> (d.why.Finished? || d.why == Refused(false) ==> d.needsResource))
    && (d.at.Splice? && d.why == Refused(false) ==> d.needsResource)
    && (d.at.Act? && d.why == NoBudget ==> d.needsResource)
  }

  /** After the tag was refused twice, SCHED_RESTART is set only as long as somebody will look. */
  ghost predicate GaveUpSafely(s: State) {
    (s.d.at.Splice? || s.d.at.Check?) && s.d.why == NoTag && !s.d.needsResource && s.restart ==> Outstanding(s.leaving)
  }

  /** About to leave without running the queue: only if somebody else will. */
  ghost predicate MayLeave(s: State) {
    && (s.d.at.Check? || s.d.at.Act? ==> s.dispatch != [])
    && (s.d.at.Act? && s.d.needsRestart ==> s.d.needsResource || s.d.why == Refused(true) || Wake(s))
  }

  ghost predicate DispatcherOk(s: State) { LocalsOk(s.d) && GaveUpSafely(s) && MayLeave(s) }

  ghost function InDrivers(leaving: map<Rid, Leaving>): set<Rid> { set r | r in leaving && leaving[r] == InDriver }

  /** Every tag is free, or owned by a request in the driver, or by the dispatcher's first request. */
  ghost predicate Tags(s: State, depth: nat) {
    && s.free + |InDrivers(s.leaving)| + One(s.d.holdsTag) == depth
    && (s.d.at.Queue? ==> s.d.holdsTag)
    && (!(s.d.at.Loop? || s.d.at.Queue?) ==> !s.d.holdsTag)
  }

  /** Every request in the system, wherever it is. */
  ghost function Everyone(s: State): multiset<Rid> {
    multiset(s.dispatch) + multiset(s.d.list) + multiset(s.d.zone) + multiset(s.leaving.Keys)
  }

  ghost predicate OnePlaceEach(s: State) { forall r :: Everyone(s)[r] <= 1 }

  ghost predicate Woken(s: State) { s.dispatch != [] && !(s.d.at.Check? || s.d.at.Act?) ==> Wake(s) }

  ghost predicate Inv(s: State, depth: nat) { OnePlaceEach(s) && Tags(s, depth) && DispatcherOk(s) && Woken(s) }

  // ===== finishing requests

  lemma {:induction false} LeaveKeepsWake(s: State, r: Rid)
    requires Wake(s) && s.dispatch != []
    ensures Wake(LeaveStep(s, r))
  {
    var s' := LeaveStep(s, r);
    if r in s.leaving && !s.runPending && !s.devResource {
      if x :| x in s.leaving && s.leaving[x] == Cleared {
        if x != r { assert x in s'.leaving && s'.leaving[x] == Cleared; }
      } else {
        var x :| x in s.leaving && s.leaving[x] != Cleared;
        if s.leaving[r] == SawRestart { assert r in s'.leaving && s'.leaving[r] == Cleared; }
        else { assert x in s'.leaving && s'.leaving[x] != Cleared; }
      }
    }
  }

  lemma {:induction false} LeaveKeepsOutstanding(s: State, r: Rid)
    requires s.restart ==> Outstanding(s.leaving)
    ensures var s' := LeaveStep(s, r); s'.restart ==> Outstanding(s'.leaving)
  {
    var s' := LeaveStep(s, r);
    if s'.restart && r in s.leaving {
      var x :| x in s.leaving && s.leaving[x] != Cleared;
      assert x in s'.leaving && s'.leaving[x] != Cleared;
    }
  }

  lemma {:induction false} LeaveKeepsTags(s: State, r: Rid, depth: nat)
    requires Tags(s, depth)
    ensures Tags(LeaveStep(s, r), depth)
  {
    if r in s.leaving { LeaveFreesTag(s.leaving, r, s.restart); }
  }

  /** A request on its way out frees its tag in its first step. */
  lemma {:induction false} LeaveFreesTag(leaving: map<Rid, Leaving>, r: Rid, restart: bool)
    requires r in leaving
    ensures |InDrivers(NextLeaving(leaving, r, restart))| + One(leaving[r] == InDriver) == |InDrivers(leaving)|
  {
    var next := NextLeaving(leaving, r, restart);
    if leaving[r] == InDriver {
      assert InDrivers(leaving) == InDrivers(next) + {r};
    } else {
      assert InDrivers(leaving) == InDrivers(next);
    }
  }

  lemma {:induction false} LeavingIsElsewhere(s: State, r: Rid)
    requires OnePlaceEach(s) && r in s.leaving
    ensures r !in s.d.list && r !in s.d.zone && r !in s.dispatch
  {
    assert Everyone(s)[r]
        == multiset(s.dispatch)[r] + multiset(s.d.list)[r] + multiset(s.d.zone)[r] + multiset(s.leaving.Keys)[r];
  }

  lemma {:induction false} LeaveRemoves(s: State, r: Rid)
    ensures var s' := LeaveStep(s, r);
            s'.leaving.Keys <= s.leaving.Keys && s'.dispatch == s.dispatch && s'.d == s.d
  {}

  lemma {:induction false} FewerPlaces(s: State, s': State)
    requires OnePlaceEach(s) && s'.leaving.Keys <= s.leaving.Keys && s'.dispatch == s.dispatch && s'.d == s.d
    ensures OnePlaceEach(s')
  {
    forall x ensures Everyone(s')[x] <= 1 {
      assert Everyone(s)[x] <= 1;
      assert multiset(s'.leaving.Keys)[x] <= multiset(s.leaving.Keys)[x];
    }
  }

  lemma {:induction false} LeaveKeepsInv(s: State, r: Rid, depth: nat)
    requires Inv(s, depth)
    ensures Inv(LeaveStep(s, r), depth)
  {
    if r in s.leaving {
      LeavingIsElsewhere(s, r);
      LeaveKeepsTags(s, r, depth);
      LeaveRemoves(s, r);
      FewerPlaces(s, LeaveStep(s, r));
      if s.dispatch != [] && Wake(s) { LeaveKeepsWake(s, r); }
      if s.restart ==> Outstanding(s.leaving) { LeaveKeepsOutstanding(s, r); }
    }
  }

  // ===== the dispatcher

  lemma {:induction false} AnsweredConserves(d: Dispatcher, answer: Answer, pre: bool, d': Dispatcher)
    requires d.list != [] && d' == Answered(d, answer, pre)
    ensures multiset(d.list) + multiset(d.zone)
         == multiset(d'.list) + multiset(d'.zone) + if Accepted(answer) then multiset{d.list[0]} else multiset{}
  {
    assert d.list == [d.list[0]] + d.list[1..];
  }

  lemma {:induction false} Regroup(d: multiset<Rid>, l: multiset<Rid>, z: multiset<Rid>, k: multiset<Rid>,
                                   l': multiset<Rid>, z': multiset<Rid>, m: multiset<Rid>)
    requires l + z == l' + z' + m
    ensures d + l' + z' + (k + m) == d + l + z + k
  {
    calc {
      d + l' + z' + (k + m);
      d + (l' + z' + m) + k;
      d + (l + z) + k;
      d + l + z + k;
    }
  }

  lemma {:induction false} AcceptGrows(leaving: map<Rid, Leaving>, r: Rid)
    requires r !in leaving
    ensures multiset(leaving[r := InDriver].Keys) == multiset(leaving.Keys) + multiset{r}
    ensures |InDrivers(leaving[r := InDriver])| == |InDrivers(leaving)| + 1
  {
    assert leaving[r := InDriver].Keys == leaving.Keys + {r};
    assert InDrivers(leaving[r := InDriver]) == InDrivers(leaving) + {r};
  }

  lemma {:induction false} QueueConserves(s: State, d': Dispatcher, leaving': map<Rid, Leaving>, answer: Answer)
    requires s.d.list != [] && s.d.list[0] !in s.leaving && d' == Answered(s.d, answer, Prefetches(s))
    requires leaving' == if Accepted(answer) then s.leaving[s.d.list[0] := InDriver] else s.leaving
    ensures multiset(s.dispatch) + multiset(d'.list) + multiset(d'.zone) + multiset(leaving'.Keys) == Everyone(s)
  {
    var m := if Accepted(answer) then multiset{s.d.list[0]} else multiset{};
    AnsweredConserves(s.d, answer, Prefetches(s), d');
    Regroup(multiset(s.dispatch), multiset(s.d.list), multiset(s.d.zone), multiset(s.leaving.Keys),
            multiset(d'.list), multiset(d'.zone), m);
    AcceptGrows(s.leaving, s.d.list[0]);
    assert multiset(leaving'.Keys) == multiset(s.leaving.Keys) + m;
  }

  lemma {:induction false} SpliceConserves(s: State, budget: bool, answer: Answer)
    requires s.d.at.Splice?
    ensures Everyone(DispatchStep(s, budget, answer)) == Everyone(s)
  {
    assert multiset(s.dispatch + s.d.list + s.d.zone) == multiset(s.dispatch) + multiset(s.d.list) + multiset(s.d.zone);
  }

  /** Steps of the dispatcher that move no request. */
  lemma {:induction false} OthersMoveNothing(s: State, budget: bool, answer: Answer)
    requires !s.d.at.Queue? && !s.d.at.Splice? && (s.d.at.Act? ==> s.d.list == [] && s.d.zone == [])
    ensures NextLocals(s, budget, answer).list == s.d.list && NextLocals(s, budget, answer).zone == s.d.zone
  {
    if s.d.at.Loop? || s.d.at.TagRetry? {
      TaggingMovesNothing(s, budget, answer);
    } else if s.d.at.Mark? || s.d.at.TagMark? {
      TestMovesNothing(s, budget, answer);
    }
  }

  lemma {:induction false} TaggingMovesNothing(s: State, budget: bool, answer: Answer)
    requires s.d.at.Loop? || s.d.at.TagRetry?
    ensures NextLocals(s, budget, answer).list == s.d.list && NextLocals(s, budget, answer).zone == s.d.zone
  {}

  lemma {:induction false} TestMovesNothing(s: State, budget: bool, answer: Answer)
    requires s.d.at.Mark? || s.d.at.TagMark?
    ensures NextLocals(s, budget, answer).list == s.d.list && NextLocals(s, budget, answer).zone == s.d.zone
  {}

  /** The dispatcher neither loses nor duplicates a request. */
  lemma {:induction false} DispatchConserves(s: State, budget: bool, answer: Answer)
    requires OnePlaceEach(s) && DispatcherOk(s)
    ensures Everyone(DispatchStep(s, budget, answer)) == Everyone(s)
  {
    if s.d.at.Queue? {
      if s.d.list[0] in s.leaving { LeavingIsElsewhere(s, s.d.list[0]); }
      QueueConserves(s, NextLocals(s, budget, answer), DispatchStep(s, budget, answer).leaving, answer);
    } else if s.d.at.Splice? {
      SpliceConserves(s, budget, answer);
    } else {
      OthersMoveNothing(s, budget, answer);
    }
  }

  /** The reason why the second attempt to get a tag may give up: some request in the driver
      owns one, and will look at SCHED_RESTART after it has freed it. */
  lemma {:induction false} AllTagsAreOut(s: State, depth: nat)
    requires Tags(s, depth) && depth > 0 && s.free == 0 && !s.d.holdsTag
    ensures Outstanding(s.leaving)
  {
    var r :| r in InDrivers(s.leaving);
  }

  lemma {:induction false} DispatchKeepsTags(s: State, budget: bool, answer: Answer, depth: nat)
    requires Tags(s, depth) && (s.d.at.Queue? ==> s.d.list != [] && s.d.list[0] !in s.leaving)
    ensures Tags(DispatchStep(s, budget, answer), depth)
  {
    if s.d.at.Queue? { AcceptGrows(s.leaving, s.d.list[0]); }
  }

  lemma {:induction false} WakeStays(s: State, s': State)
    requires Wake(s) && (s.runPending ==> s'.runPending) && (s.restart ==> s'.restart) && (s.devResource ==> s'.devResource)
    requires forall r | r in s.leaving :: r in s'.leaving && s'.leaving[r] == s.leaving[r]
    ensures Wake(s')
  {
    if Running(s.leaving) { var r :| r in s.leaving && s.leaving[r] == Cleared; assert r in s'.leaving; }
    if Outstanding(s.leaving) { var r :| r in s.leaving && s.leaving[r] != Cleared; assert r in s'.leaving; }
  }

  /** blk_mq_dispatch_rq_list returns only with the queue empty or somebody bound to run it. */
  lemma {:induction false} DispatchKeepsWoken(s: State, budget: bool, answer: Answer)
    requires DispatcherOk(s) && Woken(s) && (s.d.at.Queue? ==> s.d.list[0] !in s.leaving)
    ensures Woken(DispatchStep(s, budget, answer))
  {
    var s' := DispatchStep(s, budget, answer);
    if Wake(s) { WakeStays(s, s'); }
    if s.d.at.Splice? && s.d.list == [] && s.d.zone == [] { assert s.dispatch + s.d.list + s.d.zone == s.dispatch; }
  }

  lemma {:induction false} GivesUpSafely(s: State, budget: bool, answer: Answer, depth: nat)
    requires DispatcherOk(s) && Tags(s, depth) && depth > 0
    ensures GaveUpSafely(DispatchStep(s, budget, answer))
  {
    if s.d.at.TagRetry? && s.free == 0 { AllTagsAreOut(s, depth); }
  }

  lemma {:induction false} AnsweredOk(d: Dispatcher, answer: Answer, pre: bool)
    requires LocalsOk(d) && d.at.Queue?
    ensures LocalsOk(Answered(d, answer, pre))
  {}

  lemma {:induction false} TaggedOk(s: State, failed: At, why: Reason)
    requires LocalsOk(s.d) && (s.d.at.Loop? || s.d.at.TagRetry?)
    requires (failed.TagMark? && why == s.d.why) || (failed.Splice? && why == NoTag)
    ensures LocalsOk(Tagged(s, failed, why))
  {}

  lemma {:induction false} SimpleLocalsOk(s: State, budget: bool, answer: Answer)
    requires LocalsOk(s.d) && !s.d.at.Queue? && !s.d.at.Loop? && !s.d.at.TagRetry?
    ensures LocalsOk(NextLocals(s, budget, answer))
  {}

  lemma {:induction false} LoopLocalsOk(s: State, budget: bool, answer: Answer)
    requires LocalsOk(s.d) && (s.d.at.Queue? || s.d.at.Loop? || s.d.at.TagRetry?)
    ensures LocalsOk(NextLocals(s, budget, answer))
  {
    if s.d.at.Queue? { AnsweredOk(s.d, answer, Prefetches(s)); }
    else if s.d.at.Loop? { TaggedOk(s, TagMark, s.d.why); }
    else { TaggedOk(s, Splice, NoTag); }
  }

  lemma {:induction false} LocalsStayOk(s: State, budget: bool, answer: Answer)
    requires LocalsOk(s.d)
    ensures LocalsOk(NextLocals(s, budget, answer))
  {
    if s.d.at.Queue? || s.d.at.Loop? || s.d.at.TagRetry? { LoopLocalsOk(s, budget, answer); }
    else { SimpleLocalsOk(s, budget, answer); }
  }

  lemma {:induction false} LeavesSafely(s: State, budget: bool, answer: Answer)
    requires DispatcherOk(s)
    ensures MayLeave(DispatchStep(s, budget, answer))
  {
    if s.d.at.Check? {
      LeavesWoken(s, budget, answer);
    } else if s.d.at.Splice? {
      SpliceLeaves(s, budget, answer);
    } else {
      GoesOn(s, budget, answer);
      NotLeaving(DispatchStep(s, budget, answer), NextLocals(s, budget, answer));
    }
  }

  lemma {:induction false} NotLeaving(s: State, d: Dispatcher)
    requires s.d == d && !d.at.Check? && !d.at.Act?
    ensures MayLeave(s)
  {}

  lemma {:induction false} SpliceLeaves(s: State, budget: bool, answer: Answer)
    requires s.d.at.Splice?
    ensures MayLeave(DispatchStep(s, budget, answer))
  {
    assert NextLocals(s, budget, answer).at.Check? ==> s.d.list != [] || s.d.zone != [];
  }

  /** The other steps do not bring the dispatcher to the end. */
  lemma {:induction false} GoesOn(s: State, budget: bool, answer: Answer)
    requires !s.d.at.Splice? && !s.d.at.Check?
    ensures var at := NextLocals(s, budget, answer).at; !at.Check? && !at.Act?
  {
    match s.d.at {
      case Queue =>
        if s.d.list != [] {
          AnswerGoesOn(s.d, answer, Prefetches(s));
        }
      case Loop => assert Tagged(s, TagMark, s.d.why).at.Queue? || Tagged(s, TagMark, s.d.why).at.TagMark?;
      case TagRetry => assert Tagged(s, Splice, NoTag).at.Queue? || Tagged(s, Splice, NoTag).at.Splice?;
      case _ =>
    }
  }

  lemma {:induction false} AnswerGoesOn(d: Dispatcher, answer: Answer, prefetched: bool)
    requires d.list != []
    ensures var at := Answered(d, answer, prefetched).at; at.Splice? || at.Loop?
  {}

  lemma {:induction false} LeavesWoken(s: State, budget: bool, answer: Answer)
    requires DispatcherOk(s) && s.d.at.Check?
    ensures MayLeave(DispatchStep(s, budget, answer))
  {}

  lemma {:induction false} DispatchKeepsInv(s: State, budget: bool, answer: Answer, depth: nat)
    requires Inv(s, depth) && depth > 0
    ensures Inv(DispatchStep(s, budget, answer), depth)
  {
    if s.d.at.Queue? && s.d.list[0] in s.leaving { LeavingIsElsewhere(s, s.d.list[0]); }
    DispatchConserves(s, budget, answer);
    DispatchKeepsTags(s, budget, answer, depth);
    DispatchKeepsWoken(s, budget, answer);
    GivesUpSafely(s, budget, answer, depth);
    LocalsStayOk(s, budget, answer);
    LeavesSafely(s, budget, answer);
  }

  // ===== all runs

  lemma {:induction false} FreshKeepsPlaces(s: State, list: seq<Rid>)
    requires OnePlaceEach(s) && Fresh(s, list)
    ensures forall r :: (Everyone(s) + multiset(list))[r] <= 1
  {
    forall r ensures (Everyone(s) + multiset(list))[r] <= 1 {
      assert Everyone(s)[r] <= 1;
      if r in list { NoRepeatIsOne(list, r); } else { assert multiset(list)[r] == 0; }
    }
  }

  lemma {:induction false} NoRepeatIsOne(list: seq<Rid>, r: Rid)
    requires forall i, j | 0 <= i < j < |list| :: list[i] != list[j]
    ensures multiset(list)[r] <= 1
  {
    if list != [] {
      var last := |list| - 1;
      NoRepeatIsOne(list[..last], r);
      assert list == list[..last] + [list[last]];
      assert list[last] !in list[..last];
    }
  }

  lemma {:induction false} InsertKeepsInv(s: State, r: Rid, depth: nat)
    requires Inv(s, depth)
    ensures Inv(Apply(s, Insert(r)), depth)
  {
    if Fresh(s, [r]) {
      FreshKeepsPlaces(s, [r]);
      var s' := Apply(s, Insert(r));
      assert Everyone(s') == Everyone(s) + multiset([r]);
    }
  }

  lemma {:induction false} TakeKeepsInv(s: State, depth: nat, pending: bool)
    requires Inv(s, depth) && s.d.at.Idle?
    ensures Inv(TakeDispatch(s.(runPending := pending)), depth)
  {
    assert Everyone(TakeDispatch(s.(runPending := pending))) == Everyone(s);
  }

  lemma {:induction false} SchedulerKeepsInv(s: State, list: seq<Rid>, depth: nat)
    requires Inv(s, depth)
    ensures Inv(Apply(s, FromScheduler(list)), depth)
  {
    var s' := Apply(s, FromScheduler(list));
    if s' != s {
      FreshKeepsPlaces(s, list);
      assert Everyone(s') == Everyone(s) + multiset(list);
    }
  }

  lemma {:induction false} StepKeepsInv(s: State, step: Step, depth: nat)
    requires Inv(s, depth) && depth > 0
    ensures Inv(Apply(s, step), depth)
  {
    match step
    case Insert(r) => InsertKeepsInv(s, r, depth);
    case RunWork => if s.d.at.Idle? && s.runPending { TakeKeepsInv(s, depth, false); }
    case RunNow => if s.d.at.Idle? { TakeKeepsInv(s, depth, s.runPending); }
    case FromScheduler(list) => SchedulerKeepsInv(s, list, depth);
    case Dispatch(budget, answer) => DispatchKeepsInv(s, budget, answer, depth);
    case Leave(r) => LeaveKeepsInv(s, r, depth);
  }

  lemma {:induction false} RunKeepsInv(depth: nat, steps: seq<Step>)
    requires depth > 0
    ensures Inv(Run(depth, steps), depth)
  {
    if steps != [] {
      RunKeepsInv(depth, steps[..|steps| - 1]);
      StepKeepsInv(Run(depth, steps[..|steps| - 1]), steps[|steps| - 1], depth);
    }
  }

  /** No lost restart.  In every run, whenever the dispatcher has returned and hctx->dispatch is
      not empty: a queue run is pending, or a finishing request that cleared SCHED_RESTART is
      about to run the queue, or SCHED_RESTART is set and a request on its way out has yet to
      clear it, or the driver answered BLK_STS_DEV_RESOURCE. */
  lemma {:induction false} NoLostRestart(depth: nat, steps: seq<Step>)
    requires depth > 0
    ensures var s := Run(depth, steps);
            s.d.at.Idle? && s.dispatch != [] ==>
              || s.runPending
              || (exists r :: r in s.leaving && s.leaving[r] == Cleared)
              || (s.restart && exists r :: r in s.leaving && s.leaving[r] != Cleared)
              || s.devResource
  {
    RunKeepsInv(depth, steps);
  }

  /** Hence no request is stranded: once everything queued to the driver has gone, anything left
      on hctx->dispatch has a queue run pending, unless the driver promised to do it itself. */
  lemma {:induction false} NothingIsStranded(depth: nat, steps: seq<Step>)
    requires depth > 0
    ensures var s := Run(depth, steps);
            s.d.at.Idle? && s.dispatch != [] && s.leaving == map[] && !s.devResource ==> s.runPending
  {
    NoLostRestart(depth, steps);
  }

  /** In every run every request is in exactly one place, and every driver tag is free, owned by
      a request in the driver or held by the dispatcher for the first request of its list. */
  lemma {:induction false} RequestsAndTagsAreConserved(depth: nat, steps: seq<Step>, r: Rid)
    requires depth > 0
    ensures var s := Run(depth, steps);
            && multiset(s.dispatch)[r] + multiset(s.d.list)[r] + multiset(s.d.zone)[r] + One(r in s.leaving) <= 1
            && s.free + |InDrivers(s.leaving)| + One(s.d.holdsTag) == depth
  {
    RunKeepsInv(depth, steps);
    var s := Run(depth, steps);
    assert Everyone(s)[r] <= 1;
    assert multiset(s.leaving.Keys)[r] == One(r in s.leaving);
  }
}
