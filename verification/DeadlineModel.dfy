/** The mq-deadline scheduler with the elevator's indexes and the merge code
    (block/mq-deadline.c, block/elevator.c, block/blk-merge.c), on a device that is not
    zoned and for requests that are not discards.

    A red-black tree is its in-order sequence; a list is a sequence.  The end-sector hash
    remembers under which key each request was put in, because a merge changes a request's
    end before the request is put in again. */
module DeadlineModel {
  import opened Sequences

  type Rid = nat
  datatype Dir = READ | WRITE
  datatype Maybe = Nobody | Just(rq: Rid)

  /** `kind` stands for everything two requests must share to be merged: operation, disk,
      write hint, priority, cgroup. */
  datatype Rq = Rq(dir: Dir, pos: nat, len: nat, kind: nat, segs: nat, mergeable: bool, fifoTime: nat)
  datatype Bio = Bio(dir: Dir, pos: nat, len: nat, kind: nat, segs: nat, mergeable: bool)
  type Table = map<Rid, Rq>

  /** Settings of the scheduler and limits of the queue; `bucket` is the hash function. */
  datatype Config = Config(fifoBatch: nat, writesStarved: nat, readExpire: nat, writeExpire: nat,
                           maxSectors: nat, maxSegs: nat, frontMerges: bool, nomerges: bool, noxmerges: bool,
                           bucket: nat -> nat)

  /** sort_list, fifo_list and next_rq of one direction. */
  datatype Lane = Lane(sort: seq<Rid>, fifo: seq<Rid>, next: Maybe)

  /** The merge hash, in the order in which a bucket is searched, with the key under which
      each request was added; and q->last_merge. */
  datatype Index = Index(hash: seq<Rid>, key: map<Rid, nat>, last: Maybe)

  datatype Sched = Sched(t: Table, read: Lane, write: Lane, ix: Index, dispatch: seq<Rid>, batching: nat, starved: nat) {
    function At(d: Dir): Lane { if d.READ? then read else write }
  }

  const BLANK := Rq(READ, 0, 0, 0, 0, false, 0)
  function Get(t: Table, r: Rid): Rq { if r in t then t[r] else BLANK }
  function End(rq: Rq): nat { rq.pos + rq.len }

  const EMPTY_LANE := Lane([], [], Nobody)
  function Initial(): Sched { Sched(map[], EMPTY_LANE, EMPTY_LANE, Index([], map[], Nobody), [], 0, 0) }

  // ----- tree and list primitives

  /** elv_rb_add: after every request that starts at or before `r`. */
  function RbAdd(t: Table, sort: seq<Rid>, r: Rid): seq<Rid> {
    if sort == [] then [r]
    else if Get(t, r).pos < Get(t, sort[0]).pos then [r] + sort
    else [sort[0]] + RbAdd(t, sort[1..], r)
  }

  /** rb_next and rb_prev */
  function Latter(sort: seq<Rid>, r: Rid): Maybe {
    if |sort| < 2 then Nobody else if sort[0] == r then Just(sort[1]) else Latter(sort[1..], r)
  }

  function Former(sort: seq<Rid>, r: Rid): Maybe {
    if |sort| < 2 then Nobody else if sort[1] == r then Just(sort[0]) else Former(sort[1..], r)
  }

  /** elv_rb_find */
  function RbFind(t: Table, sort: seq<Rid>, pos: nat): Maybe {
    if sort == [] then Nobody else if Get(t, sort[0]).pos == pos then Just(sort[0]) else RbFind(t, sort[1..], pos)
  }

  function InsertAfter(l: seq<Rid>, y: Rid, x: Rid): seq<Rid> {
    if l == [] then [] else if l[0] == y then [y, x] + l[1..] else [l[0]] + InsertAfter(l[1..], y, x)
  }

  /** The fifo after `req` took over `next`: if `next` expires earlier, `req` moves to its
      place (list_move); `next` leaves in any case. */
  function FifoMerge(fifo: seq<Rid>, req: Rid, next: Rid, swap: bool): seq<Rid> {
    Remove(if swap then InsertAfter(Remove(fifo, req), next, req) else fifo, next)
  }

  // ----- the merge hash

  datatype Found = Found(rq: Maybe, hash: seq<Rid>)

  /** elv_rqhash_find: search the bucket of `x`; requests that may no longer be merged are
      dropped from the hash on the way. */
  function HashFind(c: Config, t: Table, hash: seq<Rid>, key: map<Rid, nat>, x: nat): Found {
    if hash == [] then Found(Nobody, [])
    else
      var r := hash[0];
      var rest := HashFind(c, t, hash[1..], key, x);
      if r !in key || c.bucket(key[r]) != c.bucket(x) then Found(rest.rq, [r] + rest.hash)
      else if !Get(t, r).mergeable then rest
      else if End(Get(t, r)) == x then Found(Just(r), hash)
      else Found(rest.rq, [r] + rest.hash)
  }

  function Purge(s: Sched, hash: seq<Rid>): Sched { s.(ix := s.ix.(hash := hash)) }

  /** elv_rqhash_reposition, or elv_rqhash_add of a request that is not in the hash */
  function Rehash(ix: Index, r: Rid, end: nat, last: Maybe): Index {
    Index([r] + Remove(ix.hash, r), ix.key[r := end], last)
  }

  // ----- taking a request out: deadline_remove_request

  function DropFromLane(l: Lane, r: Rid): Lane {
    Lane(Remove(l.sort, r), Remove(l.fifo, r), if l.next == Just(r) then Latter(l.sort, r) else l.next)
  }

  function Forget(ix: Index, r: Rid): Index {
    Index(Remove(ix.hash, r), ix.key, if ix.last == Just(r) then Nobody else ix.last)
  }

  function Drop(s: Sched, r: Rid): Sched {
    var d := Get(s.t, r).dir;
    s.(read := if d.READ? then DropFromLane(s.read, r) else s.read,
       write := if d.WRITE? then DropFromLane(s.write, r) else s.write,
       ix := Forget(s.ix, r))
  }

  // ----- one request takes over the next: attempt_merge, dd_merged_requests, elv_merge_requests

  /** Requests that may be merged carry data. */
  predicate CanAbsorb(c: Config, t: Table, req: Rid, next: Rid) {
    var a, b := Get(t, req), Get(t, next);
    && a.mergeable && b.mergeable && a.dir == b.dir && a.kind == b.kind && a.len > 0
    && End(a) == b.pos
    && a.len + b.len <= c.maxSectors && a.segs + b.segs <= c.maxSegs
  }

  /** `next` is on the same fifo as `req` and expires before it. */
  predicate Swaps(s: Sched, req: Rid, next: Rid) {
    var fifo := s.At(Get(s.t, req).dir).fifo;
    req in fifo && next in fifo && Get(s.t, next).fifoTime < Get(s.t, req).fifoTime
  }

  function Joined(a: Rq, b: Rq, swap: bool): Rq {
    a.(len := a.len + b.len, segs := a.segs + b.segs, fifoTime := if swap then b.fifoTime else a.fifoTime)
  }

  function AbsorbInLane(l: Lane, req: Rid, next: Rid, swap: bool): Lane {
    Lane(Remove(l.sort, next), FifoMerge(l.fifo, req, next, swap), if l.next == Just(next) then Latter(l.sort, next) else l.next)
  }

  function Absorb(s: Sched, req: Rid, next: Rid): Sched {
    var swap := Swaps(s, req, next);
    var rq := Joined(Get(s.t, req), Get(s.t, next), swap);
    s.(t := s.t[req := rq],
       read := if rq.dir.READ? then AbsorbInLane(s.read, req, next, swap) else s.read,
       write := if rq.dir.WRITE? then AbsorbInLane(s.write, req, next, swap) else s.write,
       ix := Rehash(Forget(s.ix, next), req, End(rq), Just(req)))
  }

  // ----- insertion: dd_insert_request

  /** The loop of elv_attempt_insert_merge: `r` was joined to its predecessor, which may now
      be joined to its own. */
  function MergeDown(c: Config, s: Sched, r: Rid): Sched
    decreases Get(s.t, r).pos
  {
    var f := HashFind(c, s.t, s.ix.hash, s.ix.key, Get(s.t, r).pos);
    var s1 := Purge(s, f.hash);
    if f.rq.Nobody? || !CanAbsorb(c, s.t, f.rq.rq, r) then s1
    else MergeDown(c, Absorb(s1, f.rq.rq, r), f.rq.rq)
  }

  /** What elv_attempt_insert_merge joins the new request `r` to first, if anything. */
  function InsertTarget(c: Config, s: Sched, r: Rid): Maybe {
    if !Get(s.t, r).mergeable || c.nomerges then Nobody
    else if s.ix.last.Just? && CanAbsorb(c, s.t, s.ix.last.rq, r) then s.ix.last
    else if c.noxmerges then Nobody
    else
      var f := HashFind(c, s.t, s.ix.hash, s.ix.key, Get(s.t, r).pos).rq;
      if f.Just? && CanAbsorb(c, s.t, f.rq, r) then f else Nobody
  }

  function LaneInsert(t: Table, l: Lane, r: Rid): Lane { Lane(RbAdd(t, l.sort, r), l.fifo + [r], l.next) }

  function Enqueue(c: Config, s: Sched, r: Rid, now: nat): Sched {
    var rq := Get(s.t, r).(fifoTime := now + if Get(s.t, r).dir.READ? then c.readExpire else c.writeExpire);
    var t := s.t[r := rq];
    s.(t := t,
       read := if rq.dir.READ? then LaneInsert(t, s.read, r) else s.read,
       write := if rq.dir.WRITE? then LaneInsert(t, s.write, r) else s.write,
       ix := if !rq.mergeable then s.ix
             else Rehash(s.ix, r, End(rq), if s.ix.last.Nobody? then Just(r) else s.ix.last))
  }

  /** The hash is searched, and cleaned on the way, even if nothing comes of it. */
  function AfterSearch(c: Config, s: Sched, r: Rid): Sched {
    if !Get(s.t, r).mergeable || c.nomerges || c.noxmerges || (s.ix.last.Just? && CanAbsorb(c, s.t, s.ix.last.rq, r)) then s
    else Purge(s, HashFind(c, s.t, s.ix.hash, s.ix.key, Get(s.t, r).pos).hash)
  }

  function InsertRequest(c: Config, s: Sched, r: Rid, atHead: bool, passthrough: bool, now: nat): Sched {
    var target := InsertTarget(c, s, r);
    var s1 := AfterSearch(c, s, r);
    if target.Just? then
      var s2 := Absorb(s1, target.rq, r);
      // a hit of last_merge ends the attempt, a hit of the hash goes on
      if s.ix.last == target && CanAbsorb(c, s.t, target.rq, r) then s2 else MergeDown(c, s2, target.rq)
    else if atHead then s1.(dispatch := [r] + s1.dispatch)
    else if passthrough then s1.(dispatch := s1.dispatch + [r])
    else Enqueue(c, s1, r, now)
  }

  // ----- merging a bio: elv_merge, blk_mq_sched_try_merge

  datatype MergeType = NoMerge | BackMerge(target: Rid) | FrontMerge(target: Rid)

  predicate BioMergeOk(t: Table, r: Rid, bio: Bio) {
    var rq := Get(t, r);
    rq.mergeable && bio.mergeable && rq.dir == bio.dir && rq.kind == bio.kind
  }

  /** blk_try_merge */
  function TryMerge(t: Table, r: Rid, bio: Bio): MergeType {
    if End(Get(t, r)) == bio.pos then BackMerge(r)
    else if Get(t, r).pos == bio.pos + bio.len then FrontMerge(r)
    else NoMerge
  }

  /** The one-hit cache of elv_merge. */
  function CacheHit(s: Sched, bio: Bio): MergeType {
    if s.ix.last.Just? && BioMergeOk(s.t, s.ix.last.rq, bio) then TryMerge(s.t, s.ix.last.rq, bio) else NoMerge
  }

  /** dd_request_merge */
  function FrontHit(c: Config, s: Sched, bio: Bio): MergeType {
    var f := RbFind(s.t, s.At(bio.dir).sort, bio.pos + bio.len);
    if c.frontMerges && f.Just? && BioMergeOk(s.t, f.rq, bio) then FrontMerge(f.rq) else NoMerge
  }

  predicate Searches(c: Config, s: Sched, bio: Bio) {
    !c.nomerges && bio.mergeable && CacheHit(s, bio).NoMerge? && !c.noxmerges
  }

  function ElvMerge(c: Config, s: Sched, bio: Bio): MergeType {
    if c.nomerges || !bio.mergeable then NoMerge
    else if !CacheHit(s, bio).NoMerge? then CacheHit(s, bio)
    else if c.noxmerges then NoMerge
    else
      var f := HashFind(c, s.t, s.ix.hash, s.ix.key, bio.pos).rq;
      if f.Just? && BioMergeOk(s.t, f.rq, bio) then BackMerge(f.rq) else FrontHit(c, s, bio)
  }

  /** ll_back_merge_fn and ll_front_merge_fn: the limits. */
  predicate Fits(c: Config, rq: Rq, bio: Bio) { rq.len + bio.len <= c.maxSectors && rq.segs + bio.segs <= c.maxSegs }

  /** req_set_nomerge */
  function SetNoMerge(s: Sched, r: Rid): Sched {
    s.(t := s.t[r := Get(s.t, r).(mergeable := false)],
       ix := s.ix.(last := if s.ix.last == Just(r) then Nobody else s.ix.last))
  }

  function Grown(rq: Rq, bio: Bio, pos: nat): Rq { rq.(pos := pos, len := rq.len + bio.len, segs := rq.segs + bio.segs) }

  function BackMergeBio(c: Config, s: Sched, r: Rid, bio: Bio): Sched {
    var rq := Grown(Get(s.t, r), bio, Get(s.t, r).pos);
    var s1 := s.(t := s.t[r := rq]);
    var next := Latter(s.At(rq.dir).sort, r);
    if next.Just? && CanAbsorb(c, s1.t, r, next.rq) then Absorb(s1, r, next.rq)
    else s1.(ix := Rehash(s1.ix, r, End(rq), Just(r)))
  }

  /** dd_request_merged after a front merge: take the request out of the tree and put it back. */
  function Reposition(t: Table, l: Lane, r: Rid): Lane { l.(sort := RbAdd(t, Remove(l.sort, r), r)) }

  function FrontMergeBio(c: Config, s: Sched, r: Rid, bio: Bio): Sched {
    var rq := Grown(Get(s.t, r), bio, bio.pos);
    var s1 := s.(t := s.t[r := rq]);
    var prev := Former(s.At(rq.dir).sort, r);
    if prev.Just? && CanAbsorb(c, s1.t, prev.rq, r) then Absorb(s1, prev.rq, r)
    else s1.(read := if rq.dir.READ? then Reposition(s1.t, s1.read, r) else s1.read,
             write := if rq.dir.WRITE? then Reposition(s1.t, s1.write, r) else s1.write,
             ix := s1.ix.(last := Just(r)))
  }

  /** The hash is cleaned by the search. */
  function AfterLook(c: Config, s: Sched, bio: Bio): Sched {
    if Searches(c, s, bio) then Purge(s, HashFind(c, s.t, s.ix.hash, s.ix.key, bio.pos).hash) else s
  }

  function MergeInto(c: Config, s: Sched, m: MergeType, bio: Bio): Sched {
    match m
    case NoMerge => s
    case BackMerge(r) => if Fits(c, Get(s.t, r), bio) then BackMergeBio(c, s, r, bio) else SetNoMerge(s, r)
    case FrontMerge(r) => if Fits(c, Get(s.t, r), bio) then FrontMergeBio(c, s, r, bio) else SetNoMerge(s, r)
  }

  function MergeBio(c: Config, s: Sched, bio: Bio): Sched { MergeInto(c, AfterLook(c, s, bio), ElvMerge(c, s, bio), bio) }

  // ----- dispatch: __dd_dispatch_request

  /** The request to dispatch from the lists, whether it starts a new batch, and how often
      reads have now starved writes. */
  datatype Choice = Nothing | Chosen(rq: Rid, dir: Dir, anew: bool, starved: nat)

  /** dispatch_find_request: the expired or first one of the fifo, or the next in sector order. */
  function FindIn(t: Table, l: Lane, now: nat): Rid
    requires l.fifo != []
  {
    if now >= Get(t, l.fifo[0]).fifoTime || l.next.Nobody? then l.fifo[0] else l.next.rq
  }

  function Choose(c: Config, s: Sched, now: nat): Choice {
    var next := if s.write.next.Just? then s.write.next else s.read.next;
    if next.Just? && s.batching < c.fifoBatch then
      Chosen(next.rq, if s.write.next.Just? then WRITE else READ, false, s.starved)
    else if s.read.fifo != [] && !(s.write.fifo != [] && s.starved >= c.writesStarved) then
      Chosen(FindIn(s.t, s.read, now), READ, true, if s.write.fifo != [] then s.starved + 1 else s.starved)
    else if s.write.fifo != [] then
      Chosen(FindIn(s.t, s.write, now), WRITE, true, 0)
    else Nothing
  }

  /** deadline_move_request */
  function MoveRequest(s: Sched, r: Rid): Sched {
    var d := Get(s.t, r).dir;
    Drop(s.(read := s.read.(next := if d.READ? then Latter(s.read.sort, r) else Nobody),
            write := s.write.(next := if d.WRITE? then Latter(s.write.sort, r) else Nobody)), r)
  }

  function Dispatch(c: Config, s: Sched, now: nat): Sched {
    if s.dispatch != [] then s.(dispatch := s.dispatch[1..])
    else
      match Choose(c, s, now)
      case Nothing => s
      case Chosen(r, _, anew, starved) =>
        MoveRequest(s.(batching := if anew then 1 else s.batching + 1, starved := starved), r)
  }

  // ----- runs

  datatype Step =
    | Insert(r: Rid, rq: Rq, atHead: bool, passthrough: bool, now: nat)
    | Merge(bio: Bio)
    | Take(now: nat)

  function Apply(c: Config, s: Sched, step: Step): Sched {
    match step
    case Insert(r, rq, atHead, passthrough, now) =>
      // a request is new when it is inserted, and carries data if it may be merged
      if r in s.t || (rq.mergeable && rq.len == 0) then s
      else InsertRequest(c, s.(t := s.t[r := rq]), r, atHead, passthrough, now)
    case Merge(bio) => MergeBio(c, s, bio)
    case Take(now) => Dispatch(c, s, now)
  }

  function Run(c: Config, steps: seq<Step>): Sched {
    if steps == [] then Initial() else Apply(c, Run(c, steps[..|steps| - 1]), steps[|steps| - 1])
  }
}
