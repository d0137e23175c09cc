/**
 * The Kyber scheduler's dispatch (block/kyber-iosched.c). Four domains take turns; each has requests
 * flushed from per-context lists, a bitmap of the contexts that have some, and device-wide tokens.
 */
module KyberModel {

  const NUM_DOMAINS: nat := 4

  /** kyber_batch_size. */
  function Batch(d: nat): nat { if d == 0 then 16 else if d == 1 then 8 else 1 }

  /** `rqs`: flushed requests; `kcq`: the lists of the contexts; `bits`: kcq_map; tokens free and in use. */
  datatype Domain = Domain(rqs: seq<nat>, kcq: seq<seq<nat>>, bits: set<nat>, free: nat, used: nat)

  datatype State = State(doms: seq<Domain>, cur: nat, batching: nat)

  /** A bit is set exactly for a context whose list is not empty. */
  ghost predicate BitsOk(m: Domain) {
    forall c: nat :: c in m.bits <==> c < |m.kcq| && m.kcq[c] != []
  }

  ghost predicate Inv(s: State) {
    && |s.doms| == NUM_DOMAINS && s.cur < NUM_DOMAINS && s.batching <= Batch(s.cur)
    && (forall d :: 0 <= d < NUM_DOMAINS ==> BitsOk(s.doms[d]))
  }

  // ---- kyber_insert_requests, kyber_finish_request

  function InsertInto(m: Domain, c: nat, rq: nat, atHead: bool): Domain
    requires c < |m.kcq|
  {
    m.(kcq := m.kcq[c := if atHead then [rq] + m.kcq[c] else m.kcq[c] + [rq]], bits := m.bits + {c})
  }

  function Finish(m: Domain): Domain
    requires m.used > 0
  {
    m.(free := m.free + 1, used := m.used - 1)
  }

  // ---- kyber_flush_busy_kcqs

  /** flush_busy_kcq for one context. */
  function FlushOne(m: Domain, c: nat): Domain
    requires c < |m.kcq|
  {
    if c in m.bits then m.(rqs := m.rqs + m.kcq[c], kcq := m.kcq[c := []], bits := m.bits - {c}) else m
  }

  /** The contexts from `c` on, in order. */
  function Flush(m: Domain, c: nat): Domain
    decreases |m.kcq| - c
  {
    if c < |m.kcq| then Flush(FlushOne(m, c), c + 1) else m
  }

  /** The requests of the contexts from `c` on, one list after another. */
  ghost function Pending(kcq: seq<seq<nat>>, c: nat): seq<nat>
    decreases |kcq| - c
  {
    if c < |kcq| then kcq[c] + Pending(kcq, c + 1) else []
  }

  lemma {:induction false} PendingPast(kcq: seq<seq<nat>>, c: nat, k: nat, x: seq<nat>)
    requires k < |kcq| && k < c
    ensures Pending(kcq[k := x], c) == Pending(kcq, c)
    decreases |kcq| - c
  {
    if c < |kcq| {
      PendingPast(kcq, c + 1, k, x);
    }
  }

  /** A flush moves every waiting request, in context order, and leaves nothing behind. */
  lemma {:induction false} FlushMovesAll(m: Domain, c: nat)
    requires BitsOk(m) && c <= |m.kcq|
    ensures Flush(m, c).rqs == m.rqs + Pending(m.kcq, c)
    ensures |Flush(m, c).kcq| == |m.kcq|
    ensures forall k :: 0 <= k < |m.kcq| ==> Flush(m, c).kcq[k] == if k < c then m.kcq[k] else []
    ensures BitsOk(Flush(m, c)) && Flush(m, c).free == m.free && Flush(m, c).used == m.used
    decreases |m.kcq| - c
  {
    if c < |m.kcq| {
      var n := FlushOne(m, c);
      assert BitsOk(n);
      FlushMovesAll(n, c + 1);
      if c in m.bits {
        PendingPast(m.kcq, c + 1, c, []);
      }
      assert n.rqs + Pending(n.kcq, c + 1) == m.rqs + Pending(m.kcq, c);
    }
  }

  lemma {:induction false} PendingSome(kcq: seq<seq<nat>>, c: nat, k: nat)
    requires c <= k < |kcq| && kcq[k] != []
    ensures Pending(kcq, c) != []
    decreases |kcq| - c
  {
    if c < k {
      PendingSome(kcq, c + 1, k);
    }
  }

  /** Any set bit means that a flush yields a request. */
  lemma {:induction false} FlushYields(m: Domain)
    requires BitsOk(m) && m.bits != {}
    ensures Flush(m, 0).rqs != []
  {
    var k :| k in m.bits;
    FlushMovesAll(m, 0);
    PendingSome(m.kcq, 0, k);
  }

  // ---- inserts while a flush is under way: each context has its own lock

  datatype Ins = Ins(c: nat, rq: nat, atHead: bool)

  /** One context is flushed, or somebody inserts. */
  datatype Turn = FlushNext | InsertNow(ins: Ins)

  function InsertAll(m: Domain, l: seq<Ins>): (n: Domain)
    requires forall i :: 0 <= i < |l| ==> l[i].c < |m.kcq|
    ensures |n.kcq| == |m.kcq|
    decreases |l|
  {
    if l == [] then m else InsertAll(InsertInto(m, l[0].c, l[0].rq, l[0].atHead), l[1..])
  }

  ghost predicate TurnsOk(turns: seq<Turn>, nr: nat, p: nat) {
    && p <= nr
    && (turns == [] || match turns[0] {
          case FlushNext => p < nr && TurnsOk(turns[1..], nr, p + 1)
          case InsertNow(i) => i.c < nr && TurnsOk(turns[1..], nr, p)
        })
    && (turns == [] ==> p == nr)
  }

  /** A flush that has reached context `p`, with inserts between its turns. */
  ghost function Interleave(m: Domain, turns: seq<Turn>, p: nat): Domain
    requires TurnsOk(turns, |m.kcq|, p)
    decreases |turns|
  {
    if turns == [] then m
    else match turns[0]
      case FlushNext => Interleave(FlushOne(m, p), turns[1..], p + 1)
      case InsertNow(i) => Interleave(InsertInto(m, i.c, i.rq, i.atHead), turns[1..], p)
  }

  /** The inserts into contexts the flush has passed, or has not. */
  ghost function Inserted(turns: seq<Turn>, p: nat, passed: bool): (l: seq<Ins>)
    ensures !passed ==> forall i :: 0 <= i < |l| ==> p <= l[i].c
    decreases |turns|
  {
    if turns == [] then []
    else match turns[0]
      case FlushNext => Inserted(turns[1..], p + 1, passed)
      case InsertNow(i) => (if (i.c < p) == passed then [i] else []) + Inserted(turns[1..], p, passed)
  }

  lemma {:induction false} InsertedOk(turns: seq<Turn>, nr: nat, p: nat, passed: bool)
    requires TurnsOk(turns, nr, p)
    ensures forall i :: 0 <= i < |Inserted(turns, p, passed)| ==> Inserted(turns, p, passed)[i].c < nr
    decreases |turns|
  {
    if turns != [] {
      InsertedOk(turns[1..], nr, if turns[0].FlushNext? then p + 1 else p, passed);
    }
  }

  lemma {:induction false} InsertsCommute(m: Domain, i: Ins, l: seq<Ins>)
    requires i.c < |m.kcq| && forall k :: 0 <= k < |l| ==> l[k].c < |m.kcq| && l[k].c != i.c
    ensures (InsertAll(InsertInto(m, i.c, i.rq, i.atHead), l) == InsertInto(InsertAll(m, l), i.c, i.rq, i.atHead))
    decreases |l|
  {
    if l != [] {
      InsertsCommute(InsertInto(m, l[0].c, l[0].rq, l[0].atHead), i, l[1..]);
      TwoInserts(m, i, l[0]);
    }
  }

  lemma {:induction false} TwoInserts(m: Domain, i: Ins, j: Ins)
    requires i.c < |m.kcq| && j.c < |m.kcq| && i.c != j.c
    ensures (InsertInto(InsertInto(m, i.c, i.rq, i.atHead), j.c, j.rq, j.atHead)
             == InsertInto(InsertInto(m, j.c, j.rq, j.atHead), i.c, i.rq, i.atHead))
  {
    var x, y := InsertInto(InsertInto(m, i.c, i.rq, i.atHead), j.c, j.rq, j.atHead),
                InsertInto(InsertInto(m, j.c, j.rq, j.atHead), i.c, i.rq, i.atHead);
    assert x.kcq == y.kcq && x.bits == y.bits;
  }

  lemma {:induction false} InsertSkipsOne(m: Domain, i: Ins, p: nat)
    requires i.c < |m.kcq| && p < |m.kcq| && i.c != p
    ensures FlushOne(InsertInto(m, i.c, i.rq, i.atHead), p) == InsertInto(FlushOne(m, p), i.c, i.rq, i.atHead)
  {
    var x, y := FlushOne(InsertInto(m, i.c, i.rq, i.atHead), p), InsertInto(FlushOne(m, p), i.c, i.rq, i.atHead);
    assert x.kcq == y.kcq && x.bits == y.bits;
  }

  lemma {:induction false} InsertsSkipOne(m: Domain, l: seq<Ins>, p: nat)
    requires p < |m.kcq| && forall k :: 0 <= k < |l| ==> l[k].c < |m.kcq| && l[k].c != p
    ensures FlushOne(InsertAll(m, l), p) == InsertAll(FlushOne(m, p), l)
    decreases |l|
  {
    if l != [] {
      InsertsSkipOne(InsertInto(m, l[0].c, l[0].rq, l[0].atHead), l[1..], p);
      InsertSkipsOne(m, l[0], p);
    }
  }

  lemma {:induction false} InsertSkipsRest(m: Domain, i: Ins, p: nat)
    requires i.c < p && i.c < |m.kcq|
    ensures |Flush(m, p).kcq| == |m.kcq|
    ensures Flush(InsertInto(m, i.c, i.rq, i.atHead), p) == InsertInto(Flush(m, p), i.c, i.rq, i.atHead)
    decreases |m.kcq| - p
  {
    if p < |m.kcq| {
      InsertSkipsOne(m, i, p);
      InsertSkipsRest(FlushOne(m, p), i, p + 1);
    }
  }

  lemma {:induction false} FlushSize(m: Domain, p: nat)
    ensures |Flush(m, p).kcq| == |m.kcq|
    decreases |m.kcq| - p
  {
    if p < |m.kcq| {
      FlushSize(FlushOne(m, p), p + 1);
    }
  }

  /** What is left when every insert into a context the flush had passed comes after it, the others before. */
  ghost function InOneGo(m: Domain, turns: seq<Turn>, p: nat): Domain
    requires TurnsOk(turns, |m.kcq|, p)
  {
    InsertedOk(turns, |m.kcq|, p, true);
    InsertedOk(turns, |m.kcq|, p, false);
    var n := InsertAll(m, Inserted(turns, p, false));
    FlushSize(n, p);
    InsertAll(Flush(n, p), Inserted(turns, p, true))
  }

  /**
   * However inserts fall between the turns of a flush, the outcome is that of the whole flush in one
   * go with each insert before it or after it.
   */
  lemma {:induction false} FlushIsAtomic(m: Domain, turns: seq<Turn>, p: nat)
    requires TurnsOk(turns, |m.kcq|, p)
    ensures Interleave(m, turns, p) == InOneGo(m, turns, p)
    decreases |turns|
  {
    if turns != [] {
      var rest := turns[1..];
      match turns[0]
      case FlushNext =>
        FlushIsAtomic(FlushOne(m, p), rest, p + 1);
        InsertedOk(rest, |m.kcq|, p + 1, false);
        InsertsSkipOne(m, Inserted(rest, p + 1, false), p);
      case InsertNow(i) =>
        FlushIsAtomic(InsertInto(m, i.c, i.rq, i.atHead), rest, p);
        if i.c < p {
          InsertPassed(m, i, rest, p);
        } else {
          InsertAhead(m, i, rest, p);
        }
    }
  }

  lemma {:induction false} InsertAhead(m: Domain, i: Ins, rest: seq<Turn>, p: nat)
    requires p <= i.c < |m.kcq| && TurnsOk([InsertNow(i)] + rest, |m.kcq|, p) && TurnsOk(rest, |m.kcq|, p)
    ensures InOneGo(m, [InsertNow(i)] + rest, p) == InOneGo(InsertInto(m, i.c, i.rq, i.atHead), rest, p)
  {
    var turns := [InsertNow(i)] + rest;
    assert turns[1..] == rest;
    assert Inserted(turns, p, false) == [i] + Inserted(rest, p, false) && Inserted(turns, p, true) == Inserted(rest, p, true);
  }

  /** The context was passed: the insert might as well come after the flush, before the later ones. */
  lemma {:induction false} InsertPassed(m: Domain, i: Ins, rest: seq<Turn>, p: nat)
    requires i.c < p && i.c < |m.kcq| && TurnsOk([InsertNow(i)] + rest, |m.kcq|, p) && TurnsOk(rest, |m.kcq|, p)
    ensures InOneGo(m, [InsertNow(i)] + rest, p) == InOneGo(InsertInto(m, i.c, i.rq, i.atHead), rest, p)
  {
    var turns, early := [InsertNow(i)] + rest, Inserted(rest, p, false);
    assert turns[1..] == rest;
    assert Inserted(turns, p, false) == early && Inserted(turns, p, true) == [i] + Inserted(rest, p, true);
    InsertedOk(rest, |m.kcq|, p, false);
    InsertsCommute(m, i, early);
    InsertSkipsRest(InsertAll(m, early), i, p);
  }

  // ---- kyber_dispatch_cur_domain, kyber_dispatch_request

  /** The domain has a request and a token for it. */
  predicate Ready(m: Domain) { (m.rqs != [] || m.bits != {}) && m.free > 0 }

  /** The requests at hand, flushed if there were none. */
  function AtHand(m: Domain): Domain { if m.rqs == [] then Flush(m, 0) else m }

  function Take(m: Domain): Domain
    requires m.free > 0 && AtHand(m).rqs != []
  {
    var n := AtHand(m);
    n.(rqs := n.rqs[1..], free := m.free - 1, used := m.used + 1)
  }

  function Succ(d: nat): (r: nat)
    ensures r < NUM_DOMAINS
  {
    if d >= NUM_DOMAINS - 1 then 0 else d + 1
  }

  /** The first ready domain after `d` within `n` turns. */
  function Search(doms: seq<Domain>, d: nat, n: nat): (r: int)
    requires |doms| == NUM_DOMAINS
    ensures r == -1 || (0 <= r < NUM_DOMAINS && Ready(doms[r]))
    decreases n
  {
    if n == 0 then -1
    else if Ready(doms[Succ(d)]) then Succ(d)
    else Search(doms, Succ(d), n - 1)
  }

  predicate Batches(s: State)
    requires |s.doms| == NUM_DOMAINS && s.cur < NUM_DOMAINS
  {
    s.batching < Batch(s.cur) && Ready(s.doms[s.cur])
  }

  /** The domain a dispatch serves, -1 for none. */
  function Served(s: State): (r: int)
    requires |s.doms| == NUM_DOMAINS && s.cur < NUM_DOMAINS
    ensures r == -1 || (0 <= r < NUM_DOMAINS && Ready(s.doms[r]))
  {
    if Batches(s) then s.cur else Search(s.doms, s.cur, NUM_DOMAINS)
  }

  ghost function Dispatch(s: State): State
    requires Inv(s)
  {
    var d := Served(s);
    if d == -1 then s.(batching := 0)
    else
      ReadyHasRequest(s.doms[d]);
      State(s.doms[d := Take(s.doms[d])], d, if Batches(s) then s.batching + 1 else 1)
  }

  lemma {:induction false} ReadyHasRequest(m: Domain)
    requires BitsOk(m) && Ready(m)
    ensures AtHand(m).rqs != []
  {
    if m.rqs == [] {
      FlushYields(m);
    }
  }

  // ---- runs

  /** Tokens are device-wide: another hardware queue may take one, and any request's comes back. */
  datatype Step =
    | Insert(dom: nat, ctx: nat, rq: nat, atHead: bool)
    | Done(dom: nat)
    | OtherTakes(dom: nat)
    | DispatchOne

  predicate Enabled(s: State, e: Step) {
    match e
    case Insert(d, c, _, _) => d < |s.doms| && c < |s.doms[d].kcq|
    case Done(d) => d < |s.doms| && s.doms[d].used > 0
    case OtherTakes(d) => d < |s.doms| && s.doms[d].free > 0
    case DispatchOne => true
  }

  ghost function Apply(s: State, e: Step): State
    requires Inv(s) && Enabled(s, e)
  {
    match e
    case Insert(d, c, rq, atHead) => s.(doms := s.doms[d := InsertInto(s.doms[d], c, rq, atHead)])
    case Done(d) => s.(doms := s.doms[d := Finish(s.doms[d])])
    case OtherTakes(d) => s.(doms := s.doms[d := s.doms[d].(free := s.doms[d].free - 1, used := s.doms[d].used + 1)])
    case DispatchOne => Dispatch(s)
  }

  lemma {:induction false} TakeKeepsBits(m: Domain)
    requires BitsOk(m) && Ready(m)
    ensures AtHand(m).rqs != [] && BitsOk(Take(m))
  {
    ReadyHasRequest(m);
    FlushMovesAll(m, 0);
  }

  lemma {:induction false} StepKeepsInv(s: State, e: Step)
    requires Inv(s) && Enabled(s, e)
    ensures Inv(Apply(s, e))
  {
    if e.DispatchOne? {
      var d := Served(s);
      if d != -1 {
        TakeKeepsBits(s.doms[d]);
      }
    }
  }

  ghost predicate Valid(s: State, run: seq<Step>)
    requires Inv(s)
    decreases |run|
  {
    |run| == 0 || (Enabled(s, run[0]) && (StepKeepsInv(s, run[0]); Valid(Apply(s, run[0]), run[1..])))
  }

  ghost function Run(s: State, run: seq<Step>): (t: State)
    requires Inv(s) && Valid(s, run)
    ensures Inv(t)
    decreases |run|
  {
    if |run| == 0 then s else StepKeepsInv(s, run[0]); Run(Apply(s, run[0]), run[1..])
  }

  // ---- nobody waits for more than the others' batches

  /** A dispatch finds nothing exactly when no domain is ready. */
  lemma {:induction false} DispatchIsWorkConserving(s: State)
    requires Inv(s)
    ensures Served(s) == -1 <==> forall d :: 0 <= d < NUM_DOMAINS ==> !Ready(s.doms[d])
  {
    var c := s.cur;
    SearchFinds(s.doms, c);
  }

  lemma {:induction false} SearchFinds(doms: seq<Domain>, c: nat)
    requires |doms| == NUM_DOMAINS && c < NUM_DOMAINS
    ensures Search(doms, c, NUM_DOMAINS) == -1 <==> forall d :: 0 <= d < NUM_DOMAINS ==> !Ready(doms[d])
  {
    var a := Succ(c);
    var b := Succ(a);
    var e := Succ(b);
    assert Succ(e) == c;
    assert Search(doms, e, 1) == (if Ready(doms[c]) then c else -1) by { assert Search(doms, c, 0) == -1; }
    assert Search(doms, b, 2) == if Ready(doms[e]) then e else Search(doms, e, 1);
    assert Search(doms, a, 3) == if Ready(doms[b]) then b else Search(doms, b, 2);
    assert Search(doms, c, 4) == if Ready(doms[a]) then a else Search(doms, a, 3);
  }

  /** The batches of the domains after `c` and before `d`. */
  function Between(c: nat, d: nat): nat {
    var a := Succ(c);
    var b := Succ(a);
    if a == d then 0 else if b == d then Batch(a) else if Succ(b) == d then Batch(a) + Batch(b)
    else Batch(a) + Batch(b) + Batch(Succ(b))
  }

  /** How many requests of others can still go before one of `d`. */
  function Rank(s: State, d: nat): nat {
    if s.cur == d then (if s.batching < Batch(d) then 0 else Between(d, d))
    else (if s.batching < Batch(s.cur) then Batch(s.cur) - s.batching else 0) + Between(s.cur, d)
  }

  /** Every other domain's batch, once. */
  lemma {:induction false} RankIsBounded(s: State, d: nat)
    requires Inv(s) && d < NUM_DOMAINS
    ensures Rank(s, d) <= 26 - Batch(d)
  {
    assert s.cur == 0 || s.cur == 1 || s.cur == 2 || s.cur == 3;
    assert d == 0 || d == 1 || d == 2 || d == 3;
  }

  /** A search that passes over domains never passes over a ready one. */
  lemma {:induction false} SearchRank(doms: seq<Domain>, c: nat, d: nat)
    requires |doms| == NUM_DOMAINS && c < NUM_DOMAINS && d < NUM_DOMAINS && Ready(doms[d])
    ensures var r := Search(doms, c, NUM_DOMAINS);
            r != -1 && (r == d || Batch(r) + Between(r, d) <= Between(c, d))
  {
    var a := Succ(c);
    var b := Succ(a);
    var e := Succ(b);
    assert Succ(e) == c;
    assert Search(doms, e, 1) == (if Ready(doms[c]) then c else -1) by { assert Search(doms, c, 0) == -1; }
    assert Search(doms, b, 2) == if Ready(doms[e]) then e else Search(doms, e, 1);
    assert Search(doms, a, 3) == if Ready(doms[b]) then b else Search(doms, b, 2);
    assert Search(doms, c, 4) == if Ready(doms[a]) then a else Search(doms, a, 3);
    assert d == a || d == b || d == e || d == c;
  }

  /** A dispatch that does not serve a ready domain brings its turn nearer. */
  lemma {:induction false} DispatchLowersRank(s: State, d: nat)
    requires Inv(s) && d < NUM_DOMAINS && Ready(s.doms[d]) && Served(s) != d
    ensures Rank(Dispatch(s), d) < Rank(s, d)
  {
    SearchRank(s.doms, s.cur, d);
  }

  /** Whenever a dispatch happens, `d` is ready and yet is not served. */
  ghost predicate Waits(s: State, d: nat, run: seq<Step>)
    requires Inv(s) && d < NUM_DOMAINS && Valid(s, run)
    decreases |run|
  {
    |run| > 0 ==>
      && (run[0].DispatchOne? ==> Ready(s.doms[d]) && Served(s) != d)
      && (StepKeepsInv(s, run[0]); Waits(Apply(s, run[0]), d, run[1..]))
  }

  ghost function Dispatches(run: seq<Step>): nat {
    if |run| == 0 then 0 else (if run[0].DispatchOne? then 1 else 0) + Dispatches(run[1..])
  }

  lemma {:induction false} WaitIsBounded(s: State, d: nat, run: seq<Step>)
    requires Inv(s) && d < NUM_DOMAINS && Valid(s, run) && Waits(s, d, run)
    ensures Dispatches(run) <= Rank(s, d)
    decreases |run|
  {
    if |run| > 0 {
      StepKeepsInv(s, run[0]);
      WaitIsBounded(Apply(s, run[0]), d, run[1..]);
      if run[0].DispatchOne? {
        DispatchLowersRank(s, d);
      } else {
        assert Rank(Apply(s, run[0]), d) == Rank(s, d);
      }
    }
  }

  /**
   * After any run, while domain `d` has a request and a token whenever a dispatch happens, at most
   * the sum of the other domains' batch sizes is dispatched before a request of `d`.
   */
  lemma {:induction false} BoundedWaiting(s: State, before: seq<Step>, d: nat, run: seq<Step>)
    requires Inv(s) && Valid(s, before) && d < NUM_DOMAINS
    requires Valid(Run(s, before), run) && Waits(Run(s, before), d, run)
    ensures Dispatches(run) <= 26 - Batch(d)
  {
    var t := Run(s, before);
    WaitIsBounded(t, d, run);
    RankIsBounded(t, d);
  }

  // ---- nothing is lost

  /** How often request `v` waits on the lists of the contexts from `c` on. */
  ghost function Listed(kcq: seq<seq<nat>>, c: nat, v: nat): nat
    decreases |kcq| - c
  {
    if c < |kcq| then multiset(kcq[c])[v] + Listed(kcq, c + 1, v) else 0
  }

  /** How often a domain holds request `v`. */
  ghost function Held(m: Domain, v: nat): nat { multiset(m.rqs)[v] + Listed(m.kcq, 0, v) }

  lemma {:induction false} ListedIsPending(kcq: seq<seq<nat>>, c: nat, v: nat)
    ensures Listed(kcq, c, v) == multiset(Pending(kcq, c))[v]
    decreases |kcq| - c
  {
    if c < |kcq| {
      ListedIsPending(kcq, c + 1, v);
    }
  }

  lemma {:induction false} ListedUpdate(kcq: seq<seq<nat>>, c: nat, k: nat, x: seq<nat>, v: nat)
    requires k < |kcq|
    ensures (Listed(kcq[k := x], c, v) + (if c <= k then multiset(kcq[k])[v] else 0)
             == Listed(kcq, c, v) + (if c <= k then multiset(x)[v] else 0))
    decreases |kcq| - c
  {
    if c < |kcq| {
      ListedUpdate(kcq, c + 1, k, x, v);
    }
  }

  lemma {:induction false} InsertAdds(m: Domain, c: nat, rq: nat, atHead: bool, v: nat)
    requires c < |m.kcq|
    ensures Held(InsertInto(m, c, rq, atHead), v) == Held(m, v) + (if v == rq then 1 else 0)
  {
    ListedUpdate(m.kcq, 0, c, if atHead then [rq] + m.kcq[c] else m.kcq[c] + [rq], v);
  }

  lemma {:induction false} NoneListed(kcq: seq<seq<nat>>, c: nat, v: nat)
    requires forall k :: c <= k < |kcq| ==> kcq[k] == []
    ensures Listed(kcq, c, v) == 0
    decreases |kcq| - c
  {
    if c < |kcq| {
      NoneListed(kcq, c + 1, v);
    }
  }

  lemma {:induction false} TakeRemoves(m: Domain, v: nat)
    requires BitsOk(m) && Ready(m)
    ensures AtHand(m).rqs != []
    ensures Held(Take(m), v) + (if AtHand(m).rqs[0] == v then 1 else 0) == Held(m, v)
    ensures Take(m).free + Take(m).used == m.free + m.used
  {
    ReadyHasRequest(m);
    var n := AtHand(m);
    assert n.rqs == [n.rqs[0]] + n.rqs[1..];
    if m.rqs == [] {
      FlushMovesAll(m, 0);
      NoneListed(n.kcq, 0, v);
      ListedIsPending(m.kcq, 0, v);
    }
  }

  /** How often a run puts request `v` into domain `d`. */
  ghost function PutIn(run: seq<Step>, d: nat, v: nat): nat {
    if |run| == 0 then 0
    else (if run[0].Insert? && run[0].dom == d && run[0].rq == v then 1 else 0) + PutIn(run[1..], d, v)
  }

  /** One step takes request `v` out of domain `d`. */
  ghost predicate Takes(s: State, e: Step, d: nat, v: nat)
    requires Inv(s) && d < NUM_DOMAINS
  {
    e.DispatchOne? && Served(s) == d && AtHand(s.doms[d]).rqs != [] && AtHand(s.doms[d]).rqs[0] == v
  }

  ghost function TakenOut(s: State, run: seq<Step>, d: nat, v: nat): nat
    requires Inv(s) && Valid(s, run) && d < NUM_DOMAINS
    decreases |run|
  {
    if |run| == 0 then 0
    else
      StepKeepsInv(s, run[0]);
      (if Takes(s, run[0], d, v) then 1 else 0) + TakenOut(Apply(s, run[0]), run[1..], d, v)
  }

  lemma {:induction false} StepLosesNothing(s: State, e: Step, d: nat, v: nat)
    requires Inv(s) && Enabled(s, e) && d < NUM_DOMAINS
    ensures Inv(Apply(s, e))
    ensures (Held(Apply(s, e).doms[d], v) + (if Takes(s, e, d, v) then 1 else 0)
             == Held(s.doms[d], v) + (if e.Insert? && e.dom == d && e.rq == v then 1 else 0))
    ensures Apply(s, e).doms[d].free + Apply(s, e).doms[d].used == s.doms[d].free + s.doms[d].used
  {
    StepKeepsInv(s, e);
    if e.Insert? && e.dom == d {
      InsertAdds(s.doms[d], e.ctx, e.rq, e.atHead, v);
    } else if e.DispatchOne? && Served(s) == d {
      TakeRemoves(s.doms[d], v);
    }
  }

  /** In every run each request put into a domain is dispatched once or still held, and no token is lost. */
  lemma {:induction false} NothingIsLost(s: State, run: seq<Step>, d: nat, v: nat)
    requires Inv(s) && Valid(s, run) && d < NUM_DOMAINS
    ensures Held(Run(s, run).doms[d], v) + TakenOut(s, run, d, v) == Held(s.doms[d], v) + PutIn(run, d, v)
    ensures Run(s, run).doms[d].free + Run(s, run).doms[d].used == s.doms[d].free + s.doms[d].used
    decreases |run|
  {
    if |run| > 0 {
      StepLosesNothing(s, run[0], d, v);
      NothingIsLost(Apply(s, run[0]), run[1..], d, v);
    }
  }
}
