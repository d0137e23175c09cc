/**
 * Chained bio completion (block/bio.c). bio_chain makes a parent wait for a child; bio_endio drops
 * one reference and, when it was the last, carries the status to the parent and goes on there.
 *
 * The state holds every bio. `calls` counts the calls of bio_endio that have reached the top of its
 * loop for that bio and not yet dropped their reference, so calls on different processors
 * interleave at the atomic decrement and again before the parent is reached. An `order` that grows
 * from parent to child says that the chains form a forest; any forest has one.
 */
module BioChain {

  datatype Phase = Live | Leaving | Gone

  /** `ended` and `failed`: the owner has ended the bio, with an error; `endios`: runs of its bi_end_io. */
  datatype Node = Node(parent: int, chain: bool, remaining: int, status: nat, calls: nat, phase: Phase, ended: bool,
                       failed: bool, endios: nat)

  type State = seq<Node>

  /** bio_init. */
  const FRESH: Node := Node(-1, false, 1, 0, 0, Live, false, false, 0)

  datatype Step = Chain(child: nat, parent: nat) | End(bio: nat, status: nat) | Hop(bio: nat) | Leave(bio: nat)

  predicate Enabled(s: State, order: seq<nat>, e: Step)
    requires |order| == |s|
  {
    match e
    case Chain(c, p) => c < |s| && p < |s| && s[c].parent == -1 && s[c].phase.Live? && s[p].phase.Live? && order[p] < order[c]
    case End(b, st) => b < |s| && !s[b].ended
    case Hop(b) => b < |s| && s[b].calls > 0
    case Leave(b) => b < |s| && s[b].phase.Leaving?
  }

  /** bio_chain with bio_inc_remaining. */
  function DoChain(s: State, c: nat, p: nat): State
    requires c < |s| && p < |s|
  {
    s[c := s[c].(parent := p)][p := s[p].(chain := true, remaining := s[p].remaining + 1)]
  }

  /** The owner sets an error, if any, and calls bio_endio. */
  function DoEnd(s: State, b: nat, st: nat): State
    requires b < |s|
  {
    s[b := s[b].(status := if st != 0 then st else s[b].status, calls := s[b].calls + 1, ended := true, failed := st != 0)]
  }

  /** bio_remaining_done. */
  function RemainingDone(n: Node): (Node, bool) {
    if !n.chain then (n, true)
    else (n.(remaining := n.remaining - 1, chain := n.remaining != 1), n.remaining == 1)
  }

  function DoHop(s: State, b: nat): State
    requires b < |s| && s[b].calls > 0
  {
    var (n, done) := RemainingDone(s[b]);
    s[b := n.(calls := n.calls - 1, phase := if done then Leaving else n.phase)]
  }

  /** __bio_chain_endio and on to the parent, or the bio's own bi_end_io. */
  function DoLeave(s: State, b: nat): State
    requires b < |s|
  {
    var n := s[b];
    if 0 <= n.parent < |s| && n.parent != b then
      var q := s[n.parent];
      s[b := n.(phase := Gone)]
       [n.parent := q.(status := if n.status != 0 && q.status == 0 then n.status else q.status, calls := q.calls + 1)]
    else s[b := n.(phase := Gone, endios := n.endios + 1)]
  }

  function Apply(s: State, e: Step): (t: State)
    requires match e case Chain(c, p) => c < |s| && p < |s| case End(b, _) => b < |s|
                     case Hop(b) => b < |s| && s[b].calls > 0 case Leave(b) => b < |s|
    ensures |t| == |s|
  {
    match e
    case Chain(c, p) => DoChain(s, c, p)
    case End(b, st) => DoEnd(s, b, st)
    case Hop(b) => DoHop(s, b)
    case Leave(b) => DoLeave(s, b)
  }

  ghost predicate Valid(s: State, order: seq<nat>, run: seq<Step>)
    requires |order| == |s|
    decreases |run|
  {
    |run| == 0 || (Enabled(s, order, run[0]) && Valid(Apply(s, run[0]), order, run[1..]))
  }

  ghost function Run(s: State, order: seq<nat>, run: seq<Step>): (t: State)
    requires |order| == |s| && Valid(s, order, run)
    ensures |t| == |s|
    decreases |run|
  {
    if |run| == 0 then s else Run(Apply(s, run[0]), order, run[1..])
  }

  // ---- what a bio still waits for

  /** The children that have not been carried to `b` yet. */
  ghost function Waiting(s: State, b: int): set<int> {
    set c | 0 <= c < |s| && s[c].parent == b && !s[c].phase.Gone?
  }

  ghost function Owed(s: State, b: nat): nat
    requires b < |s|
  {
    (if s[b].ended then 0 else 1) + s[b].calls + |Waiting(s, b)|
  }

  ghost predicate Rooted(s: State, order: seq<nat>, b: nat)
    requires |order| == |s| && b < |s|
  {
    s[b].parent == -1 || (0 <= s[b].parent < |s| && order[s[b].parent] < order[b])
  }

  /** The count is exact while the bio lives; nothing is owed afterwards. */
  ghost predicate Counted(s: State, b: nat)
    requires b < |s|
  {
    if s[b].phase.Live? then Owed(s, b) == s[b].remaining && s[b].remaining >= 1 && (!s[b].chain ==> s[b].remaining == 1)
    else Owed(s, b) == 0
  }

  /** Errors reach the parent, and bi_end_io runs when the root goes. */
  ghost predicate Carried(s: State, b: nat)
    requires b < |s|
  {
    && (s[b].failed ==> s[b].status != 0)
    && (0 <= s[b].parent < |s| && s[b].phase.Gone? && s[b].status != 0 ==> s[s[b].parent].status != 0)
    && s[b].endios == (if s[b].phase.Gone? && s[b].parent == -1 then 1 else 0)
  }

  ghost predicate Inv(s: State, order: seq<nat>)
    requires |order| == |s|
  {
    forall b :: 0 <= b < |s| ==> Rooted(s, order, b) && Counted(s, b) && Carried(s, b)
  }

  // ---- every step keeps the invariant

  lemma {:induction false} ChainKeeps(s: State, order: seq<nat>, c: nat, p: nat)
    requires |order| == |s| && Inv(s, order) && Enabled(s, order, Chain(c, p))
    ensures Inv(DoChain(s, c, p), order)
  {
    var t := DoChain(s, c, p);
    forall b | 0 <= b < |s|
      ensures Rooted(t, order, b) && Counted(t, b) && Carried(t, b)
    {
      assert Rooted(s, order, b) && Counted(s, b) && Carried(s, b);
      if b == p {
        assert Waiting(t, b) == Waiting(s, b) + {c as int};
      } else {
        assert Waiting(t, b) == Waiting(s, b);
      }
    }
  }

  lemma {:induction false} EndKeeps(s: State, order: seq<nat>, b: nat, st: nat)
    requires |order| == |s| && Inv(s, order) && Enabled(s, order, End(b, st))
    ensures Inv(DoEnd(s, b, st), order)
  {
    var t := DoEnd(s, b, st);
    forall x | 0 <= x < |s|
      ensures Rooted(t, order, x) && Counted(t, x) && Carried(t, x)
    {
      assert Rooted(s, order, x) && Counted(s, x) && Carried(s, x);
      assert Waiting(t, x) == Waiting(s, x);
    }
  }

  lemma {:induction false} HopKeeps(s: State, order: seq<nat>, b: nat)
    requires |order| == |s| && Inv(s, order) && Enabled(s, order, Hop(b))
    ensures Inv(DoHop(s, b), order)
  {
    var t := DoHop(s, b);
    assert Counted(s, b);
    forall x | 0 <= x < |s|
      ensures Rooted(t, order, x) && Counted(t, x) && Carried(t, x)
    {
      assert Rooted(s, order, x) && Counted(s, x) && Carried(s, x);
      assert Waiting(t, x) == Waiting(s, x);
    }
  }

  lemma {:induction false} LeaveKeeps(s: State, order: seq<nat>, b: nat)
    requires |order| == |s| && Inv(s, order) && Enabled(s, order, Leave(b))
    ensures Inv(DoLeave(s, b), order)
  {
    var t := DoLeave(s, b);
    assert Rooted(s, order, b);
    forall x | 0 <= x < |s|
      ensures Rooted(t, order, x) && Counted(t, x) && Carried(t, x)
    {
      assert Rooted(s, order, x) && Counted(s, x) && Carried(s, x);
      if x == s[b].parent {
        assert Waiting(t, x) == Waiting(s, x) - {b as int};
      } else {
        assert Waiting(t, x) == Waiting(s, x);
      }
    }
  }

  lemma {:induction false} RunKeepsInv(s: State, order: seq<nat>, run: seq<Step>)
    requires |order| == |s| && Inv(s, order) && Valid(s, order, run)
    ensures Inv(Run(s, order, run), order)
    decreases |run|
  {
    if |run| > 0 {
      match run[0] {
        case Chain(c, p) => ChainKeeps(s, order, c, p);
        case End(b, st) => EndKeeps(s, order, b, st);
        case Hop(b) => HopKeeps(s, order, b);
        case Leave(b) => LeaveKeeps(s, order, b);
      }
      RunKeepsInv(Apply(s, run[0]), order, run[1..]);
    }
  }

  lemma {:induction false} StartsOk(s: State, order: seq<nat>)
    requires |order| == |s| && forall b :: 0 <= b < |s| ==> s[b] == FRESH
    ensures Inv(s, order)
  {
    forall b | 0 <= b < |s|
      ensures Rooted(s, order, b) && Counted(s, b) && Carried(s, b)
    {
      assert Waiting(s, b) == {};
    }
  }

  // ---- over every run

  /** `d` is `r` or hangs below it. */
  ghost predicate IsBelow(s: State, order: seq<nat>, d: nat, r: nat)
    requires |order| == |s| && d < |s| && r < |s|
    decreases order[d]
  {
    d == r || (0 <= s[d].parent < |s| && order[s[d].parent] < order[d] && IsBelow(s, order, s[d].parent, r))
  }

  lemma {:induction false} GoneBelow(s: State, order: seq<nat>, d: nat, r: nat)
    requires |order| == |s| && Inv(s, order) && d < |s| && r < |s| && s[r].phase.Gone? && IsBelow(s, order, d, r)
    ensures s[d].phase.Gone? && s[d].ended && s[d].calls == 0
    ensures s[d].failed ==> s[d].status != 0
    ensures s[d].status != 0 ==> s[r].status != 0
    decreases order[d]
  {
    assert Counted(s, d) && Carried(s, d);
    if d != r {
      var p := s[d].parent;
      GoneBelow(s, order, p, r);
      assert Counted(s, p);
      assert d as int !in Waiting(s, p);
    }
  }

  /**
   * In every run over every forest: the bi_end_io of a root has run exactly once if the root has
   * gone and not at all before; by then every bio below it has been ended by its owner and has been
   * carried up, and an error of any of them is in the root's status.
   */
  lemma {:induction false} RootEndsOnceAfterAll(s: State, order: seq<nat>, run: seq<Step>, r: nat, d: nat)
    requires |order| == |s| && (forall b :: 0 <= b < |s| ==> s[b] == FRESH) && Valid(s, order, run)
    requires r < |s| && d < |s| && Run(s, order, run)[r].parent == -1 && IsBelow(Run(s, order, run), order, d, r)
    ensures var t := Run(s, order, run);
            && t[r].endios == (if t[r].phase.Gone? then 1 else 0)
            && (t[r].endios == 1 ==> t[d].ended && t[d].phase.Gone? && (t[d].failed ==> t[r].status != 0))
  {
    var t := Run(s, order, run);
    StartsOk(s, order);
    RunKeepsInv(s, order, run);
    assert Carried(t, r);
    if t[r].phase.Gone? {
      GoneBelow(t, order, d, r);
    }
  }

  /** The count never underflows: the BUG_ON of bio_remaining_done cannot fire. */
  lemma {:induction false} CountStaysPositive(s: State, order: seq<nat>, run: seq<Step>, b: nat)
    requires |order| == |s| && (forall x :: 0 <= x < |s| ==> s[x] == FRESH) && Valid(s, order, run)
    requires b < |s| && Run(s, order, run)[b].calls > 0
    ensures Run(s, order, run)[b].phase.Live? && Run(s, order, run)[b].remaining > 0
  {
    StartsOk(s, order);
    RunKeepsInv(s, order, run);
    assert Counted(Run(s, order, run), b);
  }

  ghost predicate Quiet(s: State) {
    forall b :: 0 <= b < |s| ==> s[b].ended && s[b].calls == 0 && !s[b].phase.Leaving?
  }

  /** A live bio of a quiet state has a live child, and so on without end. */
  lemma {:induction false} NoneLive(s: State, order: seq<nat>, b: nat, top: nat)
    requires |order| == |s| && Inv(s, order) && Quiet(s) && b < |s|
    requires forall x :: 0 <= x < |s| ==> order[x] <= top
    ensures s[b].phase.Gone?
    decreases top - order[b]
  {
    if s[b].phase.Live? {
      assert Counted(s, b);
      assert Waiting(s, b) != {};
      var c :| c in Waiting(s, b);
      assert Rooted(s, order, c);
      NoneLive(s, order, c, top);
    }
  }

  /** Once every owner has ended its bio and no call is under way, every bio has completed. */
  lemma {:induction false} EverythingCompletes(s: State, order: seq<nat>, run: seq<Step>, b: nat)
    requires |order| == |s| && (forall x :: 0 <= x < |s| ==> s[x] == FRESH) && Valid(s, order, run)
    requires b < |s| && Quiet(Run(s, order, run))
    ensures Run(s, order, run)[b].phase.Gone?
  {
    StartsOk(s, order);
    RunKeepsInv(s, order, run);
    NoneLive(Run(s, order, run), order, b, Top(order));
  }

  ghost function Top(order: seq<nat>): (m: nat)
    ensures forall i :: 0 <= i < |order| ==> order[i] <= m
  {
    if |order| == 0 then 0
    else var m := Top(order[..|order| - 1]); if order[|order| - 1] > m then order[|order| - 1] else m
  }

  // ---- bio_endio

  lemma {:induction false} RunSnoc(s: State, order: seq<nat>, run: seq<Step>, e: Step)
    requires |order| == |s| && Valid(s, order, run) && Enabled(Run(s, order, run), order, e)
    ensures Valid(s, order, run + [e]) && Run(s, order, run + [e]) == Apply(Run(s, order, run), e)
    decreases |run|
  {
    if |run| > 0 {
      RunSnoc(Apply(s, run[0]), order, run[1..], e);
      assert (run + [e])[1..] == run[1..] + [e];
    }
  }

  /** From `s` to `t` the call on `b` was used up, one on `next` (if any) is under way, and no bio is left on its way up. */
  ghost predicate Pending(s: State, t: State, b: nat, next: int) {
    && |s| == |t|
    && (forall x :: 0 <= x < |s| ==> t[x].calls + (if x == b then 1 else 0) == s[x].calls + (if x == next then 1 else 0))
    && (forall x :: 0 <= x < |s| && t[x].phase.Leaving? ==> s[x].phase.Leaving?)
  }

  lemma {:induction false} PendingStops(s0: State, s: State, b: nat, bio: nat)
    requires Pending(s0, s, b, bio) && bio < |s| && s[bio].calls > 0 && s[bio].phase.Live?
    requires !DoHop(s, bio)[bio].phase.Leaving?
    ensures Pending(s0, DoHop(s, bio), b, -1)
  {
  }

  lemma {:induction false} PendingClimbs(s0: State, s: State, b: nat, bio: nat)
    requires Pending(s0, s, b, bio) && bio < |s| && s[bio].calls > 0
    requires s[bio].parent == -1 || (0 <= s[bio].parent < |s| && s[bio].parent != bio)
    ensures Pending(s0, DoLeave(DoHop(s, bio), bio), b, s[bio].parent)
  {
  }

  class Bios {
    const bios: array<Node>
    ghost const order: seq<nat>

    ghost predicate Ok()
      reads bios
    {
      |order| == bios.Length && Inv(bios[..], order)
    }

    constructor (n: nat, ghost order: seq<nat>)
      requires |order| == n
      ensures Ok() && bios.Length == n && this.order == order && fresh(bios)
    {
      bios := new Node[n](_ => FRESH);
      this.order := order;
      new;
      StartsOk(bios[..], order);
    }

    /** bio_chain. */
    method ChainTo(c: nat, p: nat)
      requires Ok() && Enabled(bios[..], order, Chain(c, p))
      modifies bios
      ensures Ok() && bios[..] == Apply(old(bios[..]), Chain(c, p))
    {
      ChainKeeps(bios[..], order, c, p);
      bios[c] := bios[c].(parent := p);
      bios[p] := bios[p].(chain := true, remaining := bios[p].remaining + 1);
    }

    /** bio_remaining_done at the top of the loop. */
    method Drop(b: nat) returns (done: bool)
      requires Ok() && b < bios.Length && bios[b].calls > 0
      modifies bios
      ensures Ok() && bios[..] == Apply(old(bios[..]), Hop(b)) && done == bios[b].phase.Leaving?
    {
      HopKeeps(bios[..], order, b);
      assert Counted(bios[..], b);
      done := !bios[b].chain;
      if bios[b].chain {
        bios[b] := bios[b].(remaining := bios[b].remaining - 1);
        if bios[b].remaining == 0 {
          bios[b] := bios[b].(chain := false);
          done := true;
        }
      }
      bios[b] := bios[b].(calls := bios[b].calls - 1, phase := if done then Leaving else bios[b].phase);
      assert bios[..] == DoHop(old(bios[..]), b);
    }

    /** The rest of a round: on to the parent, or the bio's own bi_end_io. */
    method Up(b: nat) returns (again: bool, parent: nat)
      requires Ok() && b < bios.Length && bios[b].phase.Leaving?
      modifies bios
      ensures Ok() && bios[..] == Apply(old(bios[..]), Leave(b))
      ensures again == (bios[b].parent >= 0)
      ensures again ==> parent < bios.Length && parent == bios[b].parent && order[parent] < order[b] && bios[parent].calls > 0
    {
      LeaveKeeps(bios[..], order, b);
      assert Rooted(bios[..], order, b);
      again, parent := bios[b].parent >= 0, 0;
      if again {
        parent := bios[b].parent;
        if bios[b].status != 0 && bios[parent].status == 0 {
          bios[parent] := bios[parent].(status := bios[b].status);
        }
        bios[b] := bios[b].(phase := Gone);
        bios[parent] := bios[parent].(calls := bios[parent].calls + 1);
      } else {
        bios[b] := bios[b].(phase := Gone, endios := bios[b].endios + 1);
      }
      assert bios[..] == DoLeave(old(bios[..]), b);
    }

    /** bio_endio: the `again` loop ends, its rounds are steps of the model, and it leaves nothing half done. */
    method Endio(b: nat) returns (ghost steps: seq<Step>)
      requires Ok() && b < bios.Length && bios[b].calls > 0
      modifies bios
      ensures Ok() && Valid(old(bios[..]), order, steps) && bios[..] == Run(old(bios[..]), order, steps)
      ensures Pending(old(bios[..]), bios[..], b, -1)
    {
      steps := [];
      var bio: nat := b;
      var again := true;
      while again
        invariant Ok() && bio < bios.Length && (again ==> bios[bio].calls > 0)
        invariant Valid(old(bios[..]), order, steps) && bios[..] == Run(old(bios[..]), order, steps)
        invariant Pending(old(bios[..]), bios[..], b, if again then bio else -1)
        decreases again, order[bio]
      {
        ghost var s := bios[..];
        assert Rooted(s, order, bio) && Counted(s, bio);
        RunSnoc(old(bios[..]), order, steps, Hop(bio));
        steps := steps + [Hop(bio)];
        var done := Drop(bio);
        if !done {
          PendingStops(old(bios[..]), s, b, bio);
          return;
        }
        RunSnoc(old(bios[..]), order, steps, Leave(bio));
        steps := steps + [Leave(bio)];
        PendingClimbs(old(bios[..]), s, b, bio);
        var parent;
        again, parent := Up(bio);
        if again {
          bio := parent;
        }
      }
    }
  }
}
