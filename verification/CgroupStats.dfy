/**
 * Hierarchical I/O statistics (block/blk-cgroup.c). Each blkg of a fixed tree has per-cpu counters
 * with the value last carried to the blkg, and the blkg's own counter with the value last carried
 * to its parent. The tree is given by `parent`; a child comes after its parent.
 */
module CgroupStats {

  /** Bytes and then ios, each for read, write and discard. */
  const NR: nat := 6

  type Stat = a: seq<int> | |a| == NR witness [0, 0, 0, 0, 0, 0]

  const ZERO: Stat := [0, 0, 0, 0, 0, 0]

  function Get(a: Stat, k: nat): int { if k < |a| then a[k] else 0 }

  function Add(a: Stat, b: Stat): Stat { seq(NR, k requires 0 <= k < NR => Get(a, k) + Get(b, k)) }

  function Sub(a: Stat, b: Stat): Stat { seq(NR, k requires 0 <= k < NR => Get(a, k) - Get(b, k)) }

  datatype Cpu = Cpu(cur: Stat, last: Stat)

  datatype Node = Node(cpus: seq<Cpu>, cur: Stat, last: Stat)

  type BioId = nat

  /** The blkgs, and the bios flagged BIO_CGROUP_ACCT. */
  datatype State = State(nodes: seq<Node>, acct: set<BioId>)

  ghost predicate Tree(parent: seq<int>) {
    forall i :: 0 <= i < |parent| ==> -1 <= parent[i] < i
  }

  ghost predicate Shape(s: State, parent: seq<int>, ncpu: nat) {
    |s.nodes| == |parent| && forall i :: 0 <= i < |s.nodes| ==> |s.nodes[i].cpus| == ncpu
  }

  // ---- the steps

  /** An I/O is counted, and its bytes unless the bio was counted before. */
  function Count(c: Cpu, rwd: nat, size: nat, counted: bool): Cpu {
    c.(cur := seq(NR, k requires 0 <= k < NR =>
                    Get(c.cur, k) + (if k == rwd && !counted then size else 0) + (if k == 3 + rwd then 1 else 0)))
  }

  function SetCpu(n: Node, cpu: nat, c: Cpu): Node
    requires cpu < |n.cpus|
  {
    n.(cpus := n.cpus[cpu := c])
  }

  /** The first half of a flush: the per-cpu delta goes to the blkg. */
  function Gather(n: Node, cpu: nat): Node
    requires cpu < |n.cpus|
  {
    var c := n.cpus[cpu];
    var delta := Sub(c.cur, c.last);
    SetCpu(n, cpu, c.(last := Add(c.last, delta))).(cur := Add(n.cur, delta))
  }

  /** blkcg_rstat_flush for one blkg and one cpu. */
  function Flush(s: State, parent: seq<int>, i: nat, cpu: nat): State
    requires |parent| == |s.nodes| && i < |s.nodes| && cpu < |s.nodes[i].cpus|
  {
    var n := Gather(s.nodes[i], cpu);
    var p := parent[i];
    if 0 <= p < |s.nodes| && p != i then
      var delta := Sub(n.cur, n.last);
      s.(nodes := s.nodes[i := n.(last := Add(n.last, delta))][p := s.nodes[p].(cur := Add(s.nodes[p].cur, delta))])
    else s.(nodes := s.nodes[i := n])
  }

  /** blk_cgroup_bio_start: a bio that comes back because it was split carries the flag. */
  function Start(s: State, bio: BioId, i: nat, cpu: nat, rwd: nat, size: nat): State
    requires i < |s.nodes| && cpu < |s.nodes[i].cpus|
  {
    State(s.nodes[i := SetCpu(s.nodes[i], cpu, Count(s.nodes[i].cpus[cpu], rwd, size, bio in s.acct))], s.acct + {bio})
  }

  // ---- sums

  /** What the cpus have carried to the blkg. */
  ghost function Carried(cpus: seq<Cpu>, k: nat): int {
    if |cpus| == 0 then 0 else Carried(cpus[..|cpus| - 1], k) + Get(cpus[|cpus| - 1].last, k)
  }

  /** What the cpus have counted. */
  ghost function Counted(cpus: seq<Cpu>, k: nat): int {
    if |cpus| == 0 then 0 else Counted(cpus[..|cpus| - 1], k) + Get(cpus[|cpus| - 1].cur, k)
  }

  /** What the first `m` blkgs have carried to `i`. */
  ghost function FromChildren(nodes: seq<Node>, parent: seq<int>, i: int, m: nat, k: nat): int
    requires |parent| == |nodes| && m <= |nodes|
  {
    if m == 0 then 0
    else FromChildren(nodes, parent, i, m - 1, k) + (if parent[m - 1] == i then Get(nodes[m - 1].last, k) else 0)
  }

  /** A blkg's counter is what its cpus and its children have carried to it. */
  ghost predicate NodeOk(s: State, parent: seq<int>, i: nat, k: nat)
    requires |parent| == |s.nodes| && i < |s.nodes|
  {
    Get(s.nodes[i].cur, k) == Carried(s.nodes[i].cpus, k) + FromChildren(s.nodes, parent, i, |s.nodes|, k)
  }

  ghost predicate Inv(s: State, parent: seq<int>)
    requires |parent| == |s.nodes|
  {
    forall i, k :: 0 <= i < |s.nodes| && 0 <= k < NR ==> NodeOk(s, parent, i, k)
  }

  lemma {:induction false} CarriedUpdate(cpus: seq<Cpu>, cpu: nat, c: Cpu, k: nat)
    requires cpu < |cpus|
    ensures Carried(cpus[cpu := c], k) == Carried(cpus, k) - Get(cpus[cpu].last, k) + Get(c.last, k)
    ensures Counted(cpus[cpu := c], k) == Counted(cpus, k) - Get(cpus[cpu].cur, k) + Get(c.cur, k)
    decreases |cpus|
  {
    var n := |cpus| - 1;
    if cpu == n {
      assert cpus[cpu := c][..n] == cpus[..n];
    } else {
      CarriedUpdate(cpus[..n], cpu, c, k);
      assert cpus[cpu := c][..n] == cpus[..n][cpu := c];
    }
  }

  /** Only the `last` of the children counts. */
  lemma {:induction false} ChildrenUpdate(nodes: seq<Node>, parent: seq<int>, i: int, j: nat, n: Node, m: nat, k: nat)
    requires |parent| == |nodes| && m <= |nodes| && j < |nodes|
    ensures (FromChildren(nodes[j := n], parent, i, m, k)
             == FromChildren(nodes, parent, i, m, k)
                + (if j < m && parent[j] == i then Get(n.last, k) - Get(nodes[j].last, k) else 0))
    decreases m
  {
    if m > 0 {
      ChildrenUpdate(nodes, parent, i, j, n, m - 1, k);
    }
  }

  // ---- every step keeps the sums

  lemma {:induction false} StartKeeps(s: State, parent: seq<int>, bio: BioId, i: nat, cpu: nat, rwd: nat, size: nat)
    requires |parent| == |s.nodes| && i < |s.nodes| && cpu < |s.nodes[i].cpus| && Inv(s, parent)
    ensures Inv(Start(s, bio, i, cpu, rwd, size), parent)
  {
    var t := Start(s, bio, i, cpu, rwd, size);
    forall x, k | 0 <= x < |s.nodes| && 0 <= k < NR
      ensures NodeOk(t, parent, x, k)
    {
      assert NodeOk(s, parent, x, k);
      ChildrenUpdate(s.nodes, parent, x, i, t.nodes[i], |s.nodes|, k);
      CarriedUpdate(s.nodes[i].cpus, cpu, t.nodes[i].cpus[cpu], k);
    }
  }

  lemma {:induction false} FlushKeeps(s: State, parent: seq<int>, i: nat, cpu: nat)
    requires |parent| == |s.nodes| && i < |s.nodes| && cpu < |s.nodes[i].cpus| && Inv(s, parent) && Tree(parent)
    ensures Inv(Flush(s, parent, i, cpu), parent)
  {
    var t, n := Flush(s, parent, i, cpu), Gather(s.nodes[i], cpu);
    forall x, k | 0 <= x < |s.nodes| && 0 <= k < NR
      ensures NodeOk(t, parent, x, k)
    {
      assert NodeOk(s, parent, x, k);
      FlushKeepsAt(s, parent, i, cpu, x, k);
    }
  }

  lemma {:induction false} FlushKeepsAt(s: State, parent: seq<int>, i: nat, cpu: nat, x: nat, k: nat)
    requires |parent| == |s.nodes| && i < |s.nodes| && cpu < |s.nodes[i].cpus| && Tree(parent)
    requires x < |s.nodes| && k < NR && NodeOk(s, parent, x, k)
    ensures NodeOk(Flush(s, parent, i, cpu), parent, x, k)
  {
    var n, p := Gather(s.nodes[i], cpu), parent[i];
    CarriedUpdate(s.nodes[i].cpus, cpu, n.cpus[cpu], k);
    if p >= 0 {
      var n1 := n.(last := Add(n.last, Sub(n.cur, n.last)));
      var mid := s.nodes[i := n1];
      ChildrenUpdate(s.nodes, parent, x, i, n1, |s.nodes|, k);
      ChildrenUpdate(mid, parent, x, p, s.nodes[p].(cur := Add(s.nodes[p].cur, Sub(n.cur, n.last))), |s.nodes|, k);
    } else {
      ChildrenUpdate(s.nodes, parent, x, i, n, |s.nodes|, k);
    }
  }

  // ---- runs

  datatype Step =
    | StartIo(bio: BioId, blkg: nat, cpu: nat, rwd: nat, size: nat)
    | InitBio(bio: BioId)   // bio_init: a new life, with no flag
    | FlushOne(blkg: nat, cpu: nat)

  predicate Enabled(s: State, e: Step) {
    match e
    case StartIo(_, i, cpu, rwd, _) => i < |s.nodes| && cpu < |s.nodes[i].cpus| && rwd < 3
    case InitBio(_) => true
    case FlushOne(i, cpu) => i < |s.nodes| && cpu < |s.nodes[i].cpus|
  }

  ghost predicate SameShape(s: State, t: State) {
    |s.nodes| == |t.nodes| && forall i :: 0 <= i < |s.nodes| ==> |s.nodes[i].cpus| == |t.nodes[i].cpus|
  }

  function Apply(s: State, parent: seq<int>, e: Step): (t: State)
    requires |parent| == |s.nodes| && Enabled(s, e)
    ensures SameShape(s, t)
  {
    match e
    case StartIo(bio, i, cpu, rwd, size) => Start(s, bio, i, cpu, rwd, size)
    case InitBio(bio) => s.(acct := s.acct - {bio})
    case FlushOne(i, cpu) => Flush(s, parent, i, cpu)
  }

  ghost predicate Valid(s: State, run: seq<Step>) { forall j :: 0 <= j < |run| ==> Enabled(s, run[j]) }

  ghost function Run(s: State, parent: seq<int>, run: seq<Step>): (t: State)
    requires |parent| == |s.nodes| && Valid(s, run)
    ensures SameShape(s, t)
    decreases |run|
  {
    if |run| == 0 then s else Apply(Run(s, parent, run[..|run| - 1]), parent, run[|run| - 1])
  }

  /** For any number and order of flushes mixed with new I/O the sums hold. */
  lemma {:induction false} StatisticsAreConserved(s: State, parent: seq<int>, run: seq<Step>)
    requires |parent| == |s.nodes| && Tree(parent) && Inv(s, parent) && Valid(s, run)
    ensures Inv(Run(s, parent, run), parent)
    decreases |run|
  {
    if |run| > 0 {
      var t := Run(s, parent, run[..|run| - 1]);
      StatisticsAreConserved(s, parent, run[..|run| - 1]);
      match run[|run| - 1] {
        case StartIo(bio, i, cpu, rwd, size) => StartKeeps(t, parent, bio, i, cpu, rwd, size);
        case InitBio(bio) => InitKeeps(t, parent, bio);
        case FlushOne(i, cpu) => FlushKeeps(t, parent, i, cpu);
      }
    }
  }

  lemma {:induction false} InitKeeps(s: State, parent: seq<int>, bio: BioId)
    requires |parent| == |s.nodes| && Inv(s, parent)
    ensures Inv(s.(acct := s.acct - {bio}), parent)
  {
    forall x, k | 0 <= x < |s.nodes| && 0 <= k < NR
      ensures NodeOk(s.(acct := s.acct - {bio}), parent, x, k)
    {
      assert NodeOk(s, parent, x, k);
    }
  }

  // ---- what a run counts, told by its history

  /** The bio was submitted before and not initialised since: what comes is the rest of a split. */
  predicate Resubmitted(run: seq<Step>, bio: BioId)
    decreases |run|
  {
    |run| > 0
    && match run[|run| - 1] {
         case StartIo(b, _, _, _, _) => b == bio || Resubmitted(run[..|run| - 1], bio)
         case InitBio(b) => b != bio && Resubmitted(run[..|run| - 1], bio)
         case FlushOne(_, _) => Resubmitted(run[..|run| - 1], bio)
       }
  }

  /** What the step after `run` adds to counter `k` of blkg `i`: an I/O, and the bytes of a bio only the first time. */
  function Adds(run: seq<Step>, e: Step, i: nat, k: nat): int {
    if e.StartIo? && e.blkg == i
    then (if k == e.rwd && !Resubmitted(run, e.bio) then e.size else 0) + (if k == 3 + e.rwd then 1 else 0)
    else 0
  }

  ghost function Started(run: seq<Step>, i: nat, k: nat): int
    decreases |run|
  {
    if |run| == 0 then 0 else Started(run[..|run| - 1], i, k) + Adds(run[..|run| - 1], run[|run| - 1], i, k)
  }

  /** The flag is set exactly on the bios that were submitted before. */
  lemma {:induction false} FlagTellsResubmitted(s: State, parent: seq<int>, run: seq<Step>, bio: BioId)
    requires |parent| == |s.nodes| && Valid(s, run) && s.acct == {}
    ensures bio in Run(s, parent, run).acct <==> Resubmitted(run, bio)
    decreases |run|
  {
    if |run| > 0 {
      FlagTellsResubmitted(s, parent, run[..|run| - 1], bio);
    }
  }

  lemma {:induction false} StepCounts(s: State, parent: seq<int>, run: seq<Step>, e: Step, i: nat, k: nat)
    requires |parent| == |s.nodes| && Tree(parent) && Enabled(s, e) && i < |s.nodes| && k < NR
    requires e.StartIo? ==> (e.bio in s.acct <==> Resubmitted(run, e.bio))
    ensures Counted(Apply(s, parent, e).nodes[i].cpus, k) == Counted(s.nodes[i].cpus, k) + Adds(run, e, i, k)
  {
    if !e.InitBio? && e.blkg == i {
      CarriedUpdate(s.nodes[i].cpus, e.cpu, Apply(s, parent, e).nodes[i].cpus[e.cpu], k);
    }
  }

  /** The per-cpu counters of a blkg add up to the I/O started in it, the bytes of a split bio once. */
  lemma {:induction false} RunCounts(s: State, parent: seq<int>, run: seq<Step>, i: nat, k: nat)
    requires |parent| == |s.nodes| && Tree(parent) && Valid(s, run) && s.acct == {} && i < |s.nodes| && k < NR
    ensures Counted(Run(s, parent, run).nodes[i].cpus, k) == Counted(s.nodes[i].cpus, k) + Started(run, i, k)
    decreases |run|
  {
    if |run| > 0 {
      var m := |run| - 1;
      RunCounts(s, parent, run[..m], i, k);
      if run[m].StartIo? {
        FlagTellsResubmitted(s, parent, run[..m], run[m].bio);
      }
      StepCounts(Run(s, parent, run[..m]), parent, run[..m], run[m], i, k);
    }
  }

  // ---- after a flush from the leaves up

  /** Everything counted in the subtree of `i`. */
  ghost function Total(nodes: seq<Node>, parent: seq<int>, i: nat, k: nat): int
    requires |parent| == |nodes| && i < |nodes|
    decreases |nodes| - i, |nodes| + 1
  {
    Counted(nodes[i].cpus, k) + BelowTotal(nodes, parent, i, |nodes|, k)
  }

  ghost function BelowTotal(nodes: seq<Node>, parent: seq<int>, i: nat, m: nat, k: nat): int
    requires |parent| == |nodes| && i < |nodes| && m <= |nodes|
    decreases |nodes| - i, m
  {
    if m == 0 then 0
    else BelowTotal(nodes, parent, i, m - 1, k) + (if parent[m - 1] == i && i < m - 1 then Total(nodes, parent, m - 1, k) else 0)
  }

  ghost predicate CpuFlushed(c: Cpu) { forall k :: 0 <= k < NR ==> Get(c.last, k) == Get(c.cur, k) }

  /** The first `c` cpus of the blkg have carried everything. */
  ghost predicate Gathered(n: Node, c: nat)
    requires c <= |n.cpus|
  {
    forall j :: 0 <= j < c ==> CpuFlushed(n.cpus[j])
  }

  ghost predicate PassedOn(n: Node) { forall k :: 0 <= k < NR ==> Get(n.last, k) == Get(n.cur, k) }

  ghost predicate Flushed(s: State, parent: seq<int>)
    requires |parent| == |s.nodes|
  {
    forall i :: 0 <= i < |s.nodes| ==> Gathered(s.nodes[i], |s.nodes[i].cpus|) && (parent[i] >= 0 ==> PassedOn(s.nodes[i]))
  }

  lemma {:induction false} GatheredSum(cpus: seq<Cpu>, k: nat)
    requires k < NR && forall j :: 0 <= j < |cpus| ==> CpuFlushed(cpus[j])
    ensures Carried(cpus, k) == Counted(cpus, k)
    decreases |cpus|
  {
    if |cpus| > 0 {
      GatheredSum(cpus[..|cpus| - 1], k);
      assert CpuFlushed(cpus[|cpus| - 1]);
    }
  }

  /** In a flushed tree a blkg shows exactly what was counted in its subtree. */
  lemma {:induction false} FlushedShowsTotal(s: State, parent: seq<int>, i: nat, k: nat)
    requires |parent| == |s.nodes| && Tree(parent) && Inv(s, parent) && Flushed(s, parent) && i < |s.nodes| && k < NR
    ensures Get(s.nodes[i].cur, k) == Total(s.nodes, parent, i, k)
    decreases |s.nodes| - i, |s.nodes| + 1
  {
    assert NodeOk(s, parent, i, k);
    assert Gathered(s.nodes[i], |s.nodes[i].cpus|);
    GatheredSum(s.nodes[i].cpus, k);
    ChildrenShowTotals(s, parent, i, |s.nodes|, k);
  }

  lemma {:induction false} ChildrenShowTotals(s: State, parent: seq<int>, i: nat, m: nat, k: nat)
    requires |parent| == |s.nodes| && Tree(parent) && Inv(s, parent) && Flushed(s, parent)
    requires i < |s.nodes| && m <= |s.nodes| && k < NR
    ensures FromChildren(s.nodes, parent, i, m, k) == BelowTotal(s.nodes, parent, i, m, k)
    decreases |s.nodes| - i, m
  {
    if m > 0 {
      ChildrenShowTotals(s, parent, i, m - 1, k);
      if parent[m - 1] == i {
        FlushedShowsTotal(s, parent, m - 1, k);
        assert PassedOn(s.nodes[m - 1]);
      }
    }
  }

  // ---- the flush in place

  /** Flushing blkg `i` finishes it and leaves those after it as they were. */
  lemma {:induction false} FlushFinishes(s: State, parent: seq<int>, i: nat, cpu: nat)
    requires |parent| == |s.nodes| && Tree(parent) && i < |s.nodes| && cpu < |s.nodes[i].cpus| && Gathered(s.nodes[i], cpu)
    ensures var t := Flush(s, parent, i, cpu);
            && |t.nodes| == |s.nodes|
            && (forall j :: 0 <= j < |s.nodes| ==> |t.nodes[j].cpus| == |s.nodes[j].cpus|)
            && (forall j :: 0 <= j < |s.nodes| && j != i ==> t.nodes[j].cpus == s.nodes[j].cpus)
            && (forall j :: i < j < |s.nodes| ==> t.nodes[j] == s.nodes[j])
            && Gathered(t.nodes[i], cpu + 1)
            && (parent[i] >= 0 ==> PassedOn(t.nodes[i]))
            && (forall k :: 0 <= k < NR ==> Counted(t.nodes[i].cpus, k) == Counted(s.nodes[i].cpus, k))
  {
    var t, n := Flush(s, parent, i, cpu), Gather(s.nodes[i], cpu);
    assert t.nodes[i].cpus == n.cpus;
    assert CpuFlushed(n.cpus[cpu]);
    forall j | 0 <= j < cpu + 1
      ensures CpuFlushed(n.cpus[j])
    {
      if j < cpu {
        assert CpuFlushed(s.nodes[i].cpus[j]);
      }
    }
    forall k | 0 <= k < NR
      ensures Counted(n.cpus, k) == Counted(s.nodes[i].cpus, k)
    {
      CarriedUpdate(s.nodes[i].cpus, cpu, n.cpus[cpu], k);
    }
  }

  // ---- from the start

  ghost predicate ZeroNode(n: Node) {
    && (forall k :: 0 <= k < NR ==> Get(n.cur, k) == 0 && Get(n.last, k) == 0)
    && (forall j, k :: 0 <= j < |n.cpus| && 0 <= k < NR ==> Get(n.cpus[j].cur, k) == 0 && Get(n.cpus[j].last, k) == 0)
  }

  /** Nothing has been counted. */
  ghost predicate Zero(s: State) { s.acct == {} && forall i :: 0 <= i < |s.nodes| ==> ZeroNode(s.nodes[i]) }

  lemma {:induction false} ZeroSums(cpus: seq<Cpu>, k: nat)
    requires forall j :: 0 <= j < |cpus| ==> Get(cpus[j].cur, k) == 0 && Get(cpus[j].last, k) == 0
    ensures Carried(cpus, k) == 0 && Counted(cpus, k) == 0
    decreases |cpus|
  {
    if |cpus| > 0 {
      ZeroSums(cpus[..|cpus| - 1], k);
    }
  }

  lemma {:induction false} ZeroChildren(s: State, parent: seq<int>, i: int, m: nat, k: nat)
    requires |parent| == |s.nodes| && Zero(s) && m <= |s.nodes| && k < NR
    ensures FromChildren(s.nodes, parent, i, m, k) == 0
    decreases m
  {
    if m > 0 {
      ZeroChildren(s, parent, i, m - 1, k);
      assert ZeroNode(s.nodes[m - 1]);
    }
  }

  lemma {:induction false} ZeroOk(s: State, parent: seq<int>)
    requires |parent| == |s.nodes| && Zero(s)
    ensures Inv(s, parent)
  {
    forall i, k | 0 <= i < |s.nodes| && 0 <= k < NR
      ensures NodeOk(s, parent, i, k)
    {
      assert ZeroNode(s.nodes[i]);
      ZeroSums(s.nodes[i].cpus, k);
      ZeroChildren(s, parent, i, |s.nodes|, k);
    }
  }

  /** All the I/O that a run starts in the subtree of `i`. */
  ghost function StartedBelow(run: seq<Step>, parent: seq<int>, i: nat, m: nat, k: nat): int
    requires i < |parent| && m <= |parent|
    decreases |parent| - i, m
  {
    if m == 0 then Started(run, i, k)
    else
      StartedBelow(run, parent, i, m - 1, k)
      + (if parent[m - 1] == i && i < m - 1 then StartedBelow(run, parent, m - 1, |parent|, k) else 0)
  }

  lemma {:induction false} TotalIsStarted(nodes: seq<Node>, parent: seq<int>, run: seq<Step>, i: nat, m: nat, k: nat)
    requires |parent| == |nodes| && i < |nodes| && m <= |nodes|
    requires forall j :: 0 <= j < |nodes| ==> Counted(nodes[j].cpus, k) == Started(run, j, k)
    ensures Counted(nodes[i].cpus, k) + BelowTotal(nodes, parent, i, m, k) == StartedBelow(run, parent, i, m, k)
    decreases |nodes| - i, m
  {
    if m > 0 {
      TotalIsStarted(nodes, parent, run, i, m - 1, k);
      if parent[m - 1] == i && i < m - 1 {
        TotalIsStarted(nodes, parent, run, m - 1, |nodes|, k);
      }
    }
  }

  /**
   * From zero, through any run, a blkg of a flushed tree shows exactly the I/O started in its
   * subtree.
   */
  lemma {:induction false} FlushedShowsAllIo(s: State, parent: seq<int>, run: seq<Step>, i: nat, k: nat)
    requires |parent| == |s.nodes| && Tree(parent) && Zero(s) && Valid(s, run) && i < |s.nodes| && k < NR
    requires Flushed(Run(s, parent, run), parent)
    ensures Get(Run(s, parent, run).nodes[i].cur, k) == StartedBelow(run, parent, i, |parent|, k)
  {
    var t := Run(s, parent, run);
    ZeroOk(s, parent);
    StatisticsAreConserved(s, parent, run);
    FlushedShowsTotal(t, parent, i, k);
    forall j | 0 <= j < |s.nodes|
      ensures Counted(t.nodes[j].cpus, k) == Started(run, j, k)
    {
      RunCounts(s, parent, run, j, k);
      assert ZeroNode(s.nodes[j]);
      ZeroSums(s.nodes[j].cpus, k);
    }
    TotalIsStarted(t.nodes, parent, run, i, |parent|, k);
  }

  /** During the pass for cpu `c`, the blkgs from `from` on are done and the earlier cpus are done for all. */
  ghost predicate Passing(s: State, parent: seq<int>, ncpu: nat, c: nat, from: nat)
    requires Shape(s, parent, ncpu) && c < ncpu && from <= |s.nodes|
  {
    && (forall i :: 0 <= i < from ==> Gathered(s.nodes[i], c))
    && (forall i :: from <= i < |s.nodes| ==> Gathered(s.nodes[i], c + 1) && (parent[i] >= 0 ==> PassedOn(s.nodes[i])))
  }

  /** The per-cpu counters count what they did. */
  ghost predicate SameCounts(s: State, t: State) {
    && |s.nodes| == |t.nodes|
    && forall i, k :: 0 <= i < |s.nodes| && 0 <= k < NR ==> Counted(t.nodes[i].cpus, k) == Counted(s.nodes[i].cpus, k)
  }

  lemma {:induction false} PassStep(s: State, parent: seq<int>, ncpu: nat, c: nat, i: nat)
    requires Shape(s, parent, ncpu) && Tree(parent) && Inv(s, parent) && c < ncpu && i < |s.nodes|
    requires Passing(s, parent, ncpu, c, i + 1)
    ensures var t := Flush(s, parent, i, c);
            && Shape(t, parent, ncpu) && Inv(t, parent) && Passing(t, parent, ncpu, c, i) && SameCounts(s, t)
  {
    FlushKeeps(s, parent, i, c);
    FlushFinishes(s, parent, i, c);
    var t := Flush(s, parent, i, c);
    forall j | 0 <= j < i
      ensures Gathered(t.nodes[j], c)
    {
      assert Gathered(s.nodes[j], c);
    }
  }

  class BlkgTree {
    const parent: seq<int>
    const ncpu: nat
    var nodes: seq<Node>
    var acct: set<BioId>

    ghost function Snap(): (s: State)
      reads this
    {
      State(nodes, acct)
    }

    ghost predicate Ok()
      reads this
    {
      Tree(parent) && Shape(Snap(), parent, ncpu) && Inv(Snap(), parent)
    }

    constructor (parent: seq<int>, ncpu: nat)
      requires Tree(parent)
      ensures Ok() && this.parent == parent && this.ncpu == ncpu && Zero(Snap())
    {
      this.parent, this.ncpu := parent, ncpu;
      nodes := seq(|parent|, _ => Node(seq(ncpu, _ => Cpu(ZERO, ZERO)), ZERO, ZERO));
      acct := {};
      new;
      ZeroOk(Snap(), parent);
    }

    /** blk_cgroup_bio_start. */
    method BioStart(bio: BioId, i: nat, cpu: nat, rwd: nat, size: nat)
      requires Ok() && i < |nodes| && cpu < ncpu && rwd < 3
      modifies this
      ensures Ok() && Snap() == Apply(old(Snap()), parent, StartIo(bio, i, cpu, rwd, size))
    {
      StartKeeps(Snap(), parent, bio, i, cpu, rwd, size);
      var bis := nodes[i].cpus[cpu];
      if bio !in acct {
        acct := acct + {bio};
        bis := bis.(cur := bis.cur[rwd := bis.cur[rwd] + size]);
      }
      bis := bis.(cur := bis.cur[3 + rwd := bis.cur[3 + rwd] + 1]);
      assert bis.cur == Count(nodes[i].cpus[cpu], rwd, size, bio in old(acct)).cur;
      nodes := nodes[i := nodes[i].(cpus := nodes[i].cpus[cpu := bis])];
      assert Snap().acct == old(acct) + {bio};
    }

    /** blkcg_rstat_flush of one blkg on one cpu. */
    method FlushBlkg(i: nat, cpu: nat)
      requires |parent| == |nodes| && Tree(parent) && i < |nodes| && cpu < |nodes[i].cpus|
      modifies this`nodes
      ensures Snap() == Flush(old(Snap()), parent, i, cpu)
    {
      var n := nodes[i];
      var bisc := n.cpus[cpu];
      var delta := Sub(bisc.cur, bisc.last);
      n := n.(cur := Add(n.cur, delta));
      n := n.(cpus := n.cpus[cpu := bisc.(last := Add(bisc.last, delta))]);
      nodes := nodes[i := n];
      var p := parent[i];
      if p >= 0 {
        delta := Sub(n.cur, n.last);
        nodes := nodes[p := nodes[p].(cur := Add(nodes[p].cur, delta))];
        nodes := nodes[i := n.(last := Add(n.last, delta))];
      }
    }

    /** A full flush: for each cpu, the blkgs from the leaves up. Afterwards every blkg shows its subtree's total. */
    method FlushAll()
      requires Ok() && ncpu > 0
      modifies this`nodes
      ensures Ok() && SameCounts(old(Snap()), Snap())
      ensures forall i, k :: 0 <= i < |nodes| && 0 <= k < NR ==> Get(nodes[i].cur, k) == Total(nodes, parent, i, k)
    {
      var c := 0;
      while c < ncpu
        invariant c <= ncpu && Ok() && SameCounts(old(Snap()), Snap())
        invariant forall i :: 0 <= i < |nodes| ==> Gathered(nodes[i], c) && (c > 0 && parent[i] >= 0 ==> PassedOn(nodes[i]))
      {
        FlushCpu(c);
        c := c + 1;
      }
      forall i, k | 0 <= i < |nodes| && 0 <= k < NR
        ensures Get(nodes[i].cur, k) == Total(nodes, parent, i, k)
      {
        FlushedShowsTotal(Snap(), parent, i, k);
      }
    }

    method FlushCpu(c: nat)
      requires Ok() && c < ncpu && forall i :: 0 <= i < |nodes| ==> Gathered(nodes[i], c)
      modifies this`nodes
      ensures Ok() && SameCounts(old(Snap()), Snap()) && Passing(Snap(), parent, ncpu, c, 0)
    {
      var i: nat := |nodes|;
      while i > 0
        invariant i <= |nodes| && Ok() && SameCounts(old(Snap()), Snap()) && Passing(Snap(), parent, ncpu, c, i)
      {
        i := i - 1;
        PassStep(Snap(), parent, ncpu, c, i);
        FlushBlkg(i, c);
      }
    }
  }
}
