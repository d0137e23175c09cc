/**
 * Queue usage, freezing and runtime suspend (block/blk-core.c, block/blk-mq.c, block/blk-pm.c) as
 * interleaved steps of any number of callers entering, any number freezing, and runtime PM.
 *
 * blk_queue_enter takes a reference, then looks at pm_only, so a caller can hold a reference it is
 * about to give back; those are counted apart from the callers inside. A wake_up_all that has still
 * to happen is counted in `waking`; it clears all sleepers.
 */
module QueueUsage {

  datatype Rpm = ACTIVE | SUSPENDING | SUSPENDED | RESUMING

  /**
   * Where runtime PM is: between the calls (`Active`, `Held` after blk_pre_runtime_suspend returned
   * 0, `Suspended`, `Resuming`), inside blk_pre_runtime_suspend, or about to drop its pm_only count.
   */
  datatype Pc = Active | Marked | Counting | Killed | Checked | Unfrozen | Held | Suspended | Resuming | Clearing

  /** The usage reference: dead or live, and how many freezes are started, returned, in all. */
  datatype Ref = Ref(dead: bool, depth: int, starting: nat, frozen: nat)

  datatype Callers = Callers(holdPm: nat, holdOther: nat, inPm: nat, inOther: nat)

  datatype Sleep = Sleep(pm: nat, other: nat, freeze: nat, waking: nat)

  /** `ext`: pm_only counts of others; `ok`: the last blk_pre_runtime_suspend saw no user. */
  datatype Power = Power(pc: Pc, ok: bool, rpm: Rpm, ext: nat)

  datatype State = State(r: Ref, c: Callers, z: Sleep, p: Power, dying: bool)

  /** A queue that nobody uses, live and active. */
  predicate Starts(s: State) {
    && s.r == Ref(false, 0, 0, 0) && s.c == Callers(0, 0, 0, 0) && s.z == Sleep(0, 0, 0, 0)
    && s.p == Power(Active, false, ACTIVE, 0) && !s.dying
  }

  ghost function Unused(): (s: State)
    ensures Starts(s) && Inv(s)
  {
    State(Ref(false, 0, 0, 0), Callers(0, 0, 0, 0), Sleep(0, 0, 0, 0), Power(Active, false, ACTIVE, 0), false)
  }

  function Refs(c: Callers): nat { c.holdPm + c.holdOther + c.inPm + c.inOther }

  /** Runtime PM holds one pm_only count. */
  predicate Own(p: Power) { !p.pc.Active? && !p.pc.Marked? }

  function PmOnly(p: Power): nat { p.ext + (if Own(p) then 1 else 0) }

  /** blk_pre_runtime_suspend holds one freeze. */
  function PmFreeze(p: Power): nat { if p.pc.Killed? || p.pc.Checked? then 1 else 0 }

  /** The test blk_queue_enter makes with its reference in hand. */
  predicate Admits(p: Power, pm: bool) { (pm && !p.rpm.SUSPENDED?) || PmOnly(p) == 0 }

  /** What a sleeping caller waits for. */
  predicate MayRetry(s: State, pm: bool) { s.dying || (s.r.depth == 0 && Admits(s.p, pm)) }

  datatype Step =
    | TryGet(pm: bool) | Check(pm: bool) | Exit(pm: bool) | SleepEnter(pm: bool)
    | FreezeStart | FreezeSleep | FreezeReturn | Unfreeze(returned: bool)
    | ExtSet | ExtClear | WakeAll | Die
    | PmMark | PmSet | PmKill | PmCheck | PmUnfreeze | PmDecide
    | PostSuspend(err: bool) | PreResume | SetActive | PmClear

  predicate Enabled(s: State, e: Step) {
    match e
    case TryGet(pm) => !s.r.dead
    case Check(pm) => (if pm then s.c.holdPm else s.c.holdOther) > 0
    case Exit(pm) => (if pm then s.c.inPm else s.c.inOther) > 0
    case SleepEnter(pm) => !MayRetry(s, pm)
    case FreezeStart => true
    case FreezeSleep => s.r.starting > s.z.freeze && Refs(s.c) > 0
    case FreezeReturn => s.r.starting > s.z.freeze && Refs(s.c) == 0
    case Unfreeze(returned) => if returned then s.r.frozen > 0 else s.r.starting > s.z.freeze
    case ExtSet => true
    case ExtClear => s.p.ext > 0
    case WakeAll => s.z.waking > 0
    case Die => true
    case PmMark => s.p.pc.Active?
    case PmSet => s.p.pc.Marked?
    case PmKill => s.p.pc.Counting?
    case PmCheck => s.p.pc.Killed?
    case PmUnfreeze => s.p.pc.Checked?
    case PmDecide => s.p.pc.Unfrozen?
    case PostSuspend(err) => s.p.pc.Held?
    case PreResume => s.p.pc.Suspended?
    case SetActive => s.p.pc.Suspended? || s.p.pc.Resuming?
    case PmClear => s.p.pc.Clearing?
  }

  // ---- the parts of a step

  /** blk_freeze_queue_start: the first freeze kills the reference. */
  function Freeze(r: Ref): Ref { r.(dead := r.dead || r.depth == 0, depth := r.depth + 1) }

  /** blk_mq_unfreeze_queue: the last one brings it back. */
  function Thaw(r: Ref): Ref { r.(dead := r.dead && r.depth != 1, depth := r.depth - 1) }

  function Wakes(z: Sleep, b: bool): Sleep { z.(waking := z.waking + (if b then 1 else 0)) }

  /** percpu_ref_put: the release function of a dead reference wakes the sleepers. */
  function Put(s: State, c: Callers): State { s.(c := c, z := Wakes(s.z, s.r.dead && Refs(c) == 0)) }

  /** Killing an unused reference releases it at once. */
  function Kill(s: State): State { s.(r := Freeze(s.r), z := Wakes(s.z, s.r.depth == 0 && Refs(s.c) == 0)) }

  function Revive(s: State): State { s.(r := Thaw(s.r), z := Wakes(s.z, s.r.depth == 1)) }

  function CheckStep(s: State, pm: bool): State
    requires Enabled(s, Check(pm))
  {
    var c := if pm then s.c.(holdPm := s.c.holdPm - 1) else s.c.(holdOther := s.c.holdOther - 1);
    if Admits(s.p, pm)
    then s.(c := if pm then c.(inPm := c.inPm + 1) else c.(inOther := c.inOther + 1))
    else Put(s, c)
  }

  function ClearOwn(s: State): State {
    s.(p := s.p.(pc := Active), z := Wakes(s.z, s.p.ext == 0))
  }

  function Apply(s: State, e: Step): State
    requires Enabled(s, e)
  {
    match e
    case TryGet(pm) =>
      s.(c := if pm then s.c.(holdPm := s.c.holdPm + 1) else s.c.(holdOther := s.c.holdOther + 1))
    case Check(pm) => CheckStep(s, pm)
    case Exit(pm) => Put(s, if pm then s.c.(inPm := s.c.inPm - 1) else s.c.(inOther := s.c.inOther - 1))
    case SleepEnter(pm) => s.(z := if pm then s.z.(pm := s.z.pm + 1) else s.z.(other := s.z.other + 1))
    case FreezeStart => var t := Kill(s); t.(r := t.r.(starting := t.r.starting + 1))
    case FreezeSleep => s.(z := s.z.(freeze := s.z.freeze + 1))
    case FreezeReturn => s.(r := s.r.(starting := s.r.starting - 1, frozen := s.r.frozen + 1))
    case Unfreeze(returned) =>
      var t := Revive(s);
      t.(r := if returned then t.r.(frozen := t.r.frozen - 1) else t.r.(starting := t.r.starting - 1))
    case ExtSet => s.(p := s.p.(ext := s.p.ext + 1))
    case ExtClear => s.(p := s.p.(ext := s.p.ext - 1), z := Wakes(s.z, PmOnly(s.p) == 1))
    case WakeAll => s.(z := Sleep(0, 0, 0, s.z.waking - 1))
    case Die => s.(dying := true, z := Wakes(s.z, true))
    case PmMark => s.(p := s.p.(pc := Marked, rpm := SUSPENDING, ok := false))
    case PmSet => s.(p := s.p.(pc := Counting))
    case PmKill => var t := Kill(s); t.(p := t.p.(pc := Killed))
    case PmCheck => s.(p := s.p.(pc := Checked, ok := Refs(s.c) == 0))
    case PmUnfreeze => var t := Revive(s); t.(p := t.p.(pc := Unfrozen))
    case PmDecide => s.(p := s.p.(pc := if s.p.ok then Held else Clearing, rpm := if s.p.ok then s.p.rpm else ACTIVE))
    case PostSuspend(err) => s.(p := s.p.(pc := if err then Clearing else Suspended, rpm := if err then ACTIVE else SUSPENDED))
    case PreResume => s.(p := s.p.(pc := Resuming, rpm := RESUMING))
    case SetActive => s.(p := s.p.(pc := Clearing, rpm := ACTIVE))
    case PmClear => ClearOwn(s)
  }

  // ---- the invariant

  /** Dead exactly while some freeze is held. */
  ghost predicate RefOk(s: State) {
    && s.r.depth == s.r.starting + s.r.frozen + PmFreeze(s.p)
    && (s.r.dead <==> s.r.depth > 0)
    && s.z.freeze <= s.r.starting
  }

  ghost predicate FrozenOk(s: State) { s.r.frozen > 0 ==> Refs(s.c) == 0 }

  /** After a successful check no other caller is inside while the count is held. */
  ghost predicate PowerOk(s: State) { s.p.ok && Own(s.p) ==> s.c.inOther == 0 }

  /** A sleeper whose condition holds has a wake-up coming. */
  ghost predicate WakeOk(s: State) {
    && (s.z.other > 0 ==> s.z.waking > 0 || !MayRetry(s, false))
    && (s.z.pm > 0 ==> s.z.waking > 0 || !MayRetry(s, false))
    && (s.z.freeze > 0 ==> s.z.waking > 0 || Refs(s.c) > 0)
  }

  ghost predicate Inv(s: State) {
    && RefOk(s) && FrozenOk(s) && PowerOk(s) && WakeOk(s)
    && (s.p.ok ==> !s.p.pc.Counting? && !s.p.pc.Killed? && !s.p.pc.Marked?)
    && (s.p.pc.Held? || s.p.pc.Suspended? || s.p.pc.Resuming? ==> s.p.ok)
    && (s.p.rpm.SUSPENDED? <==> s.p.pc.Suspended?)
    && (s.p.pc.Active? || s.p.pc.Clearing? ==> s.p.rpm.ACTIVE?)
  }

  lemma {:induction false} StepKeepsInv(s: State, e: Step)
    requires Inv(s) && Enabled(s, e)
    ensures Inv(Apply(s, e))
  {
    match e {
      case TryGet(_) => CallerKeepsInv(s, e);
      case Check(_) => CallerKeepsInv(s, e);
      case Exit(_) => CallerKeepsInv(s, e);
      case SleepEnter(_) => CallerKeepsInv(s, e);
      case FreezeStart => FreezerKeepsInv(s, e);
      case FreezeSleep => FreezerKeepsInv(s, e);
      case FreezeReturn => FreezerKeepsInv(s, e);
      case Unfreeze(_) => FreezerKeepsInv(s, e);
      case PmMark => MarkKeepsInv(s);
      case PmSet => SetKeepsInv(s);
      case PmKill => KillKeepsInv(s);
      case PmCheck => CheckKeepsInv(s);
      case PmUnfreeze => ThawKeepsInv(s);
      case PmDecide => DecideKeepsInv(s);
      case PostSuspend(err) => PostKeepsInv(s, err);
      case PreResume => ResumeKeepsInv(s, e);
      case SetActive => ResumeKeepsInv(s, e);
      case PmClear => ClearKeepsInv(s);
      case _ => OtherKeepsInv(s, e);
    }
  }

  predicate ByCaller(e: Step) { e.TryGet? || e.Check? || e.Exit? || e.SleepEnter? }

  predicate ByFreezer(e: Step) { e.FreezeStart? || e.FreezeSleep? || e.FreezeReturn? || e.Unfreeze? }

  lemma {:induction false} CallerKeepsInv(s: State, e: Step)
    requires Inv(s) && Enabled(s, e) && ByCaller(e)
    ensures Inv(Apply(s, e))
  {
  }

  lemma {:induction false} FreezerKeepsInv(s: State, e: Step)
    requires Inv(s) && Enabled(s, e) && ByFreezer(e)
    ensures Inv(Apply(s, e))
  {
  }

  /** Other pm_only counts, wake-ups and the dying queue. */
  lemma {:induction false} OtherKeepsInv(s: State, e: Step)
    requires Inv(s) && Enabled(s, e) && (e.ExtSet? || e.ExtClear? || e.WakeAll? || e.Die?)
    ensures Inv(Apply(s, e))
  {
  }

  lemma {:induction false} MarkKeepsInv(s: State)
    requires Inv(s) && Enabled(s, PmMark)
    ensures Inv(Apply(s, PmMark))
  {
  }

  lemma {:induction false} SetKeepsInv(s: State)
    requires Inv(s) && Enabled(s, PmSet)
    ensures Inv(Apply(s, PmSet))
  {
  }

  lemma {:induction false} KillKeepsInv(s: State)
    requires Inv(s) && Enabled(s, PmKill)
    ensures Inv(Apply(s, PmKill))
  {
  }

  lemma {:induction false} CheckKeepsInv(s: State)
    requires Inv(s) && Enabled(s, PmCheck)
    ensures Inv(Apply(s, PmCheck))
  {
  }

  lemma {:induction false} ThawKeepsInv(s: State)
    requires Inv(s) && Enabled(s, PmUnfreeze)
    ensures Inv(Apply(s, PmUnfreeze))
  {
  }

  lemma {:induction false} DecideKeepsInv(s: State)
    requires Inv(s) && Enabled(s, PmDecide)
    ensures Inv(Apply(s, PmDecide))
  {
  }

  lemma {:induction false} PostKeepsInv(s: State, err: bool)
    requires Inv(s) && Enabled(s, PostSuspend(err))
    ensures Inv(Apply(s, PostSuspend(err)))
  {
  }

  lemma {:induction false} ResumeKeepsInv(s: State, e: Step)
    requires Inv(s) && Enabled(s, e) && (e.PreResume? || e.SetActive?)
    ensures Inv(Apply(s, e))
  {
  }

  lemma {:induction false} ClearKeepsInv(s: State)
    requires Inv(s) && Enabled(s, PmClear)
    ensures Inv(Apply(s, PmClear))
  {
  }

  ghost predicate Valid(s: State, run: seq<Step>)
    decreases |run|
  {
    |run| == 0 || (Enabled(s, run[0]) && Valid(Apply(s, run[0]), run[1..]))
  }

  ghost function Run(s: State, run: seq<Step>): State
    requires Valid(s, run)
    decreases |run|
  {
    if |run| == 0 then s else Run(Apply(s, run[0]), run[1..])
  }

  lemma {:induction false} RunKeepsInv(s: State, run: seq<Step>)
    requires Inv(s) && Valid(s, run)
    ensures Inv(Run(s, run))
    decreases |run|
  {
    if |run| > 0 {
      StepKeepsInv(s, run[0]);
      RunKeepsInv(Apply(s, run[0]), run[1..]);
    }
  }

  // ---- freezing

  /** In every run the usage reference is dead exactly while some freeze is held. */
  lemma {:induction false} DeadExactlyWhileFrozen(s: State, run: seq<Step>)
    requires Starts(s) && Valid(s, run)
    ensures var t := Run(s, run);
            && t.r.depth == t.r.starting + t.r.frozen + PmFreeze(t.p)
            && (Enabled(t, TryGet(true)) <==> t.r.depth == 0)
            && (Enabled(t, TryGet(false)) <==> t.r.depth == 0)
  {
    RunKeepsInv(s, run);
  }

  /** Some freeze that has returned is held before every step and at the end. */
  ghost predicate FrozenThroughout(s: State, more: seq<Step>)
    requires Valid(s, more)
    decreases |more|
  {
    s.r.frozen > 0 && (|more| > 0 ==> FrozenThroughout(Apply(s, more[0]), more[1..]))
  }

  /** How many returned freezes a run undoes. */
  ghost function Undone(more: seq<Step>): nat {
    if |more| == 0 then 0 else (if more[0] == Unfreeze(true) then 1 else 0) + Undone(more[1..])
  }

  /** As long as fewer freezes are undone than had returned, one of them is still held. */
  lemma {:induction false} FewerUndone(s: State, more: seq<Step>)
    requires Valid(s, more) && Undone(more) < s.r.frozen
    ensures FrozenThroughout(s, more)
    decreases |more|
  {
    if |more| > 0 {
      FewerUndone(Apply(s, more[0]), more[1..]);
    }
  }

  /**
   * From the return of a freeze until it is undone nobody is inside and nobody gets a reference,
   * whatever other freezes come, return and are undone meanwhile.
   */
  lemma {:induction false} NobodyEntersWhileFrozen(s: State, run: seq<Step>, more: seq<Step>)
    requires Starts(s) && Valid(s, run) && Valid(Run(s, run), more) && FrozenThroughout(Run(s, run), more)
    ensures Refs(Run(Run(s, run), more).c) == 0
    ensures TryGet(true) !in more && TryGet(false) !in more
  {
    RunKeepsInv(s, run);
    FrozenStays(Run(s, run), more);
  }

  lemma {:induction false} FrozenStays(s: State, more: seq<Step>)
    requires Inv(s) && Valid(s, more) && FrozenThroughout(s, more)
    ensures Refs(Run(s, more).c) == 0
    ensures forall i :: 0 <= i < |more| ==> !more[i].TryGet?
    decreases |more|
  {
    if |more| > 0 {
      var e, rest := more[0], more[1..];
      StepKeepsInv(s, e);
      assert !e.TryGet?;
      FrozenStays(Apply(s, e), rest);
      forall i | 0 <= i < |more|
        ensures !more[i].TryGet?
      {
        assert i > 0 ==> more[i] == rest[i - 1];
      }
    }
  }

  // ---- runtime suspend

  /** From the moment blk_pre_runtime_suspend returns 0 until runtime PM drops its count, no other caller is inside. */
  lemma {:induction false} SuspendKeepsOthersOut(s: State, run: seq<Step>, more: seq<Step>)
    requires Starts(s) && Valid(s, run) && Run(s, run).p.pc.Held?
    requires Valid(Run(s, run), more) && PmClear !in more
    ensures Run(Run(s, run), more).c.inOther == 0
    ensures !Admits(Run(Run(s, run), more).p, false)
  {
    RunKeepsInv(s, run);
    SuspendStays(Run(s, run), more);
  }

  lemma {:induction false} SuspendStays(s: State, more: seq<Step>)
    requires Inv(s) && Guarded(s) && Valid(s, more) && PmClear !in more
    ensures Run(s, more).c.inOther == 0 && Own(Run(s, more).p)
    decreases |more|
  {
    if |more| > 0 {
      GuardedStep(s, more[0]);
      SuspendStays(Apply(s, more[0]), more[1..]);
    }
  }

  /** A successful check stands and its count is held. */
  ghost predicate Guarded(s: State) { s.p.ok && Own(s.p) && !s.p.pc.Checked? }

  lemma {:induction false} GuardedStep(s: State, e: Step)
    requires Inv(s) && Guarded(s) && Enabled(s, e) && e != PmClear
    ensures Inv(Apply(s, e)) && Guarded(Apply(s, e))
  {
    StepKeepsInv(s, e);
  }

  /** Between calls runtime PM holds no count and the queue is active; PM callers are refused only while suspended. */
  lemma {:induction false} PowerStates(s: State, run: seq<Step>)
    requires Starts(s) && Valid(s, run)
    ensures var t := Run(s, run);
            && (t.p.pc.Active? ==> t.p.rpm.ACTIVE? && PmOnly(t.p) == t.p.ext)
            && (!Admits(t.p, true) <==> t.p.pc.Suspended?)
  {
    RunKeepsInv(s, run);
  }

  // ---- wake-ups

  /**
   * No wake-up is lost: a sleeping caller whose queue is dying, or is thawed with pm_only at zero,
   * and a sleeping freezer whose queue is unused, have a wake-up coming.
   */
  lemma {:induction false} NoLostWakeup(s: State, run: seq<Step>)
    requires Starts(s) && Valid(s, run)
    ensures var t := Run(s, run);
            && (t.z.other + t.z.pm > 0 && MayRetry(t, false) ==> t.z.waking > 0)
            && (t.z.freeze > 0 && Refs(t.c) == 0 ==> t.z.waking > 0)
  {
    RunKeepsInv(s, run);
  }

  lemma {:induction false} RunSnoc(s: State, run: seq<Step>, e: Step) returns (longer: seq<Step>)
    requires Valid(s, run) && Enabled(Run(s, run), e)
    ensures Valid(s, longer) && Run(s, longer) == Apply(Run(s, run), e)
    decreases |run|
  {
    if |run| == 0 {
      longer := [e];
      assert longer[1..] == [] && Run(Apply(s, e), []) == Apply(s, e);
    } else {
      var rest := RunSnoc(Apply(s, run[0]), run[1..], e);
      longer := [run[0]] + rest;
      assert longer[1..] == rest;
    }
  }

  /** One more step of a run that ends in `t`. */
  lemma {:induction false} Then(s: State, run: seq<Step>, t: State, e: Step) returns (longer: seq<Step>, u: State)
    requires Valid(s, run) && Run(s, run) == t && Enabled(t, e)
    ensures Valid(s, longer) && Run(s, longer) == u && u == Apply(t, e)
  {
    longer := RunSnoc(s, run, e);
    u := Apply(t, e);
  }

  /** The queue is unused, thawed and active, and nobody sleeps. */
  predicate Idle(s: State) {
    && !s.r.dead && s.r.depth == 0 && Refs(s.c) == 0 && !s.dying && s.z == Sleep(0, 0, 0, 0)
    && s.p.pc.Active? && s.p.ext == 0
  }

  /** An idle queue that gets another pm_only count, up to the check of blk_pre_runtime_suspend. */
  lemma {:induction false} CheckedRun(s: State, run0: seq<Step>, t0: State) returns (run: seq<Step>, t: State)
    requires Valid(s, run0) && Run(s, run0) == t0 && Idle(t0)
    ensures Valid(s, run) && Run(s, run) == t && t.p == Power(Checked, true, SUSPENDING, 1)
    ensures t.r.dead && t.r.depth == 1 && t.z == Sleep(0, 0, 0, 0) && !t.dying
  {
    run, t := Then(s, run0, t0, ExtSet);
    run, t := Then(s, run, t, PmMark);
    run, t := Then(s, run, t, PmSet);
    run, t := Then(s, run, t, PmKill);
    run, t := Then(s, run, t, WakeAll);
    run, t := Then(s, run, t, PmCheck);
  }

  /** And on into runtime suspend. */
  lemma {:induction false} SuspendedRun(s: State, run0: seq<Step>, t0: State) returns (run: seq<Step>, t: State)
    requires Valid(s, run0) && Run(s, run0) == t0 && Idle(t0)
    ensures Valid(s, run) && Run(s, run) == t && t.p == Power(Suspended, true, SUSPENDED, 1)
    ensures t.r.depth == 0 && t.z == Sleep(0, 0, 0, 0) && !t.dying
  {
    run, t := CheckedRun(s, run0, t0);
    run, t := Then(s, run, t, PmUnfreeze);
    run, t := Then(s, run, t, WakeAll);
    run, t := Then(s, run, t, PmDecide);
    run, t := Then(s, run, t, PostSuspend(false));
  }

  /**
   * A PM caller may retry earlier, once the device resumes, but no wake-up is sent for that: any run
   * that leaves the queue idle goes on to one where such a caller is left asleep, for as long as
   * someone else holds a pm_only count.
   */
  lemma {:induction false} PmSleeperMissesResume(s: State, run0: seq<Step>, t0: State)
    returns (run: seq<Step>, t: State)
    requires Valid(s, run0) && Run(s, run0) == t0 && Idle(t0)
    ensures Valid(s, run) && Run(s, run) == t
    ensures t.z.pm > 0 && MayRetry(t, true) && t.z.waking == 0 && t.p.pc.Active?
  {
    run, t := SuspendedRun(s, run0, t0);
    run, t := Then(s, run, t, SleepEnter(true));
    run, t := Then(s, run, t, PreResume);
    run, t := Then(s, run, t, SetActive);
    run, t := Then(s, run, t, PmClear);
  }

  /** What a step does to the wake-ups that are coming and to the sleeping PM callers. */
  lemma {:induction false} ResumeSendsNothing(s: State, e: Step)
    requires Enabled(s, e) && (e.PreResume? || e.SetActive?)
    ensures Apply(s, e).z == s.z
  {
  }

  /**
   * Exactly when a resume wakes the PM callers that sleep. The resume's first two steps send no
   * wake-up (`ResumeSendsNothing`). In every run, whatever happened since, its last step sends one
   * if and only if nobody else holds a pm_only count at that moment; the callers may retry in either
   * case once no freeze is held.
   */
  lemma {:induction false} ResumeWakesPmSleepers(s: State, run: seq<Step>)
    requires Starts(s) && Valid(s, run) && Run(s, run).p.pc.Clearing?
    ensures var b, t := Run(s, run), Apply(Run(s, run), PmClear);
            && t.z.waking == b.z.waking + (if b.p.ext == 0 then 1 else 0)
            && t.z.pm == b.z.pm
            && (b.r.depth == 0 ==> MayRetry(t, true))
  {
    RunKeepsInv(s, run);
  }
}
