/**
 * The fields of struct request_queue that entering, freezing and runtime PM update in place
 * (block/blk-core.c, block/blk-mq.c, block/blk-pm.c). The ghost field `g` is the state of the
 * interleaved model; each method performs a step of it, or several where the source does.
 */
module RequestQueue {
  import opened QueueUsage

  const EBUSY: int := 16

  class RequestQueue {
    var dead: bool
    var depth: int
    var refs: nat
    var pmOnly: int
    var rpm: Rpm
    const dev: bool
    ghost var g: State

    ghost predicate Shows()
      reads this
    {
      && Inv(g)
      && dead == g.r.dead && depth == g.r.depth && refs == Refs(g.c) && pmOnly == PmOnly(g.p) && rpm == g.p.rpm
    }

    constructor (dev: bool)
      ensures Shows() && Starts(g) && this.dev == dev
    {
      dead, depth, refs, pmOnly, rpm, this.dev := false, 0, 0, 0, ACTIVE, dev;
      g := Unused();
    }

    /** The step is taken in the model. */
    ghost method Took(e: Step)
      requires Inv(g) && Enabled(g, e)
      modifies this`g
      ensures Inv(g) && g == Apply(old(g), e)
    {
      StepKeepsInv(g, e);
      g := Apply(g, e);
    }

    /** blk_freeze_queue_start, for a freezer or for runtime PM. */
    method FreezeStartFor(ghost e: Step)
      requires Shows() && Enabled(g, e) && (e.FreezeStart? || e.PmKill?)
      modifies this`depth, this`dead, this`g
      ensures Shows() && g == Apply(old(g), e)
    {
      Took(e);
      depth := depth + 1;
      if depth == 1 {
        dead := true;
      }
    }

    /** blk_mq_unfreeze_queue. */
    method UnfreezeFor(ghost e: Step)
      requires Shows() && Enabled(g, e) && (e.Unfreeze? || e.PmUnfreeze?)
      modifies this`depth, this`dead, this`g
      ensures Shows() && g == Apply(old(g), e)
    {
      Took(e);
      depth := depth - 1;
      if depth == 0 {
        dead := false;
      }
    }

    /** One attempt of blk_queue_enter: a reference, then the look at pm_only, and back if refused. */
    method TryEnter(pm: bool) returns (entered: bool)
      requires Shows()
      modifies this`refs, this`g
      ensures Shows() && entered == (!old(dead) && Admits(old(g.p), pm))
      ensures g == (if dead then old(g) else Apply(Apply(old(g), TryGet(pm)), Check(pm)))
    {
      if dead {
        return false;
      }
      refs := refs + 1;
      Took(TryGet(pm));
      entered := (pm && rpm != SUSPENDED) || pmOnly == 0;
      Took(Check(pm));
      if !entered {
        refs := refs - 1;
      }
    }

    /** blk_queue_exit. */
    method Leave(pm: bool)
      requires Shows() && Enabled(g, Exit(pm))
      modifies this`refs, this`g
      ensures Shows() && g == Apply(old(g), Exit(pm))
    {
      refs := refs - 1;
      Took(Exit(pm));
    }

    /** Its first part: the status, then the pm_only count. */
    method MarkSuspending()
      requires Shows() && Enabled(g, PmMark)
      modifies this`rpm, this`pmOnly, this`g
      ensures Shows() && rpm == SUSPENDING && pmOnly == old(pmOnly) + 1 && g.p.pc.Counting? && g.c == old(g.c)
    {
      rpm := SUSPENDING;
      Took(PmMark);
      pmOnly := pmOnly + 1;
      Took(PmSet);
    }

    /** Its second part: freeze, look at the reference, thaw. */
    method LookIdle() returns (ret: int)
      requires Shows() && g.p.pc.Counting? && rpm == SUSPENDING
      modifies this`depth, this`dead, this`g
      ensures Shows() && depth == old(depth) && ret == (if refs == 0 then 0 else -EBUSY)
      ensures g.p.pc.Unfrozen? && g.p.ok == (ret == 0)
    {
      ret := -EBUSY;
      FreezeStartFor(PmKill);
      if refs == 0 {
        ret := 0;
      }
      Took(PmCheck);
      UnfreezeFor(PmUnfreeze);
    }

    /** Its last part: if the queue is in use, take the status and the count back. */
    method KeepOrUndo(ret: int)
      requires Shows() && g.p.pc.Unfrozen? && g.p.ok == (ret >= 0) && rpm == SUSPENDING
      modifies this`rpm, this`pmOnly, this`g
      ensures Shows() && pmOnly == old(pmOnly) - (if ret >= 0 then 0 else 1)
      ensures if ret >= 0 then g.p.pc.Held? && rpm == SUSPENDING else g.p.pc.Active? && rpm == ACTIVE
    {
      Took(PmDecide);
      if ret < 0 {
        rpm := ACTIVE;
        pmOnly := pmOnly - 1;
        Took(PmClear);
      }
    }

    /** blk_pre_runtime_suspend, with no other step in between: refused exactly when the queue is in use. */
    method PreRuntimeSuspend() returns (ret: int)
      requires Shows() && (dev ==> Enabled(g, PmMark))
      modifies this
      ensures Shows() && refs == old(refs) && depth == old(depth)
      ensures !dev ==> ret == 0 && g == old(g)
      ensures dev ==> ret == (if old(refs) == 0 then 0 else -EBUSY)
      ensures dev ==> pmOnly == old(pmOnly) + (if ret == 0 then 1 else 0)
      ensures dev ==> if ret == 0 then g.p.pc.Held? && rpm == SUSPENDING else g.p.pc.Active? && rpm == ACTIVE
    {
      ret := 0;
      if dev {
        MarkSuspending();
        ret := LookIdle();
        KeepOrUndo(ret);
      }
    }

    /** blk_post_runtime_suspend. */
    method PostRuntimeSuspend(err: bool)
      requires Shows() && (dev ==> Enabled(g, PostSuspend(err)))
      modifies this`rpm, this`pmOnly, this`g
      ensures Shows() && (!dev ==> g == old(g))
      ensures dev ==> if err then g == Apply(Apply(old(g), PostSuspend(true)), PmClear) else g == Apply(old(g), PostSuspend(false))
    {
      if !dev {
        return;
      }
      rpm := if err then ACTIVE else SUSPENDED;
      Took(PostSuspend(err));
      if err {
        pmOnly := pmOnly - 1;
        Took(PmClear);
      }
    }

    /** blk_pre_runtime_resume. */
    method PreRuntimeResume()
      requires Shows() && (dev ==> Enabled(g, PreResume))
      modifies this`rpm, this`g
      ensures Shows() && g == (if dev then Apply(old(g), PreResume) else old(g))
    {
      if dev {
        rpm := RESUMING;
        Took(PreResume);
      }
    }

    /** blk_set_runtime_active: the count is dropped only if the queue was not active already. */
    method SetRuntimeActive()
      requires Shows() && (dev ==> g.p.pc.Active? || Enabled(g, SetActive))
      modifies this`rpm, this`pmOnly, this`g
      ensures Shows()
      ensures (g == (if dev && old(rpm) != ACTIVE then Apply(Apply(old(g), SetActive), PmClear) else old(g)))
    {
      if !dev {
        return;
      }
      var oldStatus := rpm;
      rpm := ACTIVE;
      if oldStatus != ACTIVE {
        Took(SetActive);
        pmOnly := pmOnly - 1;
        Took(PmClear);
      }
    }
  }
}
