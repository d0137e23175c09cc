/**
 * Submission without recursion (block/blk-core.c). A stacked driver's ->submit_bio submits further
 * bios; the loop collects them on a list and replays them so that the order is that of a recursive
 * depth-first submission in which the bios for a lower queue go first.
 */
module SubmitLoop {

  /** A bio with the bios its ->submit_bio will submit, in order; `enters` says if its queue admits it. */
  datatype Bio = Bio(id: nat, queue: nat, enters: bool, below: seq<Bio>)

  datatype Event = Submitted(id: nat) | Refused(id: nat)

  // ---- the recursive submission

  /** Depth first: the bio, then its lower-queue bios, then its same-queue bios, each with all below it. */
  ghost function Deep(b: Bio): seq<Event> {
    if b.enters
    then [Submitted(b.id)] + (DeepPick(b.below, b.queue, false) + DeepPick(b.below, b.queue, true))
    else [Refused(b.id)]
  }

  /** In order, those whose being for `queue` is `same`. */
  ghost function DeepPick(bs: seq<Bio>, queue: nat, same: bool): seq<Event> {
    if |bs| == 0 then []
    else (if (bs[0].queue == queue) == same then Deep(bs[0]) else []) + DeepPick(bs[1..], queue, same)
  }

  /** One bio after another. */
  ghost function DeepList(bs: seq<Bio>): seq<Event> {
    if |bs| == 0 then [] else Deep(bs[0]) + DeepList(bs[1..])
  }

  // ---- sorting

  ghost function Pick(bs: seq<Bio>, queue: nat, same: bool): seq<Bio> {
    if |bs| == 0 then []
    else (if (bs[0].queue == queue) == same then [bs[0]] else []) + Pick(bs[1..], queue, same)
  }

  lemma {:induction false} DeepPicked(bs: seq<Bio>, queue: nat, same: bool)
    ensures DeepList(Pick(bs, queue, same)) == DeepPick(bs, queue, same)
    decreases |bs|
  {
    if |bs| > 0 {
      var rest := Pick(bs[1..], queue, same);
      DeepPicked(bs[1..], queue, same);
      if (bs[0].queue == queue) == same {
        assert ([bs[0]] + rest)[1..] == rest;
      } else {
        assert [] + rest == rest;
      }
    }
  }

  lemma {:induction false} DeepAppend(xs: seq<Bio>, ys: seq<Bio>)
    ensures DeepList(xs + ys) == DeepList(xs) + DeepList(ys)
    decreases |xs|
  {
    if |xs| == 0 {
      assert xs + ys == ys;
    } else {
      DeepAppend(xs[1..], ys);
      assert (xs + ys)[1..] == xs[1..] + ys;
      assert DeepList(xs + ys) == Deep(xs[0]) + (DeepList(xs[1..]) + DeepList(ys));
    }
  }

  /** The loop that pops the new bios and sorts them, keeping their order. */
  method SortBios(bios: seq<Bio>, queue: nat) returns (lower: seq<Bio>, same: seq<Bio>)
    ensures lower == Pick(bios, queue, false) && same == Pick(bios, queue, true)
  {
    lower, same := [], [];
    var left := bios;
    while |left| > 0
      invariant lower + Pick(left, queue, false) == Pick(bios, queue, false)
      invariant same + Pick(left, queue, true) == Pick(bios, queue, true)
    {
      var bio := left[0];
      left := left[1..];
      if bio.queue == queue {
        same := same + [bio];
      } else {
        lower := lower + [bio];
      }
    }
  }

  // ---- how much is left to do

  ghost function Size(b: Bio): nat { 1 + SizeList(b.below) }

  ghost function SizeList(bs: seq<Bio>): nat {
    if |bs| == 0 then 0 else Size(bs[0]) + SizeList(bs[1..])
  }

  lemma {:induction false} SizeAppend(xs: seq<Bio>, ys: seq<Bio>)
    ensures SizeList(xs + ys) == SizeList(xs) + SizeList(ys)
    decreases |xs|
  {
    if |xs| == 0 {
      assert xs + ys == ys;
    } else {
      SizeAppend(xs[1..], ys);
      assert (xs + ys)[1..] == xs[1..] + ys;
    }
  }

  /** Sorting loses nothing. */
  lemma {:induction false} SizePicked(bs: seq<Bio>, queue: nat)
    ensures SizeList(Pick(bs, queue, false)) + SizeList(Pick(bs, queue, true)) == SizeList(bs)
    decreases |bs|
  {
    if |bs| > 0 {
      var lower, same := Pick(bs[1..], queue, false), Pick(bs[1..], queue, true);
      SizePicked(bs[1..], queue);
      assert ([bs[0]] + lower)[1..] == lower && ([bs[0]] + same)[1..] == same;
      assert [] + lower == lower && [] + same == same;
    }
  }

  // ---- one round

  /** The pending list after a bio was submitted. */
  ghost function Next(b: Bio, rest: seq<Bio>): seq<Bio> {
    Pick(b.below, b.queue, false) + Pick(b.below, b.queue, true) + rest
  }

  /** What one ->submit_bio leaves to do is what the bio held below it. */
  lemma {:induction false} SubmittedRound(b: Bio, rest: seq<Bio>)
    requires b.enters
    ensures Deep(b) + DeepList(rest) == [Submitted(b.id)] + DeepList(Next(b, rest))
  {
    var lower, same := Pick(b.below, b.queue, false), Pick(b.below, b.queue, true);
    DeepPicked(b.below, b.queue, false);
    DeepPicked(b.below, b.queue, true);
    DeepAppend(lower + same, rest);
    DeepAppend(lower, same);
  }

  lemma {:induction false} SubmittedSize(b: Bio, rest: seq<Bio>)
    ensures SizeList(Next(b, rest)) < Size(b) + SizeList(rest)
  {
    var lower, same := Pick(b.below, b.queue, false), Pick(b.below, b.queue, true);
    SizePicked(b.below, b.queue);
    SizeAppend(lower, same);
    SizeAppend(lower + same, rest);
  }

  /** The body of the loop: submit `bio`, sort what it submitted, put it before the older bios. */
  method Round(bio: Bio, list0: seq<Bio>) returns (event: Event, pending: seq<Bio>)
    ensures Deep(bio) + DeepList(list0) == [event] + DeepList(pending)
    ensures SizeList(pending) < Size(bio) + SizeList(list0)
  {
    if !bio.enters {
      return Refused(bio.id), list0;
    }
    SubmittedRound(bio, list0);
    SubmittedSize(bio, list0);
    var lower, same := SortBios(bio.below, bio.queue);
    return Submitted(bio.id), lower + same + list0;
  }

  /**
   * __submit_bio_noacct: the log is that of the recursive submission, for every finite tree of
   * submissions.
   */
  method SubmitBioNoacct(root: Bio) returns (log: seq<Event>)
    ensures log == Deep(root)
  {
    var event, list0 := Round(root, []);
    log := [event];
    while |list0| > 0
      invariant log + DeepList(list0) == Deep(root)
      decreases SizeList(list0)
    {
      ghost var before := log;
      var bio, rest := list0[0], list0[1..];
      event, list0 := Round(bio, rest);
      log := log + [event];
      assert log + DeepList(list0) == before + ([event] + DeepList(list0));
    }
  }

  // ---- every bio exactly once

  /** The bios reached when drivers submit without regard to order. */
  ghost function Reached(b: Bio): multiset<Event> {
    if b.enters then multiset{Submitted(b.id)} + ReachedList(b.below) else multiset{Refused(b.id)}
  }

  ghost function ReachedList(bs: seq<Bio>): multiset<Event> {
    if |bs| == 0 then multiset{} else Reached(bs[0]) + ReachedList(bs[1..])
  }

  /** Reordering handles every bio of the tree exactly once. */
  lemma {:induction false} DeepHandlesEach(b: Bio)
    ensures multiset(Deep(b)) == Reached(b)
  {
    if b.enters {
      PickHandlesEach(b.below, b.queue);
      assert multiset(Deep(b))
          == multiset{Submitted(b.id)} + (multiset(DeepPick(b.below, b.queue, false)) + multiset(DeepPick(b.below, b.queue, true)));
    }
  }

  lemma {:induction false} PickHandlesEach(bs: seq<Bio>, queue: nat)
    ensures multiset(DeepPick(bs, queue, false)) + multiset(DeepPick(bs, queue, true)) == ReachedList(bs)
  {
    if |bs| > 0 {
      DeepHandlesEach(bs[0]);
      PickHandlesEach(bs[1..], queue);
      var same := bs[0].queue == queue;
      assert DeepPick(bs, queue, same) == Deep(bs[0]) + DeepPick(bs[1..], queue, same);
      assert DeepPick(bs, queue, !same) == DeepPick(bs[1..], queue, !same);
    }
  }
}
