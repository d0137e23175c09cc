/**
 * struct badblocks and its operations, edited in place (block/badblocks.c). Each method is proved
 * equal to its function on the table; what those functions mean is proved beside them.
 */
module Badblocks {
  import opened BadblocksModel
  import opened BadblocksSet

  predicate Overlaps(r: Range, s: int, target: int) { r.start < target && s < End(r) }

  ghost predicate AnyOverlap(t: seq<Range>, from: int, s: int, target: int) {
    exists i :: 0 <= i < |t| && from <= i && Overlaps(t[i], s, target)
  }

  ghost predicate AnyUnacked(t: seq<Range>, from: int, s: int, target: int) {
    exists i :: 0 <= i < |t| && from <= i && Overlaps(t[i], s, target) && !t[i].ack
  }

  /** `first` and `len` describe the lowest overlapping range at or after `from`. */
  ghost predicate Lowest(t: seq<Range>, from: int, s: int, target: int, first: int, len: int) {
    exists i :: 0 <= i < |t| && from <= i && Overlaps(t[i], s, target) && first == t[i].start && len == t[i].len
      && !AnyBefore(t, from, i, s, target)
  }

  ghost predicate AnyBefore(t: seq<Range>, from: int, to: int, s: int, target: int) {
    exists j :: 0 <= j < |t| && from <= j < to && Overlaps(t[j], s, target)
  }

  /** The answer badblocks_check gives for the ranges at or after `from`, read off a linear scan. */
  ghost predicate Answer(t: seq<Range>, from: int, s: int, target: int, rv: int, first: int, len: int) {
    && rv == (if !AnyOverlap(t, from, s, target) then 0 else if AnyUnacked(t, from, s, target) then -1 else 1)
    && (rv != 0 ==> Lowest(t, from, s, target, first, len))
  }

  lemma {:induction false} AnswerStep(t: seq<Range>, i: nat, s: int, target: int, rv: int, first: int, len: int)
    requires i < |t| && Answer(t, i + 1, s, target, rv, first, len) && s < End(t[i])
    ensures t[i].start >= target ==> Answer(t, i, s, target, rv, first, len)
    ensures (t[i].start < target
             ==> Answer(t, i, s, target, if rv != -1 && t[i].ack then 1 else -1, t[i].start, t[i].len))
  {
    if t[i].start < target {
      assert Overlaps(t[i], s, target);
      AnyStep(t, i, s, target);
    } else {
      AnyStep(t, i, s, target);
      LowestStep(t, i, s, target, first, len);
    }
  }

  lemma {:induction false} AnyStep(t: seq<Range>, i: nat, s: int, target: int)
    requires i < |t|
    ensures AnyOverlap(t, i, s, target) <==> Overlaps(t[i], s, target) || AnyOverlap(t, i + 1, s, target)
    ensures (AnyUnacked(t, i, s, target)
             <==> (Overlaps(t[i], s, target) && !t[i].ack) || AnyUnacked(t, i + 1, s, target))
  {
  }

  lemma {:induction false} LowestStep(t: seq<Range>, i: nat, s: int, target: int, first: int, len: int)
    requires i < |t| && !Overlaps(t[i], s, target)
    ensures Lowest(t, i + 1, s, target, first, len) ==> Lowest(t, i, s, target, first, len)
  {
    if Lowest(t, i + 1, s, target, first, len) {
      var k :| 0 <= k < |t| && i + 1 <= k && Overlaps(t[k], s, target) && first == t[k].start && len == t[k].len
        && !AnyBefore(t, i + 1, k, s, target);
      assert !AnyBefore(t, i, k, s, target);
    }
  }

  /** Ranges below `from` that do not overlap change nothing. */
  lemma {:induction false} AnswerDown(t: seq<Range>, from: int, s: int, target: int, rv: int, first: int, len: int)
    requires 0 <= from && Answer(t, from, s, target, rv, first, len)
    requires forall j :: 0 <= j < |t| && j < from ==> !Overlaps(t[j], s, target)
    ensures Answer(t, 0, s, target, rv, first, len)
  {
    assert AnyOverlap(t, 0, s, target) == AnyOverlap(t, from, s, target);
    assert AnyUnacked(t, 0, s, target) == AnyUnacked(t, from, s, target);
    if Lowest(t, from, s, target, first, len) {
      var k :| 0 <= k < |t| && from <= k && Overlaps(t[k], s, target) && first == t[k].start && len == t[k].len
        && !AnyBefore(t, from, k, s, target);
      assert !AnyBefore(t, 0, k, s, target);
    }
  }

  lemma {:induction false} EndsBefore(t: seq<Range>, i: nat, s: int, target: int)
    requires Sorted(t) && i < |t| && End(t[i]) <= s
    ensures forall j :: 0 <= j <= i ==> !Overlaps(t[j], s, target)
  {
    forall j | 0 <= j <= i
      ensures !Overlaps(t[j], s, target)
    {
      assert j < i ==> End(t[j]) <= t[i].start;
    }
  }

  /** Where a sorted table passes `bound`. */
  lemma {:induction false} BelowIs(t: seq<Range>, bound: int, k: nat)
    requires Sorted(t) && k <= |t|
    requires k > 0 ==> t[k - 1].start < bound
    requires k < |t| ==> bound <= t[k].start
    ensures Below(t, bound) == k
  {
    BelowSplits(t, bound);
    var m := Below(t, bound);
    assert m < |t| ==> t[m..][0] == t[m];
  }

  /** Nothing at or after the search position overlaps. */
  lemma {:induction false} AnswerStart(t: seq<Range>, hi: nat, s: int, target: int)
    requires Sorted(t) && Below(t, target) <= hi
    ensures Answer(t, hi, s, target, 0, 0, 0)
  {
    var k := Below(t, target);
    BelowSplits(t, target);
    forall j | 0 <= j < |t| && hi <= j
      ensures !Overlaps(t[j], s, target)
    {
      assert t[k..][j - k] == t[j];
    }
  }

  lemma {:induction false} StartBelow(t: seq<Range>, lo: nat, target: int)
    requires Sorted(t) && lo + 1 == Below(t, target)
    ensures lo < |t| && forall j :: 0 <= j <= lo ==> t[j].start < target
  {
    BelowSplits(t, target);
  }

  /** What badblocks_clear makes of a range at `lo` that reaches over `target`. */
  lemma {:induction false} ClearOver(t: seq<Range>, lo: nat, s: int, target: int, tail: seq<Range>)
    requires lo + 1 == Below(t, target) <= |t| && End(t[lo]) > target
    requires tail == [Range(target, End(t[lo]) - target, t[lo].ack)] + t[lo + 1..]
    ensures t[lo].start >= s ==> ClearTable(t, s, target) == KeepLeft(t[..lo], s) + tail
    ensures (t[lo].start < s && |t| < MAX_BADBLOCKS
             ==> ClearTable(t, s, target) == t[..lo] + [Range(t[lo].start, s - t[lo].start, t[lo].ack)] + tail)
  {
  }

  /** The edits that split the range at `lo`, seen as one. */
  lemma {:induction false} SplitEdits(t: seq<Range>, lo: nat, a: Range, b: Range, u: seq<Range>)
    requires lo < |t| && u == (t[..lo] + [a] + t[lo..])[lo + 1 := b]
    ensures u[..lo + 1] == t[..lo] + [a] && u[lo + 1..] == [b] + t[lo + 1..] && u[lo] == a
    ensures forall j :: 0 <= j < lo ==> u[j] == t[j]
  {
  }

  lemma {:induction false} TailSplit(t: seq<Range>, lo: nat, s: int, target: int)
    requires Sorted(t) && lo < |t| < MAX_BADBLOCKS && lo + 1 == Below(t, target) && End(t[lo]) > target && t[lo].start < s
    ensures (var r := t[lo];
             var u := (t[..lo] + [Range(r.start, s - r.start, r.ack)] + t[lo..])
                      [lo + 1 := Range(target, End(r) - target, r.ack)];
             && (forall j :: 0 <= j <= lo ==> u[j].start < target)
             && KeepLeft(u[..lo + 1], s) + u[lo + 1..] == ClearTable(t, s, target))
  {
    var r := t[lo];
    var a, b := Range(r.start, s - r.start, r.ack), Range(target, End(r) - target, r.ack);
    var u := (t[..lo] + [a] + t[lo..])[lo + 1 := b];
    StartBelow(t, lo, target);
    SplitEdits(t, lo, a, b, u);
    ClearOver(t, lo, s, target, [b] + t[lo + 1..]);
    TrimNone(u, lo, s);
    assert (t[..lo] + [a]) + ([b] + t[lo + 1..]) == t[..lo] + [a] + ([b] + t[lo + 1..]);
  }

  /** The edit that keeps only the tail of the range at `lo`. */
  lemma {:induction false} TailOnly(t: seq<Range>, lo: nat, s: int, target: int)
    requires Sorted(t) && lo < |t| && lo + 1 == Below(t, target) && End(t[lo]) > target && t[lo].start >= s
    ensures (var u := t[lo := Range(target, End(t[lo]) - target, t[lo].ack)];
             && (forall j :: 0 <= j < lo ==> u[j].start < target)
             && KeepLeft(u[..lo], s) + u[lo..] == ClearTable(t, s, target))
  {
    var b := Range(target, End(t[lo]) - target, t[lo].ack);
    StartBelow(t, lo, target);
    ReplaceEdit(t, lo, b, t[lo := b]);
    ClearOver(t, lo, s, target, [b] + t[lo + 1..]);
  }

  lemma {:induction false} ReplaceEdit(t: seq<Range>, lo: nat, b: Range, u: seq<Range>)
    requires lo < |t| && u == t[lo := b]
    ensures u[..lo] == t[..lo] && u[lo..] == [b] + t[lo + 1..]
  {
  }

  /** No range reaches over `target`. */
  lemma {:induction false} WholeOnly(t: seq<Range>, lo: nat, s: int, target: int)
    requires Sorted(t) && lo < |t| && lo + 1 == Below(t, target) && End(t[lo]) <= target
    ensures forall j :: 0 <= j <= lo ==> t[j].start < target
    ensures KeepLeft(t[..lo + 1], s) + t[lo + 1..] == ClearTable(t, s, target)
  {
    StartBelow(t, lo, target);
  }

  lemma {:induction false} NothingBelow(t: seq<Range>, s: int, target: int)
    requires Below(t, target) == 0
    ensures ClearTable(t, s, target) == t && !ClearFails(t, s, target)
  {
    assert t[..0] == [] && t[0..] == t && [] + t == t;
  }

  /** The walk stops at a range that starts before `s`: its head stays. */
  lemma {:induction false} TrimOne(t: seq<Range>, lo: nat, hi: nat, s: int, kept: seq<Range>)
    requires lo < hi <= |t| && t[lo].start < s < End(t[lo]) && KeepLeft(t[..lo + 1], s) == kept
    ensures (var u := t[lo := Range(t[lo].start, s - t[lo].start, t[lo].ack)];
             u[..lo + 1] + u[hi..] == kept + t[hi..])
  {
    assert t[..lo + 1][..lo] == t[..lo] && t[..lo + 1][lo] == t[lo];
    var u := t[lo := Range(t[lo].start, s - t[lo].start, t[lo].ack)];
    assert u[..lo + 1] == t[..lo] + [u[lo]];
    assert u[hi..] == t[hi..];
  }

  /** A range that starts at `s` or later goes. */
  lemma {:induction false} TrimAll(t: seq<Range>, lo: nat, s: int)
    requires lo < |t| && s <= t[lo].start && s < End(t[lo])
    ensures KeepLeft(t[..lo + 1], s) == KeepLeft(t[..lo], s)
  {
    assert t[..lo + 1][..lo] == t[..lo] && t[..lo + 1][lo] == t[lo];
  }

  /** A range that ends at or before `s` stays, with those before it. */
  lemma {:induction false} TrimNone(t: seq<Range>, lo: int, s: int)
    requires -1 <= lo < |t| && (lo >= 0 ==> End(t[lo]) <= s)
    ensures KeepLeft(t[..lo + 1], s) == t[..lo + 1]
  {
    assert lo >= 0 ==> t[..lo + 1][lo] == t[lo];
  }

  lemma {:induction false} SameTable(t: seq<Range>, u: seq<Range>, r: seq<Range>)
    requires t == r && u == t
    ensures u == r
  {
  }

  lemma {:induction false} SameResult(t: seq<Range>, u: seq<Range>, failed: bool, r: (seq<Range>, bool))
    requires (t, failed) == r && u == t
    ensures (u, failed) == r
  {
  }

  class Badblocks {
    const p: array<Range>
    var count: nat
    var shift: int
    var unackedExist: bool
    var changed: bool

    ghost predicate Valid()
      reads this`count
    {
      p.Length == MAX_BADBLOCKS && count <= MAX_BADBLOCKS
    }

    ghost function Table(): (t: seq<Range>)
      requires Valid()
      reads this`count, p
    {
      p[..count]
    }

    constructor (shift: int)
      ensures Valid() && Table() == [] && this.shift == shift && !unackedExist && !changed && fresh(p)
    {
      p := new Range[MAX_BADBLOCKS](_ => Range(0, 1, true));
      count, this.shift, unackedExist, changed := 0, shift, false, false;
    }

    /** The binary search: `lo` is the last range that starts before `bound`, if any does. */
    method Search(bound: int) returns (lo: nat, hi: nat)
      requires Valid() && Sorted(Table())
      ensures count == 0 ==> lo == hi == 0
      ensures count > 0 ==> lo < count && hi == lo + 1
      ensures count > 0 ==> Below(Table(), bound) == if p[lo].start < bound then hi else lo
      ensures count > 0 && p[lo].start >= bound ==> lo == 0
    {
      lo, hi := 0, count;
      while hi - lo > 1
        invariant 0 <= lo <= hi <= count && (count > 0 ==> lo < hi)
        invariant lo > 0 ==> p[lo].start < bound
        invariant hi < count ==> bound <= p[hi].start
      {
        var mid := (lo + hi) / 2;
        if p[mid].start < bound {
          lo := mid;
        } else {
          hi := mid;
        }
      }
      if count > 0 {
        BelowIs(Table(), bound, if p[lo].start < bound then hi else lo);
      }
    }

    /** The downward scan of badblocks_check over the ranges that end after `b`. */
    method Scan(lo0: nat, b: int, target: int) returns (rv: int, firstBad: int, badSectors: int)
      requires Valid() && Sorted(Table()) && lo0 < count
      requires Answer(Table(), lo0 + 1, b, target, 0, 0, 0)
      ensures Answer(Table(), 0, b, target, rv, firstBad, badSectors)
    {
      rv, firstBad, badSectors := 0, 0, 0;
      var lo: int := lo0;
      ghost var t := Table();
      while lo >= 0 && p[lo].start + p[lo].len > b
        invariant -1 <= lo < count
        invariant Answer(t, lo + 1, b, target, rv, firstBad, badSectors)
      {
        AnswerStep(t, lo, b, target, rv, firstBad, badSectors);
        if p[lo].start < target {
          rv := if rv != -1 && p[lo].ack then 1 else -1;
          firstBad, badSectors := p[lo].start, p[lo].len;
        }
        lo := lo - 1;
      }
      if lo >= 0 {
        EndsBefore(t, lo, b, target);
      }
      AnswerDown(t, lo + 1, b, target, rv, firstBad, badSectors);
    }

    /** badblocks_check: agrees with a linear scan of the table. */
    method Check(s: nat, sectors: nat) returns (rv: int, firstBad: int, badSectors: int)
      requires Valid() && Sorted(Table())
      ensures Answer(Table(), 0, Outward(shift, s, sectors).0, Outward(shift, s, sectors).1, rv, firstBad, badSectors)
    {
      var (b, target) := Outward(shift, s, sectors);
      var lo, hi := Search(target);
      AnswerStart(Table(), hi, b, target);
      if hi > lo {
        rv, firstBad, badSectors := Scan(lo, b, target);
      } else {
        rv, firstBad, badSectors := 0, 0, 0;
      }
    }

    /** badblocks_update_acked: the flag is dropped once nothing is unacknowledged. */
    method UpdateAcked()
      requires Valid()
      modifies this`unackedExist
      ensures unackedExist == (old(unackedExist) && Unacked(Table()))
    {
      if !unackedExist {
        return;
      }
      var unacked := false;
      var i := 0;
      while i < count
        invariant i <= count && !unacked
        invariant forall j :: 0 <= j < i ==> p[j].ack
      {
        if !p[i].ack {
          unacked := true;
          assert !Table()[i].ack;
          break;
        }
        i := i + 1;
      }
      if !unacked {
        unackedExist := false;
      }
    }

    // ---- the edits: an assignment and the two directions of memmove

    method Put(i: nat, r: Range)
      requires Valid() && i < count
      modifies p
      ensures Table() == old(Table())[i := r]
    {
      p[i] := r;
    }

    method Insert(i: nat, r: Range)
      requires Valid() && i <= count < MAX_BADBLOCKS
      modifies this`count, p
      ensures Valid() && Table() == old(Table())[..i] + [r] + old(Table())[i..]
    {
      forall k | i <= k < count {
        p[k + 1] := p[k];
      }
      count := count + 1;
      p[i] := r;
    }

    method Discard(from: nat, to: nat)
      requires Valid() && from <= to <= count
      modifies this`count, p
      ensures Valid() && Table() == old(Table())[..from] + old(Table())[to..]
    {
      forall k | to <= k < count {
        p[from + (k - to)] := p[k];
      }
      count := count - (to - from);
    }

    // ---- badblocks_clear

    /** Trim from range `lo0` down to what lies before `s`, and drop what is no longer needed. */
    method TrimLeft(lo0: int, hi: nat, s: int, target: int)
      requires Valid() && -1 <= lo0 < hi <= count
      requires forall j :: 0 <= j <= lo0 ==> p[j].start < target
      modifies this`count, p
      ensures Valid() && Table() == KeepLeft(old(Table())[..lo0 + 1], s) + old(Table())[hi..]
    {
      var lo := lo0;
      ghost var t, kept := Table(), KeepLeft(Table()[..lo0 + 1], s);
      while lo >= 0 && p[lo].start + p[lo].len > s && p[lo].start < target
        invariant -1 <= lo <= lo0 && Valid() && Table() == t && count == |t|
        invariant KeepLeft(t[..lo + 1], s) == kept
      {
        assert t[lo] == p[lo];
        if p[lo].start < s {
          TrimOne(t, lo, hi, s, kept);
          Put(lo, Range(p[lo].start, s - p[lo].start, p[lo].ack));
          Discard(lo + 1, hi);
          return;
        }
        TrimAll(t, lo, s);
        lo := lo - 1;
      }
      assert lo >= 0 ==> t[lo] == p[lo];
      TrimNone(t, lo, s);
      Discard(lo + 1, hi);
    }

    /** badblocks_clear on rounded blocks; the answer is whether the table was full. */
    method ClearBlocks(s: int, target: int) returns (full: bool)
      requires Valid() && Sorted(Table())
      modifies this`count, p
      ensures Valid() && Table() == ClearTable(old(Table()), s, target)
      ensures full == ClearFails(old(Table()), s, target)
    {
      var lo, hi := Search(target);
      full := false;
      if hi > lo && p[lo].start < target {
        if p[lo].start + p[lo].len > target {
          full := ClearTail(lo, s, target);
        } else {
          ClearWhole(lo, hi, s, target);
        }
      } else {
        NothingBelow(Table(), s, target);
      }
    }

    /** No range reaches over `target`. */
    method ClearWhole(lo: nat, hi: nat, s: int, target: int)
      requires Valid() && Sorted(Table()) && lo < count && hi == lo + 1
      requires hi == Below(Table(), target) && End(p[lo]) <= target
      modifies this`count, p
      ensures Valid() && Table() == ClearTable(old(Table()), s, target)
    {
      WholeOnly(Table(), lo, s, target);
      TrimLeft(lo, hi, s, target);
    }

    /** The range at `lo` reaches over `target`: keep its tail, and its head if it starts before `s`. */
    method ClearTail(lo: nat, s: int, target: int) returns (full: bool)
      requires Valid() && Sorted(Table()) && lo < count
      requires lo + 1 == Below(Table(), target) && End(p[lo]) > target
      modifies this`count, p
      ensures Valid() && Table() == ClearTable(old(Table()), s, target)
      ensures full == ClearFails(old(Table()), s, target)
    {
      if p[lo].start < s {
        if count >= MAX_BADBLOCKS {
          return true;
        }
        SplitRange(lo, s, target);
      } else {
        KeepTail(lo, s, target);
      }
      full := false;
    }

    method SplitRange(lo: nat, s: int, target: int)
      requires Valid() && Sorted(Table()) && lo < count < MAX_BADBLOCKS && p[lo].start < s
      requires lo + 1 == Below(Table(), target) && End(p[lo]) > target
      modifies this`count, p
      ensures Valid() && Table() == ClearTable(old(Table()), s, target)
    {
      var r := p[lo];
      TailSplit(Table(), lo, s, target);
      Insert(lo, Range(r.start, s - r.start, r.ack));
      Put(lo + 1, Range(target, r.start + r.len - target, r.ack));
      TrimLeft(lo, lo + 1, s, target);
    }

    method KeepTail(lo: nat, s: int, target: int)
      requires Valid() && Sorted(Table()) && lo < count && p[lo].start >= s
      requires lo + 1 == Below(Table(), target) && End(p[lo]) > target
      modifies this`count, p
      ensures Valid() && Table() == ClearTable(old(Table()), s, target)
    {
      var r := p[lo];
      TailOnly(Table(), lo, s, target);
      Put(lo, Range(target, r.start + r.len - target, r.ack));
      TrimLeft(lo - 1, lo, s, target);
    }

    /** The flags after badblocks_set, and after badblocks_clear as for an acknowledged request. */
    method NoteSet(acked: bool)
      requires Valid()
      modifies this`changed, this`unackedExist
      ensures Valid() && Table() == old(Table())
      ensures changed && unackedExist == (!acked || (old(unackedExist) && Unacked(Table())))
    {
      changed := true;
      if !acked {
        unackedExist := true;
      } else {
        UpdateAcked();
      }
    }

    const ENOSPC: int := 28

    /** badblocks_clear. */
    method Clear(s: nat, sectors: nat) returns (rv: int)
      requires Valid() && Sorted(Table()) && (Unacked(Table()) ==> unackedExist)
      modifies this, p
      ensures Valid() && shift == old(shift)
      ensures (var r := Inward(old(shift), s, sectors);
               && Table() == ClearTable(old(Table()), r.0, r.1)
               && rv == if ClearFails(old(Table()), r.0, r.1) then -ENOSPC else 0)
      ensures Unacked(Table()) ==> unackedExist
      ensures changed == (old(changed) || rv == 0)
    {
      var r := Inward(shift, s, sectors);
      rv := ClearAndNote(r.0, r.1);
    }

    method ClearAndNote(b: int, target: int) returns (rv: int)
      requires Valid() && Sorted(Table()) && (Unacked(Table()) ==> unackedExist)
      modifies this`count, this`changed, this`unackedExist, p
      ensures Valid() && Table() == ClearTable(old(Table()), b, target)
      ensures rv == if ClearFails(old(Table()), b, target) then -ENOSPC else 0
      ensures Unacked(Table()) ==> unackedExist
      ensures changed == (old(changed) || rv == 0)
    {
      var full := ClearOnly(b, target);
      if full {
        return -ENOSPC;
      }
      ghost var t := Table();
      NoteSet(true);
      SameTable(t, Table(), ClearTable(old(Table()), b, target));
      rv := 0;
    }

    /** Clearing adds no unacknowledged range. */
    method ClearOnly(b: int, target: int) returns (full: bool)
      requires Valid() && Sorted(Table())
      modifies this`count, p
      ensures Valid() && Table() == ClearTable(old(Table()), b, target)
      ensures full == ClearFails(old(Table()), b, target)
      ensures Unacked(Table()) ==> Unacked(old(Table()))
    {
      if !Unacked(Table()) {
        ClearAddsNoUnacked(Table(), b, target);
      }
      full := ClearBlocks(b, target);
    }

    // ---- badblocks_set

    method Low(lo: nat, hi: nat, s: int, n: nat, acked: bool) returns (s1: int, n1: nat)
      requires Valid() && lo <= hi <= count
      modifies p
      ensures Valid() && Work(Table(), lo, hi, s1, n1) == MergeLow(Work(old(Table()), lo, hi, s, n), acked)
    {
      s1, n1 := s, n;
      if hi > lo {
        var a, e, ack := p[lo].start, p[lo].start + p[lo].len, p[lo].ack;
        if e >= s {
          if s == a && s + n >= e {
            ack := acked;
          } else {
            ack := ack && acked;
          }
          if e < s + n {
            e := s + n;
          }
          if e - a <= MAX_LEN {
            Put(lo, Range(a, e - a, ack));
            s1 := e;
          } else {
            if p[lo].len != MAX_LEN {
              Put(lo, Range(a, MAX_LEN, ack));
            }
            s1 := a + MAX_LEN;
          }
          n1 := e - s1;
        }
      }
    }

    method High(lo: nat, hi: nat, s: int, n: nat, acked: bool) returns (lo1: nat, hi1: nat, s1: int, n1: nat)
      requires Valid() && lo <= hi <= count
      modifies p
      ensures Valid() && Work(Table(), lo1, hi1, s1, n1) == MergeHigh(Work(old(Table()), lo, hi, s, n), acked)
    {
      lo1, hi1, s1, n1 := lo, hi, s, n;
      if n != 0 && hi < count {
        var a, e, ack := p[hi].start, p[hi].start + p[hi].len, p[hi].ack;
        if a <= s + n {
          if e <= s + n {
            e, ack := s + n, acked;
          } else {
            ack := ack && acked;
          }
          a := s;
          if e - a <= MAX_LEN {
            Put(hi, Range(a, e - a, ack));
            s1 := e;
          } else {
            Put(hi, Range(a, MAX_LEN, ack));
            s1 := a + MAX_LEN;
          }
          n1 := e - s1;
          lo1, hi1 := hi, hi + 1;
        }
      }
    }

    method Join(lo: nat, hi: nat, s: int, n: nat)
      requires Valid() && lo <= hi <= count
      modifies this`count, p
      ensures Valid() && Work(Table(), lo, hi, s, n) == Combine(Work(old(Table()), lo, hi, s, n))
    {
      if n == 0 && hi < count {
        var a := p[hi].start;
        var newlen := p[lo].len + p[hi].len - (s - a);
        if s >= a && newlen < MAX_LEN {
          Put(lo, Range(p[lo].start, newlen, p[lo].ack && p[hi].ack));
          Discard(hi, hi + 1);
        }
      }
    }

    method AddRest(lo: nat, hi: nat, s: int, n: nat, acked: bool) returns (rv: int)
      requires Valid() && lo <= hi <= count
      modifies this`count, p
      ensures Valid()
      ensures (Table(), rv == 1) == InsertAll(Work(old(Table()), lo, hi, s, n), acked) && (rv == 0 || rv == 1)
    {
      rv := 0;
      var at, left: nat := s, n;
      while left != 0
        invariant Valid() && hi <= count && rv == 0
        invariant (InsertAll(Work(Table(), lo, hi, at, left), acked)
                   == InsertAll(Work(old(Table()), lo, hi, s, n), acked))
      {
        if count >= MAX_BADBLOCKS {
          rv := 1;
          break;
        }
        var thisSectors := if left > MAX_LEN then MAX_LEN else left;
        Insert(hi, Range(at, thisSectors, acked));
        left, at := left - thisSectors, at + thisSectors;
      }
    }

    /** badblocks_set; a negative shift means that bad blocks are disabled. */
    method Set(s: nat, sectors: nat, acked: bool) returns (rv: int)
      requires Valid() && Sorted(Table()) && (Unacked(Table()) ==> unackedExist)
      modifies this, p
      ensures Valid() && shift == old(shift)
      ensures shift < 0 ==> rv == 1 && Table() == old(Table()) && unackedExist == old(unackedExist)
      ensures changed == (old(changed) || shift >= 0)
      ensures old(shift) >= 0 ==> (Table(), rv == 1) == SetRequest(old(Table()), old(shift), s, sectors, acked)
      ensures rv == 0 || rv == 1
      ensures Unacked(Table()) ==> unackedExist
    {
      if shift < 0 {
        return 1;
      }
      OutwardOrdered(shift, s, sectors);
      var r := Outward(shift, s, sectors);
      var b, n := r.0, r.1 - r.0;
      rv := SetAndNote(b, n, acked);
      SetRequestIs(old(Table()), shift, s, sectors, acked, b, n);
    }

    method SetAndNote(b: int, n: nat, acked: bool) returns (rv: int)
      requires Valid() && Sorted(Table()) && (Unacked(Table()) ==> unackedExist)
      modifies this`count, this`changed, this`unackedExist, p
      ensures Valid() && (rv == 0 || rv == 1) && changed
      ensures (Table(), rv == 1) == SetTable(old(Table()), b, n, acked)
      ensures Unacked(Table()) ==> unackedExist
    {
      rv := SetBlocks(b, n, acked);
      ghost var t := Table();
      NoteSet(acked);
      SameResult(t, Table(), rv == 1, SetTable(old(Table()), b, n, acked));
    }

    method SetBlocks(b: int, n: nat, acked: bool) returns (rv: int)
      requires Valid() && Sorted(Table())
      modifies this`count, p
      ensures Valid() && (rv == 0 || rv == 1)
      ensures (Table(), rv == 1) == SetTable(old(Table()), b, n, acked)
      ensures acked && Unacked(Table()) ==> Unacked(old(Table()))
    {
      var lo, hi := Search(b + 1);
      if hi > lo && p[lo].start > b {
        hi := lo;
      }
      ghost var t := Table();
      assert Work(t, lo, hi, b, n) == Start(t, b, n);
      if acked && !Unacked(t) {
        SetAddsNoUnacked(t, b, n);
      }
      var s1, n1 := Low(lo, hi, b, n, acked);
      lo, hi, s1, n1 := High(lo, hi, s1, n1, acked);
      Join(lo, hi, s1, n1);
      rv := AddRest(lo, hi, s1, n1, acked);
    }
  }
}
