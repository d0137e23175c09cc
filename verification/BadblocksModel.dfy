/**
 * The bad-block table (block/badblocks.c): ranges of at most 512 blocks, kept sorted and disjoint,
 * each with an acknowledged flag. What it means is which blocks are bad and which of those are
 * acknowledged.
 */
module BadblocksModel {

  const MAX_LEN: nat := 512
  const MAX_BADBLOCKS: nat := 512

  datatype Range = Range(start: int, len: int, ack: bool)

  function End(r: Range): int { r.start + r.len }

  predicate Covers(r: Range, b: int) { r.start <= b < End(r) }

  predicate RangeOk(r: Range) { 0 <= r.start && 1 <= r.len <= MAX_LEN }

  ghost predicate Sorted(t: seq<Range>) {
    && (forall i :: 0 <= i < |t| ==> RangeOk(t[i]))
    && (forall i, j :: 0 <= i < j < |t| ==> End(t[i]) <= t[j].start)
  }

  /** Block `b` is recorded as bad with this flag. */
  ghost predicate Has(t: seq<Range>, b: int, ack: bool) {
    exists i :: 0 <= i < |t| && Covers(t[i], b) && t[i].ack == ack
  }

  ghost predicate Bad(t: seq<Range>, b: int) { Has(t, b, true) || Has(t, b, false) }

  ghost predicate Upto(t: seq<Range>, m: int) { forall i :: 0 <= i < |t| ==> End(t[i]) <= m }

  ghost predicate From(t: seq<Range>, m: int) { forall i :: 0 <= i < |t| ==> m <= t[i].start }

  // ---- composing tables

  lemma {:induction false} HasAppend(x: seq<Range>, y: seq<Range>, b: int, ack: bool)
    ensures Has(x + y, b, ack) <==> Has(x, b, ack) || Has(y, b, ack)
  {
    if Has(x, b, ack) {
      var i :| 0 <= i < |x| && Covers(x[i], b) && x[i].ack == ack;
      assert (x + y)[i] == x[i];
    }
    if Has(y, b, ack) {
      var i :| 0 <= i < |y| && Covers(y[i], b) && y[i].ack == ack;
      assert (x + y)[|x| + i] == y[i];
    }
  }

  lemma {:induction false} HasOne(r: Range, b: int, ack: bool)
    ensures Has([r], b, ack) <==> Covers(r, b) && r.ack == ack
  {
    assert [r][0] == r;
  }

  lemma {:induction false} SortedAppend(x: seq<Range>, y: seq<Range>, m: int)
    requires Sorted(x) && Upto(x, m) && Sorted(y) && From(y, m)
    ensures Sorted(x + y)
  {
  }

  lemma {:induction false} SortedPart(t: seq<Range>, i: nat, j: nat)
    requires Sorted(t) && i <= j <= |t|
    ensures Sorted(t[i..j])
    ensures j < |t| ==> Upto(t[i..j], t[j].start)
    ensures 0 < i ==> From(t[i..j], End(t[i - 1]))
  {
  }

  /** A block outside every range is not bad. */
  lemma {:induction false} NotBelow(t: seq<Range>, m: int, b: int, ack: bool)
    requires Upto(t, m) && m <= b
    ensures !Has(t, b, ack)
  {
  }

  lemma {:induction false} NotAbove(t: seq<Range>, m: int, b: int, ack: bool)
    requires From(t, m) && b < m
    ensures !Has(t, b, ack)
  {
  }

  // ---- rounding to blocks of 2^shift sectors

  function Pow2(n: int): (p: nat)
    ensures p > 0
    decreases if n < 0 then 0 else n
  {
    if n <= 0 then 1 else 2 * Pow2(n - 1)
  }

  /** Start rounded down, end rounded up. */
  function Outward(shift: int, s: nat, sectors: nat): (r: (int, int)) {
    if shift > 0 then (s / Pow2(shift), (s + sectors + Pow2(shift) - 1) / Pow2(shift)) else (s, s + sectors)
  }

  /** Start rounded up, end rounded down. */
  function Inward(shift: int, s: nat, sectors: nat): (r: (int, int)) {
    if shift > 0 then ((s + Pow2(shift) - 1) / Pow2(shift), (s + sectors) / Pow2(shift)) else (s, s + sectors)
  }

  /** The outward range is the smallest run of whole blocks around the request. */
  lemma {:induction false} OutwardIsTight(shift: int, s: nat, sectors: nat)
    ensures var p, r := Pow2(if shift > 0 then shift else 0), Outward(shift, s, sectors);
            r.0 * p <= s < (r.0 + 1) * p && (r.1 - 1) * p < s + sectors <= r.1 * p && r.0 <= r.1
  {
    var p := Pow2(if shift > 0 then shift else 0);
    Divided(s, p);
    Divided(s + sectors + p - 1, p);
    Ordered(s, s + sectors + p - 1, p);
  }

  lemma {:induction false} OutwardOrdered(shift: int, s: nat, sectors: nat)
    ensures 0 <= Outward(shift, s, sectors).0 <= Outward(shift, s, sectors).1
  {
    if shift > 0 {
      var p := Pow2(shift);
      OutwardIs(shift, s, sectors, p);
      Ordered(s, s + sectors + p - 1, p);
    }
  }

  lemma {:induction false} OutwardIs(shift: int, s: nat, sectors: nat, p: nat)
    requires shift > 0 && p == Pow2(shift)
    ensures Outward(shift, s, sectors) == (s / p, (s + sectors + p - 1) / p)
  {
  }

  /** The inward range is the largest run of whole blocks inside the request. */
  lemma {:induction false} InwardIsTight(shift: int, s: nat, sectors: nat)
    ensures var p, r := Pow2(if shift > 0 then shift else 0), Inward(shift, s, sectors);
            (r.0 - 1) * p < s <= r.0 * p && r.1 * p <= s + sectors < (r.1 + 1) * p
  {
    var p := Pow2(if shift > 0 then shift else 0);
    Divided(s + p - 1, p);
    Divided(s + sectors, p);
  }

  lemma {:induction false} Divided(x: nat, p: nat)
    requires p > 0
    ensures x / p * p <= x < (x / p + 1) * p && (x / p - 1) * p == x / p * p - p
  {
    assert x == x / p * p + x % p;
  }

  lemma {:induction false} Ordered(x: nat, y: nat, p: nat)
    requires p > 0 && x <= y
    ensures 0 <= x / p <= y / p
  {
    var a, b := x / p, y / p;
    Divided(x, p);
    Divided(y, p);
    Compare(a, b, x, y, p);
  }

  lemma {:induction false} Compare(a: int, b: int, x: nat, y: nat, p: nat)
    requires p > 0 && x <= y && a * p <= x < (a + 1) * p && b * p <= y < (b + 1) * p
    ensures 0 <= a <= b
  {
    if a < 0 {
      Times(a + 1, 0, p);
    }
    if b < a {
      Times(b + 1, a, p);
    }
  }

  lemma {:induction false} Times(a: int, b: int, p: nat)
    requires a <= b
    ensures a * p <= b * p
  {
  }

  lemma {:induction false} Quotient(x: nat, q: nat, m: nat, p: nat)
    requires p > 0 && x == q * p + m && m < p
    ensures x / p == q
  {
    assert (q + 1) * p == q * p + p;
    Divided(x, p);
    Compare(q, x / p, x, x, p);
    Compare(x / p, q, x, x, p);
  }

  lemma {:induction false} DivMod(x: nat, p: nat)
    requires p > 0
    ensures x == x / p * p + x % p && 0 <= x / p && 0 <= x % p < p
  {
    Divided(x, p);
    Ordered(0, x, p);
  }

  lemma {:induction false} RoundUp(s: nat, q: nat, m: nat, p: nat)
    requires p > 0 && s == q * p + m && m < p
    ensures (s + p - 1) / p == if m == 0 then q else q + 1
  {
    if m == 0 {
      Quotient(s + p - 1, q, p - 1, p);
    } else {
      assert (q + 1) * p == q * p + p;
      Quotient(s + p - 1, q + 1, m - 1, p);
    }
  }

  lemma {:induction false} RoundDown(s: nat, n: nat, q: nat, m: nat, p: nat)
    requires p > 0 && s == q * p + m && m < p
    ensures q <= (s + n) / p && ((s + n) / p == q <==> m + n < p)
  {
    if m + n < p {
      Quotient(s + n, q, m + n, p);
    } else {
      assert (q + 1) * p == q * p + p;
      Quotient((q + 1) * p, q + 1, 0, p);
      Ordered((q + 1) * p, s + n, p);
    }
  }

  /** The sectors lie inside one block of 2^shift sectors and do not start it. */
  predicate InsideBlock(shift: int, s: nat, sectors: nat) {
    shift > 0 && 0 < s % Pow2(shift) && s % Pow2(shift) + sectors < Pow2(shift)
  }

  /** Rounding inward inverts exactly the requests that lie inside one block. */
  lemma {:induction false} InwardInverts(shift: int, s: nat, sectors: nat)
    ensures Inward(shift, s, sectors).1 < Inward(shift, s, sectors).0 <==> InsideBlock(shift, s, sectors)
    ensures InsideBlock(shift, s, sectors) ==> Inward(shift, s, sectors) == (s / Pow2(shift) + 1, s / Pow2(shift))
  {
    if shift > 0 {
      var p := Pow2(shift);
      DivMod(s, p);
      RoundUp(s, s / p, s % p, p);
      RoundDown(s, sectors, s / p, s % p, p);
    }
  }

  // ---- badblocks_clear

  /** How many ranges start before `bound`. */
  ghost function Below(t: seq<Range>, bound: int): (k: nat)
    ensures k <= |t|
  {
    if |t| == 0 then 0
    else if t[|t| - 1].start < bound then |t|
    else Below(t[..|t| - 1], bound)
  }

  lemma {:induction false} BelowSplits(t: seq<Range>, bound: int)
    requires Sorted(t)
    ensures From(t[Below(t, bound)..], bound)
    ensures forall i :: 0 <= i < Below(t, bound) ==> t[i].start < bound
    decreases |t|
  {
    if |t| > 0 && t[|t| - 1].start >= bound {
      var u := t[..|t| - 1];
      SortedPart(t, 0, |t| - 1);
      BelowSplits(u, bound);
    }
  }

  lemma {:induction false} BelowEdge(t: seq<Range>, bound: int)
    requires Sorted(t)
    ensures Below(t, bound) > 0 ==> t[Below(t, bound) - 1].start < bound
    ensures Below(t, bound) < |t| ==> bound <= t[Below(t, bound)].start
    ensures From(t[Below(t, bound)..], bound)
  {
    BelowSplits(t, bound);
    var k := Below(t, bound);
    assert k < |t| ==> t[k..][0] == t[k];
  }

  /** What is left before `s` of ranges that lie one after another. */
  ghost function KeepLeft(u: seq<Range>, s: int): seq<Range> {
    if |u| == 0 then []
    else
      var n, r := |u| - 1, u[|u| - 1];
      if End(r) <= s then u
      else if r.start < s then u[..n] + [Range(r.start, s - r.start, r.ack)]
      else KeepLeft(u[..n], s)
  }

  /** Some range reaches over `target`; in a sorted table it is the last that starts before it. */
  ghost predicate Straddles(t: seq<Range>, target: int) {
    var k := Below(t, target);
    k > 0 && End(t[k - 1]) > target
  }

  ghost predicate ClearFails(t: seq<Range>, s: int, target: int) {
    Straddles(t, target) && t[Below(t, target) - 1].start < s && |t| >= MAX_BADBLOCKS
  }

  /** badblocks_clear on blocks [s, target). */
  ghost function ClearTable(t: seq<Range>, s: int, target: int): seq<Range> {
    var k := Below(t, target);
    if ClearFails(t, s, target) then t
    else if Straddles(t, target) then
      var r := t[k - 1];
      var tail := [Range(target, End(r) - target, r.ack)] + t[k..];
      if r.start < s then t[..k - 1] + [Range(r.start, s - r.start, r.ack)] + tail
      else KeepLeft(t[..k - 1], s) + tail
    else KeepLeft(t[..k], s) + t[k..]
  }

  /** Exactly the blocks of [s, target) are gone, and the others keep their flag. */
  ghost predicate ClearedExactly(t: seq<Range>, s: int, target: int, u: seq<Range>) {
    forall b: int, ack: bool :: Has(u, b, ack) <==> Has(t, b, ack) && !(s <= b < target)
  }

  ghost predicate ClearOk(t: seq<Range>, s: int, target: int, u: seq<Range>) {
    Sorted(u) && |u| <= MAX_BADBLOCKS && ClearedExactly(t, s, target, u)
  }

  lemma {:induction false} KeepLeftIs(u: seq<Range>, s: int)
    requires Sorted(u)
    ensures Sorted(KeepLeft(u, s)) && Upto(KeepLeft(u, s), s)
    ensures forall b: int, ack: bool :: Has(KeepLeft(u, s), b, ack) <==> Has(u, b, ack) && b < s
    decreases |u|
  {
    if |u| > 0 {
      var n, r := |u| - 1, u[|u| - 1];
      SortedPart(u, 0, n);
      assert u == u[..n] + [r];
      if End(r) <= s {
        KeepAll(u, s);
      } else if r.start < s {
        KeepPart(u[..n], r, s);
      } else {
        KeepLeftIs(u[..n], s);
        forall b: int, ack: bool
          ensures Has(KeepLeft(u, s), b, ack) <==> Has(u, b, ack) && b < s
        {
          HasAppend(u[..n], [r], b, ack);
          HasOne(r, b, ack);
        }
      }
    }
  }

  lemma {:induction false} KeepAll(u: seq<Range>, s: int)
    requires Sorted(u) && |u| > 0 && End(u[|u| - 1]) <= s
    ensures Upto(u, s)
    ensures forall b: int, ack: bool :: Has(u, b, ack) <==> Has(u, b, ack) && b < s
  {
    assert Upto(u, s) by {
      forall i | 0 <= i < |u|
        ensures End(u[i]) <= s
      {
        assert i < |u| - 1 ==> End(u[i]) <= u[|u| - 1].start;
      }
    }
    forall b: int, ack: bool
      ensures Has(u, b, ack) <==> Has(u, b, ack) && b < s
    {
      if b >= s {
        NotBelow(u, s, b, ack);
      }
    }
  }

  lemma {:induction false} KeepPart(v: seq<Range>, r: Range, s: int)
    requires Sorted(v) && RangeOk(r) && Upto(v, r.start) && r.start < s < End(r)
    ensures Sorted(v + [Range(r.start, s - r.start, r.ack)]) && Upto(v + [Range(r.start, s - r.start, r.ack)], s)
    ensures (forall b: int, ack: bool ::
               Has(v + [Range(r.start, s - r.start, r.ack)], b, ack) <==> Has(v + [r], b, ack) && b < s)
  {
    var c := Range(r.start, s - r.start, r.ack);
    SortedAppend(v, [c], r.start);
    forall b: int, ack: bool
      ensures Has(v + [c], b, ack) <==> Has(v + [r], b, ack) && b < s
    {
      HasAppend(v, [c], b, ack);
      HasAppend(v, [r], b, ack);
      HasOne(c, b, ack);
      HasOne(r, b, ack);
      if b >= s {
        NotBelow(v, r.start, b, ack);
      }
    }
  }

  /** What is left at or after `target`. */
  ghost function KeepRight(t: seq<Range>, target: int): seq<Range> { RightFrom(t, Below(t, target), target) }

  ghost function RightFrom(t: seq<Range>, k: nat, target: int): seq<Range>
    requires k <= |t|
  {
    if k > 0 && End(t[k - 1]) > target then [Range(target, End(t[k - 1]) - target, t[k - 1].ack)] + t[k..] else t[k..]
  }

  ghost predicate IsRight(u: seq<Range>, t: seq<Range>, target: int) {
    && Sorted(u) && From(u, target)
    && (forall b: int, ack: bool :: Has(u, b, ack) <==> Has(t, b, ack) && target <= b)
  }

  lemma {:induction false} KeepRightIs(t: seq<Range>, target: int)
    requires Sorted(t)
    ensures IsRight(KeepRight(t, target), t, target)
  {
    BelowEdge(t, target);
    RightFromIs(t, Below(t, target), target);
  }

  lemma {:induction false} RightFromIs(t: seq<Range>, k: nat, target: int)
    requires Sorted(t) && k <= |t| && (k > 0 ==> t[k - 1].start < target) && From(t[k..], target)
    ensures IsRight(RightFrom(t, k, target), t, target)
  {
    if k > 0 && End(t[k - 1]) > target {
      RightOfStraddle(t, k, target);
    } else {
      RightOfGap(t, k, target);
    }
  }

  lemma {:induction false} RightOfStraddle(t: seq<Range>, k: nat, target: int)
    requires Sorted(t) && 0 < k <= |t| && t[k - 1].start < target < End(t[k - 1])
    ensures IsRight([Range(target, End(t[k - 1]) - target, t[k - 1].ack)] + t[k..], t, target)
  {
    Around(t, k - 1);
    SplitRight(t[..k - 1], t[k - 1], t[k..], target);
  }

  /** A sorted table seen from one of its ranges. */
  lemma {:induction false} Around(t: seq<Range>, i: nat)
    requires Sorted(t) && i < |t|
    ensures t == (t[..i] + [t[i]]) + t[i + 1..]
    ensures RangeOk(t[i]) && Sorted(t[..i]) && Sorted(t[i + 1..])
    ensures Upto(t[..i], t[i].start) && From(t[i + 1..], End(t[i]))
  {
    SortedPart(t, 0, i);
    SortedPart(t, i + 1, |t|);
    assert t[i + 1..|t|] == t[i + 1..];
  }

  lemma {:induction false} RightOfGap(t: seq<Range>, k: nat, target: int)
    requires Sorted(t) && k <= |t| && (k > 0 ==> End(t[k - 1]) <= target) && From(t[k..], target)
    ensures IsRight(t[k..], t, target)
  {
    SortedPart(t, 0, k);
    SortedPart(t, k, |t|);
    assert t[k..|t|] == t[k..];
    assert t == t[..k] + t[k..];
    LeftOf(t[..k], t[k..], target);
  }

  lemma {:induction false} SplitRight(x: seq<Range>, r: Range, y: seq<Range>, target: int)
    requires Upto(x, r.start) && RangeOk(r) && r.start < target < End(r) && Sorted(y) && From(y, End(r))
    ensures IsRight([Range(target, End(r) - target, r.ack)] + y, (x + [r]) + y, target)
  {
    var c := Range(target, End(r) - target, r.ack);
    SortedAppend([c], y, End(r));
    forall b: int, ack: bool
      ensures Has([c] + y, b, ack) <==> Has((x + [r]) + y, b, ack) && target <= b
    {
      HasAppend([c], y, b, ack);
      HasAppend(x + [r], y, b, ack);
      HasAppend(x, [r], b, ack);
      HasOne(c, b, ack);
      HasOne(r, b, ack);
      if target <= b {
        NotBelow(x, r.start, b, ack);
      } else {
        NotAbove(y, End(r), b, ack);
      }
    }
  }

  lemma {:induction false} LeftOf(x: seq<Range>, y: seq<Range>, target: int)
    requires Sorted(x) && Sorted(y) && From(y, target) && (|x| > 0 ==> End(x[|x| - 1]) <= target)
    ensures IsRight(y, x + y, target)
  {
    if |x| > 0 {
      KeepAll(x, target);
    }
    forall b: int, ack: bool
      ensures Has(y, b, ack) <==> Has(x + y, b, ack) && target <= b
    {
      HasAppend(x, y, b, ack);
      if target <= b {
        NotBelow(x, target, b, ack);
      } else {
        NotAbove(y, target, b, ack);
      }
    }
  }

  /** The ranges that start before `target`, trimmed to what lies before `s`. */
  ghost function LeftPart(t: seq<Range>, s: int, target: int): seq<Range> { KeepLeft(t[..Below(t, target)], s) }

  lemma {:induction false} LeftPartIs(t: seq<Range>, s: int, target: int)
    requires Sorted(t) && s <= target
    ensures Sorted(LeftPart(t, s, target)) && Upto(LeftPart(t, s, target), s)
    ensures forall b: int, ack: bool :: Has(LeftPart(t, s, target), b, ack) <==> Has(t, b, ack) && b < s
  {
    var k := Below(t, target);
    BelowSplits(t, target);
    SortedPart(t, 0, k);
    KeepLeftIs(t[..k], s);
    assert t == t[..k] + t[k..];
    forall b: int, ack: bool
      ensures Has(LeftPart(t, s, target), b, ack) <==> Has(t, b, ack) && b < s
    {
      HasAppend(t[..k], t[k..], b, ack);
      if b < s {
        NotAbove(t[k..], target, b, ack);
      }
    }
  }

  /** The table after a clear is the part before and the part after. */
  lemma {:induction false} ClearIsTwoParts(t: seq<Range>, s: int, target: int)
    requires Sorted(t) && s <= target && !ClearFails(t, s, target)
    ensures ClearTable(t, s, target) == LeftPart(t, s, target) + KeepRight(t, target)
  {
    var k := Below(t, target);
    if Straddles(t, target) {
      assert t[..k][..k - 1] == t[..k - 1];
    }
  }

  /**
   * badblocks_clear removes exactly the blocks asked for and keeps the table sorted, disjoint and
   * within bounds, if and only if the rounded range is not inverted over a stored one; a full table
   * that would have to grow is left alone.
   */
  lemma {:induction false} ClearIsExact(t: seq<Range>, s: int, target: int)
    requires Sorted(t) && |t| <= MAX_BADBLOCKS
    ensures ClearFails(t, s, target) ==> ClearTable(t, s, target) == t
    ensures (!ClearFails(t, s, target)
             ==> (ClearOk(t, s, target, ClearTable(t, s, target)) <==> s <= target || !Straddles(t, target)))
  {
    if !ClearFails(t, s, target) {
      if s <= target {
        ClearInOrder(t, s, target);
      } else if Straddles(t, target) {
        ClearInverted(t, s, target);
      } else {
        ClearNothing(t, s, target);
      }
    }
  }

  lemma {:induction false} ClearInOrder(t: seq<Range>, s: int, target: int)
    requires Sorted(t) && |t| <= MAX_BADBLOCKS && s <= target && !ClearFails(t, s, target)
    ensures ClearOk(t, s, target, ClearTable(t, s, target))
  {
    var x, y := LeftPart(t, s, target), KeepRight(t, target);
    ClearIsTwoParts(t, s, target);
    LeftPartIs(t, s, target);
    KeepRightIs(t, target);
    SortedAppend(x, y, s);
    ClearSize(t, s, target);
    forall b: int, ack: bool
      ensures Has(x + y, b, ack) <==> Has(t, b, ack) && !(s <= b < target)
    {
      HasAppend(x, y, b, ack);
    }
  }

  lemma {:induction false} ClearSize(t: seq<Range>, s: int, target: int)
    requires |t| <= MAX_BADBLOCKS && !ClearFails(t, s, target)
    ensures |ClearTable(t, s, target)| <= MAX_BADBLOCKS
  {
    var k := Below(t, target);
    KeepLeftSize(t[..k], s);
    if k > 0 {
      KeepLeftSize(t[..k - 1], s);
    }
  }

  lemma {:induction false} KeepLeftSize(u: seq<Range>, s: int)
    ensures |KeepLeft(u, s)| <= |u|
    decreases |u|
  {
    if |u| > 0 {
      KeepLeftSize(u[..|u| - 1], s);
    }
  }

  /** An inverted range over a stored one leaves two ranges that overlap. */
  lemma {:induction false} ClearInverted(t: seq<Range>, s: int, target: int)
    requires Sorted(t) && target < s && Straddles(t, target) && !ClearFails(t, s, target)
    ensures !Sorted(ClearTable(t, s, target))
  {
    var k, u := Below(t, target), ClearTable(t, s, target);
    BelowSplits(t, target);
    assert u[k - 1] == Range(t[k - 1].start, s - t[k - 1].start, t[k - 1].ack);
    assert u[k].start == target;
  }

  /** The same condition on the sectors the caller passes. */
  lemma {:induction false} ClearRequestIsExact(t: seq<Range>, shift: int, s: nat, sectors: nat)
    requires Sorted(t) && |t| <= MAX_BADBLOCKS
    ensures var r := Inward(shift, s, sectors);
            !ClearFails(t, r.0, r.1)
            ==> (ClearOk(t, r.0, r.1, ClearTable(t, r.0, r.1))
                 <==> !(InsideBlock(shift, s, sectors) && Straddles(t, s / Pow2(shift))))
  {
    InwardInverts(shift, s, sectors);
    ClearIsExact(t, Inward(shift, s, sectors).0, Inward(shift, s, sectors).1);
  }

  /** Sectors 9 and 10 with blocks of eight: clearing them spoils a table that holds the blocks [0, 4). */
  lemma {:induction false} InvertedRequestHappens(ack: bool)
    ensures Inward(3, 9, 2) == (2, 1) && InsideBlock(3, 9, 2)
    ensures Sorted([Range(0, 4, ack)]) && !ClearFails([Range(0, 4, ack)], 2, 1)
    ensures ClearTable([Range(0, 4, ack)], 2, 1) == [Range(0, 2, ack), Range(1, 3, ack)]
    ensures !Sorted(ClearTable([Range(0, 4, ack)], 2, 1))
  {
    assert Pow2(3) == 8 by { assert Pow2(1) == 2 && Pow2(2) == 4; }
    var t := [Range(0, 4, ack)];
    assert t[..0] == [] && t[1..] == [] && Below(t, 1) == 1;
    ClearInverted(t, 2, 1);
  }

  lemma {:induction false} ClearNothing(t: seq<Range>, s: int, target: int)
    requires Sorted(t) && |t| <= MAX_BADBLOCKS && target < s && !Straddles(t, target)
    ensures ClearTable(t, s, target) == t && ClearOk(t, s, target, t)
  {
    assert t[..Below(t, target)] + t[Below(t, target)..] == t;
  }

  // ---- unacknowledged ranges

  ghost predicate Unacked(t: seq<Range>) { exists i :: 0 <= i < |t| && !t[i].ack }

  lemma {:induction false} UnackedAppend(x: seq<Range>, y: seq<Range>)
    requires !Unacked(x) && !Unacked(y)
    ensures !Unacked(x + y)
  {
  }

  lemma {:induction false} ClearAddsNoUnacked(t: seq<Range>, s: int, target: int)
    requires !Unacked(t)
    ensures !Unacked(ClearTable(t, s, target))
  {
    var k := Below(t, target);
    KeepLeftUnacked(t[..k], s);
    if Straddles(t, target) {
      var r := t[k - 1];
      var tail := [Range(target, End(r) - target, r.ack)] + t[k..];
      KeepLeftUnacked(t[..k - 1], s);
      UnackedAppend([Range(target, End(r) - target, r.ack)], t[k..]);
      UnackedAppend(KeepLeft(t[..k - 1], s), tail);
      UnackedAppend(t[..k - 1] + [Range(r.start, s - r.start, r.ack)], tail);
    } else {
      UnackedAppend(KeepLeft(t[..k], s), t[k..]);
    }
  }

  lemma {:induction false} KeepLeftUnacked(u: seq<Range>, s: int)
    requires !Unacked(u)
    ensures !Unacked(KeepLeft(u, s))
    decreases |u|
  {
    if |u| > 0 {
      KeepLeftUnacked(u[..|u| - 1], s);
    }
  }
}
