/** Exactly which requests badblocks_set (block/badblocks.c) records correctly, for all of them. */
module BadblocksTheorem {
  import opened BadblocksModel
  import opened BadblocksSet
  import opened BadblocksExact

  ghost predicate TouchesLow(t: seq<Range>, s: int) {
    var k := Below(t, s + 1);
    k > 0 && End(t[k - 1]) >= s
  }

  // ---- a request that touches the range starting at or before it

  lemma {:induction false} LowParts(x: seq<Range>, w: Range, y: seq<Range>)
    requires Sorted(x + [w] + y)
    ensures Sorted(x) && Upto(x, w.start) && RangeOk(w) && Sorted(y) && From(y, End(w))
  {
    var t, i := x + [w] + y, |x|;
    assert t[..i] == x && t[i] == w && t[i + 1..] == y;
    Around(t, i);
  }

  lemma {:induction false} LowPartsIs(x: seq<Range>, w: Range, y: seq<Range>, s: int, n: nat, acked: bool,
                                      r: (seq<Range>, bool))
    requires |x| + 1 == Below(x + [w] + y, s + 1) && RangeOk(w) && s <= End(w) && r == SetTable(x + [w] + y, s, n, acked)
    ensures LowOutcome(x, w, y, s, s + n, acked, r)
  {
    var t, i := x + [w] + y, |x|;
    assert t[..i] == x && t[i] == w && t[i + 1..] == y;
    LowOutcomeIs(t, s, n, acked, i);
  }

  lemma {:induction false} LowPartsCond(x: seq<Range>, w: Range, y: seq<Range>, s: int, n: nat, acked: bool)
    requires |x| + 1 == Below(x + [w] + y, s + 1) && s <= End(w)
    ensures SetCond(x + [w] + y, s, n, acked) <==> LowCond(|x| + 1 + |y|, w, y, s, s + n, acked)
  {
    var t, i := x + [w] + y, |x|;
    assert t[i] == w && t[i + 1..] == y;
  }

  lemma {:induction false} LowDecides(x: seq<Range>, w: Range, y: seq<Range>, s: int, n: nat, acked: bool,
                                      r: (seq<Range>, bool))
    requires Sorted(x + [w] + y) && |x| + 1 == Below(x + [w] + y, s + 1) && w.start <= s <= End(w)
    requires LowOutcome(x, w, y, s, s + n, acked, r)
    ensures Right(x + [w] + y, s, s + n, acked, r) <==> LowCond(|x| + 1 + |y|, w, y, s, s + n, acked)
  {
    LowParts(x, w, y);
    LowOutcomeDecides(|x| + 1 + |y|, x, w, y, s, s + n, acked, r);
  }

  lemma {:induction false} SetLowExact(x: seq<Range>, w: Range, y: seq<Range>, s: int, n: nat, acked: bool)
    requires Sorted(x + [w] + y) && |x| + 1 == Below(x + [w] + y, s + 1) && w.start <= s <= End(w)
    ensures SetOk(x + [w] + y, s, n, acked) <==> SetCond(x + [w] + y, s, n, acked)
  {
    var r := SetTable(x + [w] + y, s, n, acked);
    LowParts(x, w, y);
    LowPartsIs(x, w, y, s, n, acked, r);
    LowDecides(x, w, y, s, n, acked, r);
    LowPartsCond(x, w, y, s, n, acked);
  }

  lemma {:induction false} LowSplit(t: seq<Range>, s: int) returns (x: seq<Range>, w: Range, y: seq<Range>)
    requires Sorted(t) && TouchesLow(t, s)
    ensures t == x + [w] + y && |x| + 1 == Below(t, s + 1) && w.start <= s <= End(w)
  {
    var i := Below(t, s + 1) - 1;
    BelowEdge(t, s + 1);
    x, w, y := t[..i], t[i], t[i + 1..];
  }

  // ---- a request that does not

  lemma {:induction false} TailBounds(x: seq<Range>, y: seq<Range>, s: int)
    requires Sorted(x + y) && |x| == Below(x + y, s + 1) && (|x| > 0 ==> End(x[|x| - 1]) < s)
    ensures Upto(x, s) && From(y, s)
  {
    var t, k := x + y, |x|;
    assert t[..k] == x && t[k..] == y && (k > 0 ==> t[k - 1] == x[k - 1]);
    BelowParts(t, s, k);
  }

  lemma {:induction false} TailPartsCond(x: seq<Range>, y: seq<Range>, s: int, n: nat, acked: bool)
    requires |x| == Below(x + y, s + 1) && (|x| > 0 ==> End(x[|x| - 1]) < s) && n > 0
    ensures SetCond(x + y, s, n, acked) <==> TailCond(|x| + |y|, y, s, s + n, acked, true)
  {
    var t, k := x + y, |x|;
    assert t[k..] == y && (k > 0 ==> t[k - 1] == x[k - 1]);
  }

  lemma {:induction false} Halves(x: seq<Range>, y: seq<Range>)
    requires Sorted(x + y)
    ensures Sorted(x) && Sorted(y)
  {
    assert (x + y)[..|x|] == x && (x + y)[|x|..] == y;
    SortedPart(x + y, 0, |x|);
    SortedPart(x + y, |x|, |x + y|);
  }

  lemma {:induction false} TailDecide(x: seq<Range>, y: seq<Range>, s: int, n: nat, acked: bool, r: (seq<Range>, bool))
    requires Sorted(x + y) && Upto(x, s) && From(y, s) && 0 <= s && n > 0 && TailIs(x, y, s, s + n, acked, r)
    ensures Right(x + y, s, s + n, acked, r) <==> TailCond(|x| + |y|, y, s, s + n, acked, true)
  {
    Halves(x, y);
    WithoutLowDecides(|x| + |y|, x, y, s, s + n, acked, r);
  }

  lemma {:induction false} SetTailExact(x: seq<Range>, y: seq<Range>, s: int, n: nat, acked: bool)
    requires Sorted(x + y) && |x| == Below(x + y, s + 1) && (|x| > 0 ==> End(x[|x| - 1]) < s) && 0 <= s && n > 0
    ensures SetOk(x + y, s, n, acked) <==> SetCond(x + y, s, n, acked)
  {
    var r := SetTable(x + y, s, n, acked);
    WithoutLowIs(x + y, s, n, acked, x, y, r);
    TailBounds(x, y, s);
    TailDecide(x, y, s, n, acked, r);
    TailPartsCond(x, y, s, n, acked);
  }

  lemma {:induction false} TailSplit(t: seq<Range>, s: int) returns (x: seq<Range>, y: seq<Range>)
    requires !TouchesLow(t, s)
    ensures t == x + y && |x| == Below(t, s + 1) && (|x| > 0 ==> End(x[|x| - 1]) < s)
  {
    var k := Below(t, s + 1);
    x, y := t[..k], t[k..];
  }

  /**
   * badblocks_set is correct, for every sorted table and every request, if and only if `SetCond`
   * holds before the call: either it succeeds and the table is the exact union, sorted and disjoint,
   * with nothing recorded as acknowledged that is not, or it fails and the table is as it was.
   */
  lemma {:induction false} SetIsExact(t: seq<Range>, s: int, n: nat, acked: bool)
    requires Sorted(t) && 0 <= s
    ensures SetOk(t, s, n, acked) <==> SetCond(t, s, n, acked)
  {
    if TouchesLow(t, s) {
      var x, w, y := LowSplit(t, s);
      SetLowExact(x, w, y, s, n, acked);
    } else if n > 0 {
      var x, y := TailSplit(t, s);
      SetTailExact(x, y, s, n, acked);
    } else {
      EmptyIs(t, s, acked);
    }
  }

  // ---- what the condition says in the common cases

  /** With no third range in reach, a written range is right if it stops short of the next, or is joined within it. */
  ghost predicate JoinSimple(r: Range, y: seq<Range>) {
    |y| == 0 || End(r) <= y[0].start || (r.start < End(y[0]) && End(r) <= End(y[0]) && End(y[0]) - r.start < MAX_LEN)
  }

  lemma {:induction false} NoThirdRange(r: Range, y: seq<Range>, acked: bool)
    requires Sorted(y) && (|y| > 1 ==> End(r) <= y[1].start)
    ensures JoinCond(r, y, acked) <==> JoinSimple(r, y)
  {
    if |y| > 0 && End(y[0]) < End(r) {
      FirstOf(y);
      if |y| > 1 {
        FromFirst(y[1..], End(r));
      }
      assert !Bad(y[1..], End(y[0])) by {
        NotAbove(y[1..], End(r), End(y[0]), true);
        NotAbove(y[1..], End(r), End(y[0]), false);
      }
    }
  }

  /** The ranges after `i` when the request ends at `e`, before the second of them. */
  lemma {:induction false} NoThirdAfter(t: seq<Range>, i: nat, e: int, r: Range, acked: bool)
    requires Sorted(t) && i < |t| && End(r) == Max(End(t[i]), e) && (i + 2 < |t| ==> e <= t[i + 2].start)
    ensures JoinCond(r, t[i + 1..], acked) <==> JoinSimple(r, t[i + 1..])
  {
    var y := t[i + 1..];
    Around(t, i);
    assert |y| > 1 ==> y[1] == t[i + 2] && End(t[i]) <= t[i + 2].start;
    NoThirdRange(r, y, acked);
  }

  /** Growing the range below, with no third range in reach. */
  lemma {:induction false} MergeBelowExact(t: seq<Range>, s: int, n: nat, acked: bool, i: nat)
    requires Sorted(t) && 0 <= s && i < |t| && i + 1 == Below(t, s + 1) && End(t[i]) >= s
    requires LowRange(t[i], s, s + n, acked).len <= MAX_LEN && (i + 2 < |t| ==> s + n <= t[i + 2].start)
    ensures SetOk(t, s, n, acked) <==> JoinSimple(LowRange(t[i], s, s + n, acked), t[i + 1..])
  {
    SetIsExact(t, s, n, acked);
    NoThirdAfter(t, i, s + n, LowRange(t[i], s, s + n, acked), acked);
  }

  lemma {:induction false} CondAbove(t: seq<Range>, s: int, n: nat, acked: bool, k: nat)
    requires n > 0 && k == Below(t, s + 1) < |t| && (k > 0 ==> End(t[k - 1]) < s)
    requires t[k].start <= s + n && HighRange(t[k], s, s + n, acked).len <= MAX_LEN
    ensures SetCond(t, s, n, acked) <==> JoinCond(HighRange(t[k], s, s + n, acked), t[k + 1..], acked)
  {
    assert t[k..][0] == t[k] && t[k..][1..] == t[k + 1..];
  }

  /** Growing the range above, with no third range in reach. */
  lemma {:induction false} MergeAboveExact(t: seq<Range>, s: int, n: nat, acked: bool, k: nat)
    requires Sorted(t) && 0 <= s && n > 0 && k == Below(t, s + 1) < |t| && (k > 0 ==> End(t[k - 1]) < s)
    requires t[k].start <= s + n && HighRange(t[k], s, s + n, acked).len <= MAX_LEN
    requires k + 2 < |t| ==> s + n <= t[k + 2].start
    ensures SetOk(t, s, n, acked) <==> JoinSimple(HighRange(t[k], s, s + n, acked), t[k + 1..])
  {
    SetIsExact(t, s, n, acked);
    CondAbove(t, s, n, acked, k);
    NoThirdAfter(t, k, s + n, HighRange(t[k], s, s + n, acked), acked);
  }

  /**
   * An unacknowledged request that covers the last blocks of a full acknowledged range and goes on
   * past its end is right exactly when it fails for want of room without a change.
   */
  lemma {:induction false} StaleAckExact(t: seq<Range>, s: int, n: nat, i: nat)
    requires Sorted(t) && 0 <= s && i < |t| && i + 1 == Below(t, s + 1) && KeepsStaleAck(t[i], s, false) && End(t[i]) < s + n
    ensures (SetOk(t, s, n, false)
             <==> TailFails(|t|, t[i + 1..], End(t[i]), s + n) && TailCond(|t|, t[i + 1..], End(t[i]), s + n, false, true))
  {
    SetIsExact(t, s, n, false);
  }

  /**
   * A full range that is acknowledged stays so although an unacknowledged request covers its last
   * blocks, for every such request that goes on past its end.
   */
  lemma {:induction false} StaleAckFails(t: seq<Range>, s: int, n: nat, i: nat)
    requires Sorted(t) && 0 <= s && i < |t| < MAX_BADBLOCKS && i + 1 == Below(t, s + 1)
    requires KeepsStaleAck(t[i], s, false) && End(t[i]) < s + n
    ensures !SetOk(t, s, n, false)
  {
    SetIsExact(t, s, n, false);
  }

  lemma {:induction false} StaleAckHappens(t: seq<Range>)
    requires t == [Range(0, 512, true)]
    ensures !SetOk(t, 500, 100, false)
  {
    assert t[..0] == [];
    StaleAckFails(t, 500, 100, 0);
  }
}
