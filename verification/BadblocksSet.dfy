/**
 * badblocks_set (block/badblocks.c): merge with the range below, then with the one above, then
 * join the two, then insert what is left. The steps are given for every request; the theorem says
 * for which requests they amount to a set union.
 */
module BadblocksSet {
  import opened BadblocksModel

  /** The table, the two ranges in view, and the blocks [s, s + n) still to be recorded. */
  datatype Work = Work(t: seq<Range>, lo: nat, hi: nat, s: int, n: int)

  predicate WorkOk(w: Work) { w.lo <= w.hi <= |w.t| && w.n >= 0 }

  function Max(a: int, b: int): int { if a < b then b else a }

  ghost function Start(t: seq<Range>, s: int, n: nat): (w: Work)
    ensures WorkOk(w)
  {
    var k := Below(t, s + 1);
    Work(t, if k == 0 then 0 else k - 1, k, s, n)
  }

  /** Merge with the last range that starts at or before `s`. */
  function MergeLow(w: Work, acked: bool): (v: Work)
    requires WorkOk(w)
    ensures WorkOk(v)
  {
    if w.hi > w.lo && End(w.t[w.lo]) >= w.s then
      var r := w.t[w.lo];
      var ack := if w.s == r.start && w.s + w.n >= End(r) then acked else r.ack && acked;
      var e := Max(End(r), w.s + w.n);
      if e - r.start <= MAX_LEN then
        Work(w.t[w.lo := Range(r.start, e - r.start, ack)], w.lo, w.hi, e, 0)
      else
        var full := if r.len != MAX_LEN then Range(r.start, MAX_LEN, ack) else r;
        Work(w.t[w.lo := full], w.lo, w.hi, r.start + MAX_LEN, e - (r.start + MAX_LEN))
    else w
  }

  /** Merge what is left with the first range that starts after `s`. */
  function MergeHigh(w: Work, acked: bool): (v: Work)
    requires WorkOk(w)
    ensures WorkOk(v)
  {
    if w.n != 0 && w.hi < |w.t| && w.t[w.hi].start <= w.s + w.n then
      var r := w.t[w.hi];
      var ack := if End(r) <= w.s + w.n then acked else r.ack && acked;
      var e := Max(End(r), w.s + w.n);
      if e - w.s <= MAX_LEN then
        Work(w.t[w.hi := Range(w.s, e - w.s, ack)], w.hi, w.hi + 1, e, 0)
      else
        Work(w.t[w.hi := Range(w.s, MAX_LEN, ack)], w.hi, w.hi + 1, w.s + MAX_LEN, e - (w.s + MAX_LEN))
    else w
  }

  /** Join the range just written with the next one, if that gives a range below the maximum. */
  function Combine(w: Work): (v: Work)
    requires WorkOk(w)
    ensures WorkOk(v)
  {
    if w.n == 0 && w.hi < |w.t| then
      var a, b := w.t[w.lo], w.t[w.hi];
      var newlen := a.len + b.len - (w.s - b.start);
      if w.s >= b.start && newlen < MAX_LEN then
        var u := w.t[w.lo := Range(a.start, newlen, a.ack && b.ack)];
        Work(u[..w.hi] + u[w.hi + 1..], w.lo, w.hi, w.s, 0)
      else w
    else w
  }

  /** Insert what is left before `hi`; `hi` itself stays, so a second piece lands before the first. */
  function InsertAll(w: Work, acked: bool): (r: (seq<Range>, bool))
    requires WorkOk(w)
    decreases w.n
  {
    if w.n == 0 then (w.t, false)
    else if |w.t| >= MAX_BADBLOCKS then (w.t, true)
    else
      var m := if w.n > MAX_LEN then MAX_LEN else w.n;
      InsertAll(Work(w.t[..w.hi] + [Range(w.s, m, acked)] + w.t[w.hi..], w.lo, w.hi, w.s + m, w.n - m), acked)
  }

  /** The steps after the merge from below. */
  function Finish(w: Work, acked: bool): (r: (seq<Range>, bool))
    requires WorkOk(w)
  {
    InsertAll(Combine(MergeHigh(w, acked)), acked)
  }

  /** The new table, and whether the request failed for want of room. */
  ghost function SetTable(t: seq<Range>, s: int, n: nat, acked: bool): (r: (seq<Range>, bool)) {
    Finish(MergeLow(Start(t, s, n), acked), acked)
  }

  /** badblocks_set of sectors, which are rounded outward to blocks. */
  ghost function SetRequest(t: seq<Range>, shift: int, s: nat, sectors: nat, acked: bool): (r: (seq<Range>, bool)) {
    OutwardOrdered(shift, s, sectors);
    SetTable(t, Outward(shift, s, sectors).0, Outward(shift, s, sectors).1 - Outward(shift, s, sectors).0, acked)
  }

  lemma {:induction false} SetRequestIs(t: seq<Range>, shift: int, s: nat, sectors: nat, acked: bool, b: int, n: nat)
    requires b == Outward(shift, s, sectors).0 && b + n == Outward(shift, s, sectors).1
    ensures SetRequest(t, shift, s, sectors, acked) == SetTable(t, b, n, acked)
  {
  }

  // ---- which requests are recorded exactly

  /** The range overlaps [s, e) or is adjacent to it. */
  predicate Touches(r: Range, s: int, e: int) { r.start <= e && s <= End(r) }

  ghost predicate TouchesNone(t: seq<Range>, s: int, e: int) {
    forall j :: 0 <= j < |t| ==> !Touches(t[j], s, e)
  }

  /** The request touches range `i` alone and fits with it in one range. */
  ghost predicate TouchesOne(t: seq<Range>, s: int, e: int, i: nat) {
    && i < |t| && Touches(t[i], s, e)
    && (forall j :: 0 <= j < |t| && j != i ==> !Touches(t[j], s, e))
    && Max(End(t[i]), e) - (if t[i].start < s then t[i].start else s) <= MAX_LEN
  }

  /** The request bridges ranges `i` and `i + 1`, stops within the second, and all three fit in one. */
  ghost predicate TouchesTwo(t: seq<Range>, s: int, e: int, i: nat) {
    && i + 1 < |t| && Touches(t[i], s, e) && Touches(t[i + 1], s, e) && e <= End(t[i + 1])
    && (forall j :: 0 <= j < |t| && j != i && j != i + 1 ==> !Touches(t[j], s, e))
    && End(t[i + 1]) - (if t[i].start < s then t[i].start else s) < MAX_LEN
  }

  ghost predicate Simple(t: seq<Range>, s: int, e: int) {
    && s <= e <= s + MAX_LEN
    && (TouchesNone(t, s, e) || (exists i :: TouchesOne(t, s, e, i)) || (exists i :: TouchesTwo(t, s, e, i)))
  }

  /** Set union; and nothing is recorded as acknowledged that is not. */
  ghost predicate UnionOk(t: seq<Range>, s: int, e: int, acked: bool, u: seq<Range>) {
    && Sorted(u)
    && (forall b: int :: Bad(u, b) <==> Bad(t, b) || s <= b < e)
    && (forall b: int :: Has(u, b, true) ==> if s <= b < e then acked else Has(t, b, true))
  }

  // ---- one range grown in the middle of the table

  /** `r` takes the place of `was` between `x` and `y` and is joined with `y` where it must be. */
  function Joined(x: seq<Range>, r: Range, y: seq<Range>): seq<Range> {
    if |y| > 0 && End(r) >= y[0].start && End(y[0]) - r.start < MAX_LEN
    then x + [Range(r.start, End(y[0]) - r.start, r.ack && y[0].ack)] + y[1..]
    else x + [r] + y
  }

  ghost predicate JoinOk(x: seq<Range>, r: Range, y: seq<Range>) {
    && Sorted(x) && Upto(x, r.start) && RangeOk(r) && Sorted(y)
    && (|y| > 0 ==> r.start < y[0].start)
    && (|y| > 0 && y[0].start < End(r) ==> End(r) <= End(y[0]) && End(y[0]) - r.start < MAX_LEN)
  }

  ghost predicate JoinMeans(x: seq<Range>, r: Range, y: seq<Range>, u: seq<Range>) {
    && Sorted(u)
    && (forall b: int :: Bad(u, b) <==> Bad(x, b) || Covers(r, b) || Bad(y, b))
    && (forall b: int :: Has(u, b, true) ==> if Covers(r, b) then r.ack else Has(x, b, true) || Has(y, b, true))
  }

  lemma {:induction false} Three(x: seq<Range>, r: Range, y: seq<Range>)
    requires Sorted(x) && Upto(x, r.start) && RangeOk(r) && Sorted(y) && From(y, End(r))
    ensures JoinMeans(x, r, y, x + [r] + y)
  {
    SortedAppend(x, [r], r.start);
    assert Upto(x + [r], End(r));
    SortedAppend(x + [r], y, End(r));
    forall b: int, ack: bool
      ensures Has(x + [r] + y, b, ack) <==> Has(x, b, ack) || (Covers(r, b) && r.ack == ack) || Has(y, b, ack)
      ensures Covers(r, b) ==> !Has(x, b, ack) && !Has(y, b, ack)
    {
      HasAppend(x + [r], y, b, ack);
      HasAppend(x, [r], b, ack);
      HasOne(r, b, ack);
      if Covers(r, b) {
        NotBelow(x, r.start, b, ack);
        NotAbove(y, End(r), b, ack);
      }
    }
  }

  lemma {:induction false} JoinedMeans(x: seq<Range>, r: Range, y: seq<Range>)
    requires JoinOk(x, r, y)
    ensures JoinMeans(x, r, y, Joined(x, r, y))
  {
    if |y| > 0 && End(r) >= y[0].start && End(y[0]) - r.start < MAX_LEN {
      assert RangeOk(y[0]);
      TogetherCase(x, r, y);
      assert Joined(x, r, y) == x + [Range(r.start, End(y[0]) - r.start, r.ack && y[0].ack)] + y[1..];
    } else {
      assert Joined(x, r, y) == x + [r] + y;
      ApartCase(x, r, y);
    }
  }

  lemma {:induction false} TogetherCase(x: seq<Range>, r: Range, y: seq<Range>)
    requires Sorted(x) && Upto(x, r.start) && RangeOk(r) && Sorted(y) && |y| > 0
    requires r.start < y[0].start <= End(r) <= End(y[0]) && End(y[0]) - r.start < MAX_LEN
    ensures JoinMeans(x, r, y, x + [Range(r.start, End(y[0]) - r.start, r.ack && y[0].ack)] + y[1..])
  {
    FirstOf(y);
    JoinedCase(x, r, y[0], y[1..]);
  }

  lemma {:induction false} ApartCase(x: seq<Range>, r: Range, y: seq<Range>)
    requires Sorted(x) && Upto(x, r.start) && RangeOk(r) && Sorted(y) && (|y| > 0 ==> End(r) <= y[0].start)
    ensures JoinMeans(x, r, y, x + [r] + y)
  {
    if |y| > 0 {
      FromFirst(y, End(r));
    }
    Three(x, r, y);
  }

  lemma {:induction false} FirstOf(y: seq<Range>)
    requires Sorted(y) && |y| > 0
    ensures y == [y[0]] + y[1..] && RangeOk(y[0]) && Sorted(y[1..]) && From(y[1..], End(y[0]))
  {
    Around(y, 0);
  }

  lemma {:induction false} FromFirst(y: seq<Range>, m: int)
    requires Sorted(y) && |y| > 0 && m <= y[0].start
    ensures From(y, m)
  {
    forall i | 0 <= i < |y|
      ensures m <= y[i].start
    {
      assert i > 0 ==> End(y[0]) <= y[i].start;
    }
  }

  lemma {:induction false} JoinedCase(x: seq<Range>, r: Range, y0: Range, y1: seq<Range>)
    requires Sorted(x) && Upto(x, r.start) && RangeOk(r) && Sorted(y1) && From(y1, End(y0))
    requires r.start < y0.start <= End(r) <= End(y0) && End(y0) - r.start < MAX_LEN
    ensures JoinMeans(x, r, [y0] + y1, x + [Range(r.start, End(y0) - r.start, r.ack && y0.ack)] + y1)
  {
    Three(x, Range(r.start, End(y0) - r.start, r.ack && y0.ack), y1);
    JoinedBlocks(x, r, y0, y1);
  }

  lemma {:induction false} JoinedBlocks(x: seq<Range>, r: Range, y0: Range, y1: seq<Range>)
    requires r.start < y0.start <= End(r) <= End(y0) && Upto(x, r.start) && From(y1, End(y0))
    requires var c := Range(r.start, End(y0) - r.start, r.ack && y0.ack); JoinMeans(x, c, y1, x + [c] + y1)
    ensures var c := Range(r.start, End(y0) - r.start, r.ack && y0.ack); JoinMeans(x, r, [y0] + y1, x + [c] + y1)
  {
    var c := Range(r.start, End(y0) - r.start, r.ack && y0.ack);
    forall b: int, ack: bool
      ensures Has([y0] + y1, b, ack) <==> (Covers(y0, b) && y0.ack == ack) || Has(y1, b, ack)
      ensures Covers(c, b) <==> Covers(r, b) || Covers(y0, b)
    {
      HasAppend([y0], y1, b, ack);
      HasOne(y0, b, ack);
    }
  }

  // ---- the three shapes of a simple request

  lemma {:induction false} CombineIs(t: seq<Range>, i: nat, r: Range, acked: bool)
    requires i < |t|
    ensures InsertAll(Combine(Work(t[i := r], i, i + 1, End(r), 0)), acked) == (Joined(t[..i], r, t[i + 1..]), false)
  {
    var y := t[i + 1..];
    assert t[i := r] == t[..i] + [r] + y;
    if |y| > 0 && End(r) >= y[0].start && End(y[0]) - r.start < MAX_LEN {
      var c := Range(r.start, End(y[0]) - r.start, r.ack && y[0].ack);
      var u := t[i := r][i := c];
      assert u[..i + 1] + u[i + 2..] == t[..i] + [c] + y[1..];
    }
  }

  /** The range that takes the place of `was` covers it and the request, and is acknowledged only if both are. */
  ghost predicate Grows(was: Range, s: int, e: int, acked: bool, r: Range) {
    && Touches(was, s, e) && s <= e
    && r.start == (if was.start < s then was.start else s) && End(r) == Max(End(was), e)
    && (r.ack ==> acked && (was.ack || (s <= was.start && End(was) <= e)))
  }

  lemma {:induction false} GrowMeans(t: seq<Range>, i: nat, s: int, e: int, acked: bool, r: Range)
    requires Sorted(t) && i < |t| && Grows(t[i], s, e, acked, r) && JoinOk(t[..i], r, t[i + 1..])
    ensures UnionOk(t, s, e, acked, Joined(t[..i], r, t[i + 1..]))
  {
    var x, was, y := t[..i], t[i], t[i + 1..];
    Around(t, i);
    JoinedMeans(x, r, y);
    GrowBlocks(x, was, y, s, e, acked, r, Joined(x, r, y));
  }

  lemma {:induction false} GrowBlocks(x: seq<Range>, was: Range, y: seq<Range>, s: int, e: int, acked: bool, r: Range,
                                      u: seq<Range>)
    requires Grows(was, s, e, acked, r) && JoinMeans(x, r, y, u)
    ensures UnionOk(x + [was] + y, s, e, acked, u)
  {
    forall b: int, ack: bool
      ensures Has(x + [was] + y, b, ack) <==> Has(x, b, ack) || (Covers(was, b) && was.ack == ack) || Has(y, b, ack)
      ensures Covers(r, b) <==> Covers(was, b) || s <= b < e
    {
      HasAppend(x + [was], y, b, ack);
      HasAppend(x, [was], b, ack);
      HasOne(was, b, ack);
    }
  }

  /** The range a merge from below writes. */
  ghost function LowRange(was: Range, s: int, e: int, acked: bool): Range {
    Range(was.start, Max(End(was), e) - was.start,
          if s == was.start && e >= End(was) then acked else was.ack && acked)
  }

  /** The range a merge from above writes. */
  ghost function HighRange(was: Range, s: int, e: int, acked: bool): Range {
    Range(s, Max(End(was), e) - s, if End(was) <= e then acked else was.ack && acked)
  }

  /** The range at or below `s` is touched. */
  lemma {:induction false} SetLow(t: seq<Range>, s: int, n: nat, acked: bool)
    requires Sorted(t) && Simple(t, s, s + n)
    requires Below(t, s + 1) > 0 && End(t[Below(t, s + 1) - 1]) >= s
    ensures !SetTable(t, s, n, acked).1 && UnionOk(t, s, s + n, acked, SetTable(t, s, n, acked).0)
  {
    var i, e := Below(t, s + 1) - 1, s + n;
    BelowEdge(t, s + 1);
    var r := LowRange(t[i], s, e, acked);
    LowFits(t, s, e, i, r);
    SetLowIs(t, s, n, acked, r);
    GrowMeans(t, i, s, e, acked, r);
  }

  lemma {:induction false} SetLowIs(t: seq<Range>, s: int, n: nat, acked: bool, r: Range)
    requires Below(t, s + 1) > 0 && End(t[Below(t, s + 1) - 1]) >= s
    requires r == LowRange(t[Below(t, s + 1) - 1], s, s + n, acked) && r.len <= MAX_LEN
    ensures SetTable(t, s, n, acked) == (Joined(t[..Below(t, s + 1) - 1], r, t[Below(t, s + 1)..]), false)
  {
    var i := Below(t, s + 1) - 1;
    var w := Work(t[i := r], i, i + 1, End(r), 0);
    assert MergeLow(Start(t, s, n), acked) == w;
    assert MergeHigh(w, acked) == w;
    CombineIs(t, i, r, acked);
  }

  lemma {:induction false} LowFits(t: seq<Range>, s: int, e: int, i: nat, r: Range)
    requires Sorted(t) && Simple(t, s, e) && i < |t| && t[i].start <= s <= End(t[i])
    requires From(t[i + 1..], s + 1) && r.start == t[i].start && End(r) == Max(End(t[i]), e)
    ensures JoinOk(t[..i], r, t[i + 1..])
  {
    Around(t, i);
    assert Touches(t[i], s, e);
  }

  /** The range at or below `s` is not touched but the next one is. */
  lemma {:induction false} SetHigh(t: seq<Range>, s: int, n: nat, acked: bool)
    requires Sorted(t) && Simple(t, s, s + n) && 0 <= s
    requires Below(t, s + 1) > 0 ==> End(t[Below(t, s + 1) - 1]) < s
    requires n > 0 && Below(t, s + 1) < |t| && t[Below(t, s + 1)].start <= s + n
    ensures !SetTable(t, s, n, acked).1 && UnionOk(t, s, s + n, acked, SetTable(t, s, n, acked).0)
  {
    var k, e := Below(t, s + 1), s + n;
    BelowEdge(t, s + 1);
    var r := HighRange(t[k], s, e, acked);
    HighFits(t, s, e, k, r);
    SetHighIs(t, s, n, acked, r);
    GrowMeans(t, k, s, e, acked, r);
  }

  lemma {:induction false} SetHighIs(t: seq<Range>, s: int, n: nat, acked: bool, r: Range)
    requires Below(t, s + 1) > 0 ==> End(t[Below(t, s + 1) - 1]) < s
    requires n > 0 && Below(t, s + 1) < |t| && t[Below(t, s + 1)].start <= s + n
    requires r == HighRange(t[Below(t, s + 1)], s, s + n, acked) && r.len <= MAX_LEN
    ensures SetTable(t, s, n, acked) == (Joined(t[..Below(t, s + 1)], r, t[Below(t, s + 1) + 1..]), false)
  {
    var k := Below(t, s + 1);
    var w := Start(t, s, n);
    assert MergeLow(w, acked) == w;
    assert MergeHigh(w, acked) == Work(t[k := r], k, k + 1, End(r), 0);
    CombineIs(t, k, r, acked);
  }

  lemma {:induction false} HighFits(t: seq<Range>, s: int, e: int, k: nat, r: Range)
    requires Sorted(t) && Simple(t, s, e) && k < |t| && 0 <= s < t[k].start <= e && s < e
    requires k > 0 ==> End(t[k - 1]) < s
    requires r.start == s && End(r) == Max(End(t[k]), e)
    ensures JoinOk(t[..k], r, t[k + 1..])
  {
    HighSize(t, s, e, k);
    Around(t, k);
    UptoRange(t, k, s);
    assert k + 1 < |t| ==> t[k + 1..][0] == t[k + 1];
  }

  lemma {:induction false} UptoRange(t: seq<Range>, k: nat, s: int)
    requires Sorted(t) && k <= |t| && (k > 0 ==> End(t[k - 1]) < s)
    ensures Upto(t[..k], s)
  {
    if k > 0 {
      SortedPart(t, 0, k);
      KeepAll(t[..k], s);
    }
  }

  lemma {:induction false} HighSize(t: seq<Range>, s: int, e: int, k: nat)
    requires Sorted(t) && Simple(t, s, e) && k < |t| && s < t[k].start <= e
    requires k > 0 ==> End(t[k - 1]) < s
    ensures Max(End(t[k]), e) - s <= MAX_LEN
    ensures (k + 1 < |t| && t[k + 1].start < Max(End(t[k]), e)
             ==> Max(End(t[k]), e) <= End(t[k + 1]) && End(t[k + 1]) - s < MAX_LEN)
  {
    assert Touches(t[k], s, e);
    if i :| TouchesOne(t, s, e, i) {
      assert i == k;
      assert k + 1 < |t| ==> !Touches(t[k + 1], s, e) && End(t[k]) <= t[k + 1].start;
    } else {
      var i: nat :| TouchesTwo(t, s, e, i);
      assert k > 0 ==> !Touches(t[k - 1], s, e);
      assert End(t[k]) <= t[k + 1].start;
    }
  }

  /** Nothing is touched. */
  lemma {:induction false} SetNone(t: seq<Range>, s: int, n: nat, acked: bool)
    requires Sorted(t) && n <= MAX_LEN && 0 <= s
    requires Below(t, s + 1) > 0 ==> End(t[Below(t, s + 1) - 1]) < s
    requires Below(t, s + 1) < |t| ==> s + n < t[Below(t, s + 1)].start
    ensures SetTable(t, s, n, acked).1 <==> n > 0 && |t| >= MAX_BADBLOCKS
    ensures SetTable(t, s, n, acked).1 ==> SetTable(t, s, n, acked).0 == t
    ensures !SetTable(t, s, n, acked).1 ==> UnionOk(t, s, s + n, acked, SetTable(t, s, n, acked).0)
  {
    var k := Below(t, s + 1);
    var w := Start(t, s, n);
    assert MergeLow(w, acked) == w;
    assert MergeHigh(w, acked) == w;
    assert Combine(w) == w;
    if 0 < n && |t| < MAX_BADBLOCKS {
      var r := Range(s, n, acked);
      var u := t[..k] + [r] + t[k..];
      assert InsertAll(Work(u, w.lo, w.hi, s + n, 0), acked) == (u, false);
      InsertMeans(t, k, r);
    }
  }

  lemma {:induction false} InsertMeans(t: seq<Range>, k: nat, r: Range)
    requires Sorted(t) && k <= |t| && RangeOk(r)
    requires k > 0 ==> End(t[k - 1]) <= r.start
    requires k < |t| ==> End(r) <= t[k].start
    ensures UnionOk(t, r.start, End(r), r.ack, t[..k] + [r] + t[k..])
  {
    var x, y := t[..k], t[k..];
    assert t == x + y;
    SortedPart(t, 0, k);
    SortedPart(t, k, |t|);
    assert t[k..|t|] == y;
    if k > 0 {
      KeepAll(x, r.start);
    }
    ApartCase(x, r, y);
    InsertBlocks(x, r, y, x + [r] + y);
  }

  lemma {:induction false} InsertBlocks(x: seq<Range>, r: Range, y: seq<Range>, u: seq<Range>)
    requires JoinMeans(x, r, y, u)
    ensures UnionOk(x + y, r.start, End(r), r.ack, u)
  {
    forall b: int, ack: bool
      ensures Has(x + y, b, ack) <==> Has(x, b, ack) || Has(y, b, ack)
    {
      HasAppend(x, y, b, ack);
    }
  }

  /**
   * For a simple request badblocks_set records exactly the union, keeps the table sorted and
   * disjoint, and marks nothing as acknowledged that is not. It fails only when the table is full
   * and the request touches nothing, and then it changes nothing.
   */
  lemma {:induction false} SetIsUnion(t: seq<Range>, s: int, n: nat, acked: bool)
    requires Sorted(t) && 0 <= s && Simple(t, s, s + n)
    ensures SetTable(t, s, n, acked).1 <==> n > 0 && |t| >= MAX_BADBLOCKS && TouchesNone(t, s, s + n)
    ensures SetTable(t, s, n, acked).1 ==> SetTable(t, s, n, acked).0 == t
    ensures !SetTable(t, s, n, acked).1 ==> UnionOk(t, s, s + n, acked, SetTable(t, s, n, acked).0)
  {
    var k := Below(t, s + 1);
    BelowEdge(t, s + 1);
    if k > 0 && End(t[k - 1]) >= s {
      assert Touches(t[k - 1], s, s + n);
      SetLow(t, s, n, acked);
    } else if n > 0 && k < |t| && t[k].start <= s + n {
      assert Touches(t[k], s, s + n);
      SetHigh(t, s, n, acked);
    } else {
      Untouched(t, s, n);
      SetNone(t, s, n, acked);
    }
  }

  lemma {:induction false} Untouched(t: seq<Range>, s: int, n: nat)
    requires Sorted(t)
    requires Below(t, s + 1) > 0 ==> End(t[Below(t, s + 1) - 1]) < s
    requires n == 0 || (Below(t, s + 1) < |t| ==> s + n < t[Below(t, s + 1)].start)
    ensures TouchesNone(t, s, s + n)
    ensures Below(t, s + 1) < |t| ==> s + n < t[Below(t, s + 1)].start
  {
    var k := Below(t, s + 1);
    BelowSplits(t, s + 1);
    if k < |t| {
      assert t[k..][0] == t[k];
    }
    forall j | 0 <= j < |t|
      ensures !Touches(t[j], s, s + n)
    {
      if j < k - 1 {
        assert End(t[j]) <= t[k - 1].start;
      } else if j > k {
        assert End(t[k]) <= t[j].start;
      }
    }
  }

  // ---- requests that are too long

  /** Either the union was recorded, or the request failed and the table is as it was. */
  ghost predicate Right(t: seq<Range>, s: int, e: int, acked: bool, r: (seq<Range>, bool)) {
    if r.1 then r.0 == t else UnionOk(t, s, e, acked, r.0)
  }

  ghost predicate SetOk(t: seq<Range>, s: int, n: nat, acked: bool) {
    Right(t, s, s + n, acked, SetTable(t, s, n, acked))
  }

  lemma {:induction false} InsertKeepsPair(w: Work, acked: bool, i: nat)
    requires WorkOk(w) && w.hi <= i && i + 1 < |w.t| && End(w.t[i]) > w.t[i + 1].start
    ensures !Sorted(InsertAll(w, acked).0)
    decreases w.n
  {
    if w.n > 0 && |w.t| < MAX_BADBLOCKS {
      var m := if w.n > MAX_LEN then MAX_LEN else w.n;
      var u := w.t[..w.hi] + [Range(w.s, m, acked)] + w.t[w.hi..];
      assert u[i + 1] == w.t[i] && u[i + 2] == w.t[i + 1];
      InsertKeepsPair(Work(u, w.lo, w.hi, w.s + m, w.n - m), acked, i + 1);
    }
  }

  /**
   * A request that touches nothing is handled correctly exactly when it is at most one range long
   * or the table is full: the pieces of a longer one are inserted in reverse order.
   */
  lemma {:induction false} SetUntouched(t: seq<Range>, s: int, n: nat, acked: bool)
    requires Sorted(t) && 0 <= s && TouchesNone(t, s, s + n)
    ensures SetOk(t, s, n, acked) <==> n <= MAX_LEN || |t| >= MAX_BADBLOCKS
  {
    var k, w := Below(t, s + 1), Start(t, s, n);
    BelowEdge(t, s + 1);
    assert k > 0 ==> !Touches(t[k - 1], s, s + n);
    assert k < |t| ==> !Touches(t[k], s, s + n);
    if n <= MAX_LEN {
      SetNone(t, s, n, acked);
    } else {
      assert MergeLow(w, acked) == w;
      assert MergeHigh(w, acked) == w;
      SetLong(w, acked);
    }
  }

  lemma {:induction false} SetLong(w: Work, acked: bool)
    requires WorkOk(w) && w.n > MAX_LEN
    ensures var r := InsertAll(Combine(w), acked);
            if |w.t| >= MAX_BADBLOCKS then r == (w.t, true) else if r.1 then |r.0| > |w.t| else !Sorted(r.0)
  {
    if |w.t| < MAX_BADBLOCKS {
      var u := w.t[..w.hi] + [Range(w.s, MAX_LEN, acked)] + w.t[w.hi..];
      var v := Work(u, w.lo, w.hi, w.s + MAX_LEN, w.n - MAX_LEN);
      assert InsertAll(w, acked) == InsertAll(v, acked);
      SetSecond(v, acked);
    }
  }

  lemma {:induction false} SetSecond(w: Work, acked: bool)
    requires WorkOk(w) && w.n > 0 && w.hi < |w.t| && w.t[w.hi].start < w.s
    ensures var r := InsertAll(w, acked); |r.0| >= |w.t| && (!r.1 ==> !Sorted(r.0))
  {
    InsertGrows(w, acked);
    if |w.t| < MAX_BADBLOCKS {
      var m := if w.n > MAX_LEN then MAX_LEN else w.n;
      var u := w.t[..w.hi] + [Range(w.s, m, acked)] + w.t[w.hi..];
      assert u[w.hi + 1] == w.t[w.hi];
      InsertKeepsPair(Work(u, w.lo, w.hi, w.s + m, w.n - m), acked, w.hi);
    }
  }

  lemma {:induction false} InsertGrows(w: Work, acked: bool)
    requires WorkOk(w)
    ensures |InsertAll(w, acked).0| >= |w.t|
    decreases w.n
  {
    if w.n > 0 && |w.t| < MAX_BADBLOCKS {
      var m := if w.n > MAX_LEN then MAX_LEN else w.n;
      InsertGrows(Work(w.t[..w.hi] + [Range(w.s, m, acked)] + w.t[w.hi..], w.lo, w.hi, w.s + m, w.n - m), acked);
    }
  }

  // ---- requests that pass the end of a second range

  /**
   * Growing the range below past the end of the next one loses blocks: the two are joined at the
   * end of the shorter.
   */
  lemma {:induction false} SetLosesBlocks(t: seq<Range>, s: int, n: nat, acked: bool, i: nat)
    requires Sorted(t) && i + 1 < |t| && i + 1 == Below(t, s + 1)
    requires s <= End(t[i]) && End(t[i + 1]) < s + n <= t[i].start + MAX_LEN
    requires i + 2 < |t| ==> s + n <= t[i + 2].start
    ensures !SetTable(t, s, n, acked).1 && !Bad(SetTable(t, s, n, acked).0, s + n - 1) && !SetOk(t, s, n, acked)
  {
    var r := LowRange(t[i], s, s + n, acked);
    assert End(t[i]) <= t[i + 1].start && RangeOk(t[i]) && RangeOk(t[i + 1]);
    SetLowIs(t, s, n, acked, r);
    LowLoses(t, i, r);
  }

  lemma {:induction false} LowLoses(t: seq<Range>, i: nat, r: Range)
    requires Sorted(t) && i + 1 < |t| && RangeOk(r) && r.start == t[i].start && End(t[i + 1]) < End(r)
    requires i + 2 < |t| ==> End(r) <= t[i + 2].start
    ensures !Bad(Joined(t[..i], r, t[i + 1..]), End(r) - 1)
  {
    Around(t, i);
    assert RangeOk(t[i]) && End(t[i]) <= t[i + 1].start;
    JoinLoses(t[..i], r, t[i + 1..]);
  }

  lemma {:induction false} JoinLoses(x: seq<Range>, r: Range, y: seq<Range>)
    requires Upto(x, r.start) && RangeOk(r) && Sorted(y)
    requires |y| > 0 && r.start < y[0].start && End(y[0]) < End(r) && (|y| > 1 ==> End(r) <= y[1].start)
    ensures !Bad(Joined(x, r, y), End(r) - 1)
  {
    var b, z := End(r) - 1, y[1..];
    var c := Range(r.start, End(y[0]) - r.start, r.ack && y[0].ack);
    FirstOf(y);
    if |z| > 0 {
      FromFirst(z, End(r));
    }
    forall ack: bool
      ensures !Has(x + [c] + z, b, ack)
    {
      HasAppend(x + [c], z, b, ack);
      HasAppend(x, [c], b, ack);
      HasOne(c, b, ack);
      NotBelow(x, r.start, b, ack);
      NotAbove(z, End(r), b, ack);
    }
  }

  // ---- unacknowledged ranges

  /** An acknowledged request leaves no unacknowledged range that was not there. */
  lemma {:induction false} SetAddsNoUnacked(t: seq<Range>, s: int, n: nat)
    requires !Unacked(t)
    ensures !Unacked(SetTable(t, s, n, true).0)
  {
    var w := Combine(MergeHigh(MergeLow(Start(t, s, n), true), true));
    assert !Unacked(MergeLow(Start(t, s, n), true).t);
    assert !Unacked(MergeHigh(MergeLow(Start(t, s, n), true), true).t);
    assert !Unacked(w.t);
    InsertAddsNoUnacked(w);
  }

  lemma {:induction false} InsertAddsNoUnacked(w: Work)
    requires WorkOk(w) && !Unacked(w.t)
    ensures !Unacked(InsertAll(w, true).0)
    decreases w.n
  {
    if w.n > 0 && |w.t| < MAX_BADBLOCKS {
      var m := if w.n > MAX_LEN then MAX_LEN else w.n;
      InsertAddsNoUnacked(Work(w.t[..w.hi] + [Range(w.s, m, true)] + w.t[w.hi..], w.lo, w.hi, w.s + m, w.n - m));
    }
  }
}
