/**
 * Exactly which requests badblocks_set (block/badblocks.c) records correctly. `SetCond` is read off
 * the table before the call; `SetIsExact` shows that it decides, for every request.
 */
module BadblocksExact {
  import opened BadblocksModel
  import opened BadblocksSet

  // ---- the condition

  /** Every block of [lo, hi) is recorded, and none as acknowledged unless the request is. */
  ghost predicate Covered(z: seq<Range>, lo: int, hi: int, acked: bool) {
    forall b: int :: lo <= b < hi ==> Bad(z, b) && (Has(z, b, true) ==> acked)
  }

  /**
   * A range just written can be left or joined with the next: it does not reach it, or the two fit
   * in one that is not cut short, or what is cut off was recorded before.
   */
  ghost predicate JoinCond(r: Range, y: seq<Range>, acked: bool) {
    || |y| == 0 || End(r) <= y[0].start
    || (&& r.start < End(y[0]) && End(y[0]) - r.start < MAX_LEN
        && (End(r) <= End(y[0]) || Covered(y[1..], End(y[0]), End(r), acked)))
  }

  /** The blocks [m, e) that did not fit below go to a new range, or into the next one, or both. */
  ghost predicate TailCond(count: nat, y: seq<Range>, m: int, e: int, acked: bool, same: bool) {
    if |y| == 0 || y[0].start > e then (if count >= MAX_BADBLOCKS then same else e - m <= MAX_LEN)
    else
      var r := HighRange(y[0], m, e, acked);
      if r.len <= MAX_LEN then JoinCond(r, y[1..], acked)
      else if count >= MAX_BADBLOCKS then same && y[0] == r.(len := MAX_LEN)
      else
        && r.len <= 2 * MAX_LEN && (|y| > 1 ==> End(r) <= y[1].start)
        && (acked && e < End(y[0]) ==> y[0].ack)
  }

  /** The table is full and another range is needed. */
  ghost predicate TailFails(count: nat, y: seq<Range>, m: int, e: int) {
    count >= MAX_BADBLOCKS && (|y| == 0 || y[0].start > e || HighRange(y[0], m, e, true).len > MAX_LEN)
  }

  /** A full range keeps its acknowledgement whatever the request says of its last blocks. */
  ghost predicate KeepsStaleAck(w: Range, s: int, acked: bool) {
    w.len == MAX_LEN && w.ack && s < End(w) && !acked
  }

  /** The request touches `w`, the last range at or before its start; `y` are the ranges after `w`. */
  ghost predicate LowCond(count: nat, w: Range, y: seq<Range>, s: int, e: int, acked: bool) {
    var r := LowRange(w, s, e, acked);
    if r.len <= MAX_LEN then JoinCond(r, y, acked)
    else
      && TailCond(count, y, w.start + MAX_LEN, e, acked, w.len == MAX_LEN)
      && (TailFails(count, y, w.start + MAX_LEN, e) || !KeepsStaleAck(w, s, acked))
  }

  ghost predicate SetCond(t: seq<Range>, s: int, n: nat, acked: bool) {
    var k := Below(t, s + 1);
    if k > 0 && End(t[k - 1]) >= s then LowCond(|t|, t[k - 1], t[k..], s, s + n, acked)
    else n == 0 || TailCond(|t|, t[k..], s, s + n, acked, true)
  }

  // ---- what a suffix of the table must be

  /** From block `m` on, `z` records what `y` did and the request, and acknowledges nothing else. */
  ghost predicate SuffixOk(y: seq<Range>, m: int, s: int, e: int, acked: bool, z: seq<Range>) {
    && Sorted(z)
    && (forall b: int :: m <= b ==> (Bad(z, b) <==> Bad(y, b) || s <= b < e))
    && (forall b: int :: m <= b && Has(z, b, true) ==> if s <= b < e then acked else Has(y, b, true))
  }

  /** From `m` on, `r` covers `w` and the request, and is acknowledged only if both are. */
  ghost predicate GrownFrom(w: Range, m: int, s: int, e: int, acked: bool, r: Range) {
    && RangeOk(w) && RangeOk(r) && r.start == m && End(r) == Max(End(w), e) && w.start <= e && s <= e
    && ((w.start == m && m <= s <= End(w)) || (s <= m && m < e))
    && (r.ack ==> acked && (w.ack || (End(w) <= e && s <= m)))
  }

  lemma {:induction false} GrownCovers(w: Range, m: int, s: int, e: int, acked: bool, r: Range, b: int)
    requires GrownFrom(w, m, s, e, acked, r) && m <= b
    ensures Covers(r, b) <==> Covers(w, b) || s <= b < e
    ensures r.ack && Covers(r, b) ==> if s <= b < e then acked else w.ack && Covers(w, b)
    ensures End(w) <= b && Covers(r, b) ==> s <= b < e
  {
  }

  lemma {:induction false} HasCons(r: Range, y: seq<Range>, b: int, ack: bool)
    ensures Has([r] + y, b, ack) <==> (Covers(r, b) && r.ack == ack) || Has(y, b, ack)
  {
    HasAppend([r], y, b, ack);
    HasOne(r, b, ack);
  }

  // ---- writing a range and joining it with the next

  /** Nothing lies in the way. */
  lemma {:induction false} JoinApart(w: Range, m: int, s: int, e: int, acked: bool, r: Range, y: seq<Range>)
    requires GrownFrom(w, m, s, e, acked, r) && Sorted(y) && (|y| > 0 ==> End(r) <= y[0].start)
    ensures SuffixOk([w] + y, m, s, e, acked, Joined([], r, y))
  {
    var z := Joined([], r, y);
    JoinedMeans([], r, y);
    forall b: int | m <= b
      ensures Bad(z, b) <==> Bad([w] + y, b) || s <= b < e
      ensures Has(z, b, true) ==> if s <= b < e then acked else Has([w] + y, b, true)
    {
      GrownCovers(w, m, s, e, acked, r, b);
      HasCons(w, y, b, true);
      HasCons(w, y, b, false);
    }
  }

  /** Cut short at or before its own start, or overlapping and not joined. */
  lemma {:induction false} JoinClashes(r: Range, y: seq<Range>)
    requires |y| > 0 && y[0].start < End(r) && (End(y[0]) <= r.start || End(y[0]) - r.start >= MAX_LEN)
    ensures !Sorted(Joined([], r, y))
  {
    var z := Joined([], r, y);
    if End(y[0]) - r.start < MAX_LEN {
      assert z[0].len <= 0;
    } else {
      assert z[0] == r && z[1] == y[0];
    }
  }

  ghost function JoinedRange(r: Range, y0: Range): Range { Range(r.start, End(y0) - r.start, r.ack && y0.ack) }

  lemma {:induction false} JoinOver(w: Range, m: int, s: int, e: int, acked: bool, r: Range, y0: Range, y1: seq<Range>)
    requires GrownFrom(w, m, s, e, acked, r) && RangeOk(y0) && Sorted(y1) && From(y1, End(y0)) && End(w) <= y0.start
    requires y0.start < End(r) && m < End(y0) && End(y0) - m < MAX_LEN
    ensures (SuffixOk([w] + ([y0] + y1), m, s, e, acked, [JoinedRange(r, y0)] + y1)
             <==> End(r) <= End(y0) || Covered(y1, End(y0), End(r), acked))
  {
    var c := JoinedRange(r, y0);
    var z, y := [c] + y1, [w] + ([y0] + y1);
    SortedAppend([c], y1, End(y0));
    forall b: int | m <= b
      ensures Bad(z, b) <==> b < End(y0) || Bad(y1, b)
      ensures Has(z, b, true) <==> (b < End(y0) && c.ack) || Has(y1, b, true)
      ensures Bad(y, b) || s <= b < e <==> Covers(r, b) || Covers(y0, b) || Bad(y1, b)
      ensures b < End(y0) && c.ack ==> if s <= b < e then acked else Has(y, b, true)
      ensures Has(y1, b, true) ==> Has(y, b, true)
    {
      GrownCovers(w, m, s, e, acked, r, b);
      OverBlocks(w, y0, y1, c, b);
    }
    OverDecides(r, y0, y1, y, m, s, e, acked, z);
  }

  lemma {:induction false} OverBlocks(w: Range, y0: Range, y1: seq<Range>, c: Range, b: int)
    ensures forall ack: bool :: Has([c] + y1, b, ack) <==> (Covers(c, b) && c.ack == ack) || Has(y1, b, ack)
    ensures (forall ack: bool :: Has([w] + ([y0] + y1), b, ack)
               <==> (Covers(w, b) && w.ack == ack) || (Covers(y0, b) && y0.ack == ack) || Has(y1, b, ack))
  {
    forall ack: bool
      ensures Has([c] + y1, b, ack) <==> (Covers(c, b) && c.ack == ack) || Has(y1, b, ack)
      ensures (Has([w] + ([y0] + y1), b, ack)
               <==> (Covers(w, b) && w.ack == ack) || (Covers(y0, b) && y0.ack == ack) || Has(y1, b, ack))
    {
      HasCons(c, y1, b, ack);
      HasCons(y0, y1, b, ack);
      HasCons(w, [y0] + y1, b, ack);
    }
  }

  /** With the blocks of both sides known, only those that were cut off decide. */
  lemma {:induction false} OverDecides(r: Range, y0: Range, y1: seq<Range>, y: seq<Range>, m: int, s: int, e: int,
                                       acked: bool, z: seq<Range>)
    requires Sorted(z) && r.start == m && y0.start < End(r) && m < End(y0) && e <= End(r)
    requires forall b: int :: m <= b ==> (Bad(z, b) <==> b < End(y0) || Bad(y1, b))
    requires forall b: int :: m <= b ==> (Has(z, b, true) ==> b < End(y0) || Has(y1, b, true))
    requires forall b: int :: m <= b && End(y0) <= b && Has(y1, b, true) ==> Has(z, b, true)
    requires forall b: int :: m <= b ==> (Bad(y, b) || s <= b < e <==> Covers(r, b) || Covers(y0, b) || Bad(y1, b))
    requires forall b: int :: m <= b < End(y0) && Has(z, b, true) ==> if s <= b < e then acked else Has(y, b, true)
    requires forall b: int :: m <= b && Has(y1, b, true) ==> Has(y, b, true)
    requires End(r) > End(y0) ==> s <= End(y0) && End(r) == e
    ensures SuffixOk(y, m, s, e, acked, z) <==> End(r) <= End(y0) || Covered(y1, End(y0), End(r), acked)
  {
    if SuffixOk(y, m, s, e, acked, z) && End(r) > End(y0) {
      forall b: int | End(y0) <= b < End(r)
        ensures Bad(y1, b) && (Has(y1, b, true) ==> acked)
      {
        assert m <= b && s <= b < e;
        assert Bad(z, b);
      }
    }
    if End(r) <= End(y0) || Covered(y1, End(y0), End(r), acked) {
      forall b: int | m <= b
        ensures Bad(z, b) <==> Bad(y, b) || s <= b < e
        ensures Has(z, b, true) ==> if s <= b < e then acked else Has(y, b, true)
      {
        assert End(y0) <= b < End(r) ==> Bad(y1, b) && (Has(y1, b, true) ==> acked);
      }
    }
  }

  /** Writing `r` over `w` and joining it with the next range is right exactly under `JoinCond`. */
  lemma {:induction false} JoinExact(w: Range, m: int, s: int, e: int, acked: bool, r: Range, y: seq<Range>)
    requires GrownFrom(w, m, s, e, acked, r) && Sorted(y) && From(y, End(w))
    ensures SuffixOk([w] + y, m, s, e, acked, Joined([], r, y)) <==> JoinCond(r, y, acked)
  {
    if |y| == 0 || End(r) <= y[0].start {
      JoinApart(w, m, s, e, acked, r, y);
    } else if End(y[0]) <= m || End(y[0]) - m >= MAX_LEN {
      JoinClashes(r, y);
    } else {
      FirstOf(y);
      JoinOver(w, m, s, e, acked, r, y[0], y[1..]);
      assert Joined([], r, y) == [JoinedRange(r, y[0])] + y[1..];
    }
  }

  // ---- the suffix in its table

  lemma {:induction false} SortedParts(x: seq<Range>, z: seq<Range>, m: int)
    requires Sorted(x) && Upto(x, m) && |z| > 0 && z[0].start == m
    ensures Sorted(x + z) <==> Sorted(z)
    ensures Sorted(z) ==> From(z, m)
  {
    if Sorted(z) {
      FromFirst(z, m);
      SortedAppend(x, z, m);
    }
    if Sorted(x + z) {
      SortedPart(x + z, |x|, |x + z|);
      assert (x + z)[|x|..|x + z|] == z;
    }
  }

  /** Nothing before `m` changes, so the suffix decides. */
  lemma {:induction false} SuffixDecides(x: seq<Range>, y: seq<Range>, m: int, s: int, e: int, acked: bool, z: seq<Range>)
    requires Sorted(x) && Upto(x, m) && From(y, m) && m <= s && |z| > 0 && z[0].start == m
    ensures UnionOk(x + y, s, e, acked, x + z) <==> SuffixOk(y, m, s, e, acked, z)
  {
    SortedParts(x, z, m);
    if Sorted(z) {
      forall b: int, ack: bool
        ensures Has(x + z, b, ack) <==> if b < m then Has(x, b, ack) else Has(z, b, ack)
        ensures Has(x + y, b, ack) <==> if b < m then Has(x, b, ack) else Has(y, b, ack)
      {
        HasAppend(x, z, b, ack);
        HasAppend(x, y, b, ack);
        if b < m {
          NotAbove(z, m, b, ack);
          NotAbove(y, m, b, ack);
        } else {
          NotBelow(x, m, b, ack);
        }
      }
      BothSides(x, y, m, s, e, acked, z, x + y, x + z);
    }
  }

  lemma {:induction false} BothSides(x: seq<Range>, y: seq<Range>, m: int, s: int, e: int, acked: bool, z: seq<Range>,
                                     t: seq<Range>, u: seq<Range>)
    requires Sorted(u) && Sorted(z) && m <= s
    requires forall b: int, ack: bool :: Has(u, b, ack) <==> if b < m then Has(x, b, ack) else Has(z, b, ack)
    requires forall b: int, ack: bool :: Has(t, b, ack) <==> if b < m then Has(x, b, ack) else Has(y, b, ack)
    ensures UnionOk(t, s, e, acked, u) <==> SuffixOk(y, m, s, e, acked, z)
  {
    if UnionOk(t, s, e, acked, u) {
      forall b: int | m <= b
        ensures Bad(z, b) <==> Bad(y, b) || s <= b < e
        ensures Has(z, b, true) ==> if s <= b < e then acked else Has(y, b, true)
      {
        assert Bad(u, b) <==> Bad(t, b) || s <= b < e;
      }
    }
    if SuffixOk(y, m, s, e, acked, z) {
      forall b: int
        ensures Bad(u, b) <==> Bad(t, b) || s <= b < e
        ensures Has(u, b, true) ==> if s <= b < e then acked else Has(t, b, true)
      {
        assert m <= b ==> (Bad(z, b) <==> Bad(y, b) || s <= b < e);
      }
    }
  }

  /** The full range in front of the suffix is acknowledged only if all its blocks are. */
  ghost predicate FullAckOk(w: Range, s: int, acked: bool, r0: Range) {
    r0.ack ==> (s < End(r0) ==> acked) && (w.start < s ==> w.ack)
  }

  /** `w` was made a full range that ends at `m`; the rest of the request is up to the suffix. */
  lemma {:induction false} FullDecides(x: seq<Range>, w: Range, r0: Range, y: seq<Range>, s: int, e: int, acked: bool,
                                       z: seq<Range>)
    requires Sorted(x) && Upto(x, w.start) && RangeOk(w) && RangeOk(r0) && From(y, End(w))
    requires r0.start == w.start <= s <= End(w) <= End(r0) < e && |z| > 0 && z[0].start == End(r0)
    ensures (UnionOk(x + [w] + y, s, e, acked, x + [r0] + z)
             <==> FullAckOk(w, s, acked, r0) && SuffixOk(y, End(r0), s, e, acked, z))
  {
    var m, t, u := End(r0), x + [w] + y, x + [r0] + z;
    SortedAppend(x, [r0], w.start);
    assert Upto(x + [r0], m);
    SortedParts(x + [r0], z, m);
    if Sorted(z) {
      forall b: int, ack: bool
        ensures (Has(u, b, ack)
                 <==> if b < m then Has(x, b, ack) || (w.start <= b && r0.ack == ack) else Has(z, b, ack))
        ensures m <= b ==> (Has(t, b, ack) <==> Has(y, b, ack))
        ensures b < w.start ==> (Has(t, b, ack) <==> Has(x, b, ack))
        ensures w.start <= b < s ==> (Has(t, b, ack) <==> w.ack == ack)
        ensures w.start <= b ==> !Has(x, b, ack)
      {
        FullBlocks(x, w, r0, y, z, b, ack);
      }
      FullSides(x, w, r0, y, s, e, acked, z, t, u);
    }
  }

  lemma {:induction false} FullBlocks(x: seq<Range>, w: Range, r0: Range, y: seq<Range>, z: seq<Range>, b: int, ack: bool)
    requires Upto(x, w.start) && From(y, End(w)) && r0.start == w.start < End(w) <= End(r0) && From(z, End(r0))
    ensures (Has(x + [r0] + z, b, ack)
             <==> if b < End(r0) then Has(x, b, ack) || (w.start <= b && r0.ack == ack) else Has(z, b, ack))
    ensures End(r0) <= b ==> (Has(x + [w] + y, b, ack) <==> Has(y, b, ack))
    ensures b < w.start ==> (Has(x + [w] + y, b, ack) <==> Has(x, b, ack))
    ensures w.start <= b < End(w) ==> (Has(x + [w] + y, b, ack) <==> w.ack == ack)
    ensures w.start <= b ==> !Has(x, b, ack)
  {
    HasAppend(x + [r0], z, b, ack);
    HasAppend(x, [r0], b, ack);
    HasOne(r0, b, ack);
    HasAppend(x + [w], y, b, ack);
    HasAppend(x, [w], b, ack);
    HasOne(w, b, ack);
    if b < End(r0) {
      NotAbove(z, End(r0), b, ack);
    }
    if b < End(w) {
      NotAbove(y, End(w), b, ack);
    }
    if w.start <= b {
      NotBelow(x, w.start, b, ack);
    }
  }

  lemma {:induction false} FullSides(x: seq<Range>, w: Range, r0: Range, y: seq<Range>, s: int, e: int, acked: bool,
                                     z: seq<Range>, t: seq<Range>, u: seq<Range>)
    requires Sorted(u) && Sorted(z) && r0.start == w.start <= s <= End(r0) < e && r0.start < End(r0)
    requires (forall b: int, ack: bool :: Has(u, b, ack)
                <==> if b < End(r0) then Has(x, b, ack) || (w.start <= b && r0.ack == ack) else Has(z, b, ack))
    requires forall b: int, ack: bool :: End(r0) <= b ==> (Has(t, b, ack) <==> Has(y, b, ack))
    requires forall b: int, ack: bool :: b < w.start ==> (Has(t, b, ack) <==> Has(x, b, ack))
    requires forall b: int, ack: bool :: w.start <= b < s ==> (Has(t, b, ack) <==> w.ack == ack)
    requires forall b: int, ack: bool :: w.start <= b ==> !Has(x, b, ack)
    ensures (UnionOk(t, s, e, acked, u) <==> FullAckOk(w, s, acked, r0) && SuffixOk(y, End(r0), s, e, acked, z))
  {
    var m := End(r0);
    if UnionOk(t, s, e, acked, u) {
      assert r0.ack && s < m ==> Has(u, s, true);
      assert r0.ack && w.start < s ==> Has(u, w.start, true);
      forall b: int | m <= b
        ensures Bad(z, b) <==> Bad(y, b) || s <= b < e
        ensures Has(z, b, true) ==> if s <= b < e then acked else Has(y, b, true)
      {
        assert Bad(u, b) <==> Bad(t, b) || s <= b < e;
      }
    }
    if FullAckOk(w, s, acked, r0) && SuffixOk(y, m, s, e, acked, z) {
      forall b: int
        ensures Bad(u, b) <==> Bad(t, b) || s <= b < e
        ensures Has(u, b, true) ==> if s <= b < e then acked else Has(t, b, true)
      {
        assert m <= b ==> (Bad(z, b) <==> Bad(y, b) || s <= b < e);
      }
    }
  }

  // ---- the three ways to go on after `m`

  /** A new range of its own. */
  lemma {:induction false} NewRange(y: seq<Range>, m: int, s: int, e: int, acked: bool)
    requires Sorted(y) && (|y| > 0 ==> e < y[0].start) && 0 <= m && s <= m < e <= m + MAX_LEN
    ensures SuffixOk(y, m, s, e, acked, [Range(m, e - m, acked)] + y)
  {
    var g := Range(m, e - m, acked);
    ApartCase([], g, y);
    assert [] + [g] + y == [g] + y;
    assert !Has([], m, true) && !Has([], m, false);
  }

  /** The next range grown down to `m`. */
  lemma {:induction false} HighExact(y: seq<Range>, m: int, s: int, e: int, acked: bool)
    requires Sorted(y) && |y| > 0 && 0 <= m && s <= m < e && y[0].start <= e
    requires HighRange(y[0], m, e, acked).len <= MAX_LEN
    ensures (SuffixOk(y, m, s, e, acked, Joined([], HighRange(y[0], m, e, acked), y[1..]))
             <==> JoinCond(HighRange(y[0], m, e, acked), y[1..], acked))
  {
    FirstOf(y);
    JoinExact(y[0], m, s, e, acked, HighRange(y[0], m, e, acked), y[1..]);
  }

  /** The next range made full from `m`, and one more for the rest. */
  lemma {:induction false} HighTwo(y: seq<Range>, m: int, s: int, e: int, acked: bool, f: Range, g: Range)
    requires Sorted(y) && |y| > 0 && 0 <= m && s <= m < e && y[0].start <= e
    requires var r := HighRange(y[0], m, e, acked);
             && MAX_LEN < r.len <= 2 * MAX_LEN && f == r.(len := MAX_LEN) && g == Range(End(f), r.len - MAX_LEN, acked)
    ensures (SuffixOk(y, m, s, e, acked, [f] + [g] + y[1..])
             <==> (|y| > 1 ==> End(g) <= y[1].start) && (acked && e < End(y[0]) ==> y[0].ack))
  {
    var y0, y1 := y[0], y[1..];
    var z := [f] + [g] + y1;
    FirstOf(y);
    if |y| > 1 && y[1].start < End(g) {
      assert z[1] == g && z[2] == y[1];
    } else {
      TwoSorted(f, g, y1);
      forall b: int, ack: bool | m <= b
        ensures (Has(z, b, ack)
                 <==> (b < End(f) && f.ack == ack) || (End(f) <= b < End(g) && g.ack == ack) || Has(y1, b, ack))
        ensures Has(y, b, ack) <==> (Covers(y0, b) && y0.ack == ack) || Has(y1, b, ack)
        ensures b < End(g) ==> !Has(y1, b, ack)
      {
        HasAppend([f] + [g], y1, b, ack);
        HasAppend([f], [g], b, ack);
        HasOne(f, b, ack);
        HasOne(g, b, ack);
        HasCons(y0, y1, b, ack);
        if b < End(g) && |y1| > 0 {
          FromFirst(y1, End(g));
          NotAbove(y1, End(g), b, ack);
        }
      }
      TwoDecides(y0, y1, y, m, s, e, acked, f, g, z);
    }
  }

  lemma {:induction false} TwoSorted(f: Range, g: Range, y1: seq<Range>)
    requires RangeOk(f) && RangeOk(g) && g.start == End(f) && Sorted(y1) && (|y1| > 0 ==> End(g) <= y1[0].start)
    ensures Sorted([f] + [g] + y1)
  {
    SortedAppend([f], [g], End(f));
    if |y1| > 0 {
      FromFirst(y1, End(g));
    }
    assert Upto([f] + [g], End(g));
    SortedAppend([f] + [g], y1, End(g));
  }

  lemma {:induction false} TwoDecides(y0: Range, y1: seq<Range>, y: seq<Range>, m: int, s: int, e: int, acked: bool,
                                      f: Range, g: Range, z: seq<Range>)
    requires Sorted(z) && RangeOk(y0) && y0.start <= e && s <= m < e && End(g) == Max(End(y0), e) && g.ack == acked
    requires f.ack == (if End(y0) <= e then acked else y0.ack && acked) && End(f) == m + MAX_LEN < End(g)
    requires (forall b: int, ack: bool :: m <= b ==> (Has(z, b, ack)
                <==> (b < End(f) && f.ack == ack) || (End(f) <= b < End(g) && g.ack == ack) || Has(y1, b, ack)))
    requires forall b: int, ack: bool :: m <= b ==> (Has(y, b, ack) <==> (Covers(y0, b) && y0.ack == ack) || Has(y1, b, ack))
    requires forall b: int, ack: bool :: m <= b < End(g) ==> !Has(y1, b, ack)
    ensures SuffixOk(y, m, s, e, acked, z) <==> (acked && e < End(y0) ==> y0.ack)
  {
    if SuffixOk(y, m, s, e, acked, z) && acked && e < End(y0) {
      assert Has(z, End(y0) - 1, true);
    }
    if acked && e < End(y0) ==> y0.ack {
      forall b: int | m <= b
        ensures Bad(z, b) <==> Bad(y, b) || s <= b < e
        ensures Has(z, b, true) ==> if s <= b < e then acked else Has(y, b, true)
      {
      }
    }
  }

  // ---- what the code does after `m`

  /** The steps of badblocks_set after the merge from below, on a table that is `p` up to `m` and `y` after. */
  ghost function Tail(p: seq<Range>, y: seq<Range>, lo: nat, m: int, e: int, acked: bool): (seq<Range>, bool)
    requires lo <= |p| && m <= e
  {
    Finish(Work(p + y, lo, |p|, m, e - m), acked)
  }

  ghost predicate NoneNext(y: seq<Range>, e: int) { |y| == 0 || y[0].start > e }

  /** The suffix they leave when there is room for it. */
  ghost function TailSuffix(y: seq<Range>, m: int, e: int, acked: bool): seq<Range> {
    if NoneNext(y, e) then [Range(m, e - m, acked)] + y
    else
      var r := HighRange(y[0], m, e, acked);
      if r.len <= MAX_LEN then Joined([], r, y[1..])
      else [r.(len := MAX_LEN)] + [Range(m + MAX_LEN, r.len - MAX_LEN, acked)] + y[1..]
  }

  /** More ranges than the code can insert in order. */
  ghost predicate TooLong(y: seq<Range>, m: int, e: int) {
    if NoneNext(y, e) then e - m > MAX_LEN else HighRange(y[0], m, e, true).len > 2 * MAX_LEN
  }

  /** The inserts of a request that is too long leave a longer table or one out of order. */
  ghost predicate Spoilt(t: seq<Range>, r: (seq<Range>, bool)) { if r.1 then |r.0| > |t| else !Sorted(r.0) }

  lemma {:induction false} InsertOne(p: seq<Range>, y: seq<Range>, lo: nat, hi: nat, m: int, n: nat, acked: bool)
    requires hi == |p| && lo <= hi && 0 < n
    ensures var r := InsertAll(Work(p + y, lo, hi, m, n), acked);
            if |p + y| >= MAX_BADBLOCKS then r == (p + y, true)
            else if n <= MAX_LEN then r == (p + [Range(m, n, acked)] + y, false)
            else Spoilt(p + y, r)
  {
    var w := Work(p + y, lo, hi, m, n);
    assert (p + y)[..hi] == p && (p + y)[hi..] == y;
    if |p + y| < MAX_BADBLOCKS {
      if n <= MAX_LEN {
        var u := p + [Range(m, n, acked)] + y;
        assert InsertAll(Work(u, lo, hi, m + n, 0), acked) == (u, false);
      } else {
        SetLong(w, acked);
      }
    }
  }

  lemma {:induction false} TailNone(p: seq<Range>, y: seq<Range>, lo: nat, m: int, e: int, acked: bool)
    requires lo <= |p| && m < e && NoneNext(y, e)
    ensures var r := Tail(p, y, lo, m, e, acked);
            if |p + y| >= MAX_BADBLOCKS then r == (p + y, true)
            else if e - m <= MAX_LEN then r == (p + TailSuffix(y, m, e, acked), false)
            else Spoilt(p + y, r)
  {
    var w := Work(p + y, lo, |p|, m, e - m);
    assert |y| > 0 ==> (p + y)[|p|] == y[0];
    assert MergeHigh(w, acked) == w;
    InsertOne(p, y, lo, |p|, m, e - m, acked);
    assert p + [Range(m, e - m, acked)] + y == p + ([Range(m, e - m, acked)] + y);
  }

  lemma {:induction false} TailHigh(p: seq<Range>, y: seq<Range>, lo: nat, m: int, e: int, acked: bool)
    requires lo <= |p| && m < e && !NoneNext(y, e) && HighRange(y[0], m, e, acked).len <= MAX_LEN
    ensures Tail(p, y, lo, m, e, acked) == (p + TailSuffix(y, m, e, acked), false)
  {
    var t, k, r := p + y, |p|, HighRange(y[0], m, e, acked);
    assert t[k] == y[0] && t[..k] == p && t[k + 1..] == y[1..];
    assert MergeHigh(Work(t, lo, k, m, e - m), acked) == Work(t[k := r], k, k + 1, End(r), 0);
    CombineIs(t, k, r, acked);
    JoinedShift(p, r, y[1..]);
  }

  lemma {:induction false} JoinedShift(p: seq<Range>, r: Range, y: seq<Range>)
    ensures Joined(p, r, y) == p + Joined([], r, y)
  {
    if |y| > 0 && End(r) >= y[0].start && End(y[0]) - r.start < MAX_LEN {
      var c := Range(r.start, End(y[0]) - r.start, r.ack && y[0].ack);
      assert p + [c] + y[1..] == p + ([] + [c] + y[1..]);
    } else {
      assert p + [r] + y == p + ([] + [r] + y);
    }
  }

  lemma {:induction false} TailTwoStarts(p: seq<Range>, y: seq<Range>, lo: nat, m: int, e: int, acked: bool, h: Range)
    requires lo <= |p| && m < e && !NoneNext(y, e) && h == HighRange(y[0], m, e, acked) && h.len > MAX_LEN
    ensures (MergeHigh(Work(p + y, lo, |p|, m, e - m), acked)
             == Work((p + [h.(len := MAX_LEN)]) + y[1..], |p|, |p| + 1, m + MAX_LEN, h.len - MAX_LEN))
  {
    var t, k := p + y, |p|;
    assert t[k] == y[0] && t[k := h.(len := MAX_LEN)] == (p + [h.(len := MAX_LEN)]) + y[1..];
  }

  lemma {:induction false} TailTwo(p: seq<Range>, y: seq<Range>, lo: nat, m: int, e: int, acked: bool, h: Range)
    requires lo <= |p| && m < e && !NoneNext(y, e) && h == HighRange(y[0], m, e, acked) && h.len > MAX_LEN
    ensures var r := Tail(p, y, lo, m, e, acked);
            if |p + y| >= MAX_BADBLOCKS then r == (p + [h.(len := MAX_LEN)] + y[1..], true)
            else if h.len <= 2 * MAX_LEN then r == (p + TailSuffix(y, m, e, acked), false)
            else Spoilt(p + y, r)
  {
    var f, n, k := h.(len := MAX_LEN), h.len - MAX_LEN, |p|;
    TailTwoStarts(p, y, lo, m, e, acked, h);
    var w := Work((p + [f]) + y[1..], k, k + 1, m + MAX_LEN, n);
    assert Combine(w) == w;
    InsertOne(p + [f], y[1..], k, k + 1, m + MAX_LEN, n, acked);
    assert (p + [f]) + [Range(m + MAX_LEN, n, acked)] + y[1..] == p + ([f] + [Range(m + MAX_LEN, n, acked)] + y[1..]);
  }

  /** The outcome of those steps, case by case. */
  ghost predicate TailIs(p: seq<Range>, y: seq<Range>, m: int, e: int, acked: bool, r: (seq<Range>, bool)) {
    if NoneNext(y, e) then
      if |p + y| >= MAX_BADBLOCKS then r == (p + y, true)
      else if e - m <= MAX_LEN then r == (p + TailSuffix(y, m, e, acked), false)
      else Spoilt(p + y, r)
    else
      var h := HighRange(y[0], m, e, acked);
      if h.len <= MAX_LEN then r == (p + TailSuffix(y, m, e, acked), false)
      else if |p + y| >= MAX_BADBLOCKS then r == (p + [h.(len := MAX_LEN)] + y[1..], true)
      else if h.len <= 2 * MAX_LEN then r == (p + TailSuffix(y, m, e, acked), false)
      else Spoilt(p + y, r)
  }

  lemma {:induction false} TailCases(p: seq<Range>, y: seq<Range>, lo: nat, m: int, e: int, acked: bool)
    requires lo <= |p| && m < e
    ensures TailIs(p, y, m, e, acked, Tail(p, y, lo, m, e, acked))
  {
    if NoneNext(y, e) {
      TailNone(p, y, lo, m, e, acked);
    } else if HighRange(y[0], m, e, acked).len <= MAX_LEN {
      TailHigh(p, y, lo, m, e, acked);
    } else {
      TailTwo(p, y, lo, m, e, acked, HighRange(y[0], m, e, acked));
    }
  }

  // ---- the verdict on a suffix

  lemma {:induction false} SuffixExact(y: seq<Range>, m: int, s: int, e: int, acked: bool)
    requires Sorted(y) && 0 <= m && s <= m < e && !TooLong(y, m, e)
    ensures (SuffixOk(y, m, s, e, acked, TailSuffix(y, m, e, acked))
             <==> (NoneNext(y, e) || TailCond(0, y, m, e, acked, true)))
  {
    if NoneNext(y, e) {
      NewRange(y, m, s, e, acked);
    } else {
      var r := HighRange(y[0], m, e, acked);
      if r.len <= MAX_LEN {
        HighExact(y, m, s, e, acked);
      } else {
        var f := r.(len := MAX_LEN);
        HighTwo(y, m, s, e, acked, f, Range(m + MAX_LEN, r.len - MAX_LEN, acked));
      }
    }
  }

  /**
   * If the table up to `m` was `q` and is `p`, and the union is right exactly when `fine` holds and
   * the suffix is right, then `TailCond` decides the rest.
   */
  lemma {:induction false} TailDecides(q: seq<Range>, p: seq<Range>, y: seq<Range>, m: int, s: int, e: int, acked: bool,
                                       fine: bool, r: (seq<Range>, bool))
    requires |q| == |p| && Sorted(y) && 0 <= m && s <= m < e && TailIs(p, y, m, e, acked, r)
    requires (UnionOk(q + y, s, e, acked, p + TailSuffix(y, m, e, acked))
              <==> fine && SuffixOk(y, m, s, e, acked, TailSuffix(y, m, e, acked)))
    ensures (Right(q + y, s, e, acked, r)
             <==> TailCond(|q + y|, y, m, e, acked, p == q) && (TailFails(|q + y|, y, m, e) || fine))
  {
    if !TooLong(y, m, e) {
      SuffixExact(y, m, s, e, acked);
    }
    if NoneNext(y, e) {
      Prefixes(p, q, y, y);
    } else {
      var f := HighRange(y[0], m, e, acked).(len := MAX_LEN);
      assert p + [f] + y[1..] == p + ([f] + y[1..]);
      Prefixes(p, q, [f] + y[1..], y);
      assert [f] + y[1..] == y <==> f == y[0];
    }
  }

  lemma {:induction false} Prefixes(p: seq<Range>, q: seq<Range>, a: seq<Range>, b: seq<Range>)
    requires |p| == |q|
    ensures p + a == q + b <==> p == q && a == b
  {
    if p + a == q + b {
      assert p == (p + a)[..|p|] && a == (p + a)[|p|..];
      assert q == (q + b)[..|q|] && b == (q + b)[|q|..];
    }
  }

  // ---- the whole call

  lemma {:induction false} WithoutLowStarts(t: seq<Range>, s: int, n: nat, acked: bool, k: nat)
    requires k == Below(t, s + 1) && (k > 0 ==> End(t[k - 1]) < s)
    ensures MergeLow(Start(t, s, n), acked) == Work(t, if k == 0 then 0 else k - 1, k, s, n)
  {
  }

  lemma {:induction false} FinishIsTail(t: seq<Range>, s: int, n: nat, acked: bool, x: seq<Range>, y: seq<Range>, w: Work,
                                        r: (seq<Range>, bool))
    requires WorkOk(w) && w == Work(t, if |x| == 0 then 0 else |x| - 1, |x|, s, n) && t == x + y && n > 0
    requires r == Finish(w, acked)
    ensures TailIs(x, y, s, s + n, acked, r)
  {
    TailCases(x, y, if |x| == 0 then 0 else |x| - 1, s, s + n, acked);
  }

  lemma {:induction false} WithoutLowIs(t: seq<Range>, s: int, n: nat, acked: bool, x: seq<Range>, y: seq<Range>,
                                        r: (seq<Range>, bool))
    requires t == x + y && |x| == Below(t, s + 1) && n > 0 && (|x| > 0 ==> End(t[|x| - 1]) < s)
    requires r == SetTable(t, s, n, acked)
    ensures TailIs(x, y, s, s + n, acked, r)
  {
    WithoutLowStarts(t, s, n, acked, |x|);
    FinishIsTail(t, s, n, acked, x, y, MergeLow(Start(t, s, n), acked), r);
  }

  lemma {:induction false} WithoutLowDecides(count: nat, x: seq<Range>, y: seq<Range>, s: int, e: int, acked: bool,
                                             r: (seq<Range>, bool))
    requires count == |x| + |y|
    requires Sorted(x) && Upto(x, s) && Sorted(y) && From(y, s) && 0 <= s < e && TailIs(x, y, s, e, acked, r)
    ensures Right(x + y, s, e, acked, r) <==> TailCond(count, y, s, e, acked, true)
  {
    SuffixStarts(y, s, e, acked);
    SuffixDecides(x, y, s, s, e, acked, TailSuffix(y, s, e, acked));
    TailDecides(x, x, y, s, s, e, acked, true, r);
  }

  lemma {:induction false} SuffixStarts(y: seq<Range>, m: int, e: int, acked: bool)
    ensures |TailSuffix(y, m, e, acked)| > 0 && TailSuffix(y, m, e, acked)[0].start == m
  {
  }

  lemma {:induction false} SplitTable(t: seq<Range>, k: nat)
    requires Sorted(t) && k <= |t|
    ensures Sorted(t[..k]) && Sorted(t[k..]) && t == t[..k] + t[k..]
  {
    SortedPart(t, 0, k);
    SortedPart(t, k, |t|);
    assert t[k..|t|] == t[k..];
  }

  lemma {:induction false} UptoLast(x: seq<Range>, m: int)
    requires Sorted(x) && (|x| > 0 ==> End(x[|x| - 1]) <= m)
    ensures Upto(x, m)
  {
    if |x| > 0 {
      KeepAll(x, m);
    }
  }

  lemma {:induction false} FromLess(y: seq<Range>, m: int, n: int)
    requires From(y, m) && n <= m
    ensures From(y, n)
  {
  }

  lemma {:induction false} BelowParts(t: seq<Range>, s: int, k: nat)
    requires Sorted(t) && k == Below(t, s + 1) && (k > 0 ==> End(t[k - 1]) < s)
    ensures Sorted(t[..k]) && Upto(t[..k], s) && Sorted(t[k..]) && From(t[k..], s) && t == t[..k] + t[k..]
  {
    BelowEdge(t, s + 1);
    SplitTable(t, k);
    UptoLast(t[..k], s);
    FromLess(t[k..], s + 1, s);
  }

  lemma {:induction false} InLowDecides(x: seq<Range>, w: Range, y: seq<Range>, s: int, e: int, acked: bool, r: Range)
    requires Sorted(x) && Upto(x, w.start) && RangeOk(w) && Sorted(y) && From(y, End(w))
    requires w.start <= s <= End(w) && s <= e && r == LowRange(w, s, e, acked) && r.len <= MAX_LEN
    ensures UnionOk(x + [w] + y, s, e, acked, Joined(x, r, y)) <==> JoinCond(r, y, acked)
  {
    var m := w.start;
    JoinedShift(x, r, y);
    JoinExact(w, m, s, e, acked, r, y);
    ConsFrom(w, y);
    assert x + [w] + y == x + ([w] + y);
    SuffixDecides(x, [w] + y, m, s, e, acked, Joined([], r, y));
  }

  lemma {:induction false} ConsFrom(w: Range, y: seq<Range>)
    requires RangeOk(w) && From(y, End(w))
    ensures From([w] + y, w.start)
  {
  }

  /** What the code makes of a range below that cannot take the whole request. */
  ghost function FullRange(w: Range, s: int, e: int, acked: bool): Range {
    if w.len == MAX_LEN then w else LowRange(w, s, e, acked).(len := MAX_LEN)
  }

  lemma {:induction false} FullLowStarts(t: seq<Range>, s: int, n: nat, acked: bool, i: nat)
    requires i < |t| && Below(t, s + 1) == i + 1 && End(t[i]) >= s && LowRange(t[i], s, s + n, acked).len > MAX_LEN
    requires RangeOk(t[i])
    ensures (MergeLow(Start(t, s, n), acked)
             == Work((t[..i] + [FullRange(t[i], s, s + n, acked)]) + t[i + 1..], i, i + 1, t[i].start + MAX_LEN,
                     s + n - (t[i].start + MAX_LEN)))
  {
    var r0 := FullRange(t[i], s, s + n, acked);
    assert t[i := r0] == (t[..i] + [r0]) + t[i + 1..];
  }

  lemma {:induction false} FullLowIs(t: seq<Range>, s: int, n: nat, acked: bool, i: nat)
    requires i < |t| && Below(t, s + 1) == i + 1 && End(t[i]) >= s && LowRange(t[i], s, s + n, acked).len > MAX_LEN
    requires RangeOk(t[i])
    ensures TailIs(t[..i] + [FullRange(t[i], s, s + n, acked)], t[i + 1..], t[i].start + MAX_LEN, s + n, acked,
                   SetTable(t, s, n, acked))
  {
    FullLowStarts(t, s, n, acked, i);
    TailCases(t[..i] + [FullRange(t[i], s, s + n, acked)], t[i + 1..], i, t[i].start + MAX_LEN, s + n, acked);
  }

  lemma {:induction false} FullLowDecides(x: seq<Range>, w: Range, y: seq<Range>, s: int, e: int, acked: bool,
                                          r: (seq<Range>, bool))
    requires Sorted(x) && Upto(x, w.start) && RangeOk(w) && Sorted(y) && From(y, End(w))
    requires w.start <= s <= End(w) && w.start + MAX_LEN < e
    requires TailIs(x + [FullRange(w, s, e, acked)], y, w.start + MAX_LEN, e, acked, r)
    ensures Right(x + [w] + y, s, e, acked, r)
            <==> (&& TailCond(|x + [w] + y|, y, w.start + MAX_LEN, e, acked, w.len == MAX_LEN)
                  && (TailFails(|x + [w] + y|, y, w.start + MAX_LEN, e) || !KeepsStaleAck(w, s, acked)))
  {
    var m, r0 := w.start + MAX_LEN, FullRange(w, s, e, acked);
    var z := TailSuffix(y, m, e, acked);
    SuffixStarts(y, m, e, acked);
    FullDecides(x, w, r0, y, s, e, acked, z);
    assert FullAckOk(w, s, acked, r0) <==> !KeepsStaleAck(w, s, acked);
    Prefixes(x, x, [r0], [w]);
    assert [r0] == [w] <==> r0 == w by { assert [r0][0] == r0 && [w][0] == w; }
    TailDecides(x + [w], x + [r0], y, m, s, e, acked, FullAckOk(w, s, acked, r0), r);
  }

  // ---- putting it together

  /** What badblocks_set returns if it touches the range `w` between `x` and `y`. */
  ghost predicate LowOutcome(x: seq<Range>, w: Range, y: seq<Range>, s: int, e: int, acked: bool, r: (seq<Range>, bool)) {
    if LowRange(w, s, e, acked).len <= MAX_LEN then r == (Joined(x, LowRange(w, s, e, acked), y), false)
    else TailIs(x + [FullRange(w, s, e, acked)], y, w.start + MAX_LEN, e, acked, r)
  }

  lemma {:induction false} LowOutcomeIs(t: seq<Range>, s: int, n: nat, acked: bool, i: nat)
    requires i < |t| && Below(t, s + 1) == i + 1 && End(t[i]) >= s && RangeOk(t[i])
    ensures LowOutcome(t[..i], t[i], t[i + 1..], s, s + n, acked, SetTable(t, s, n, acked))
  {
    if LowRange(t[i], s, s + n, acked).len <= MAX_LEN {
      SetLowIs(t, s, n, acked, LowRange(t[i], s, s + n, acked));
    } else {
      FullLowIs(t, s, n, acked, i);
    }
  }

  lemma {:induction false} LowOutcomeDecides(count: nat, x: seq<Range>, w: Range, y: seq<Range>, s: int, e: int,
                                             acked: bool, r: (seq<Range>, bool))
    requires count == |x| + 1 + |y| && LowOutcome(x, w, y, s, e, acked, r) && w.start <= s <= End(w) && s <= e
    requires Sorted(x) && Upto(x, w.start) && RangeOk(w) && Sorted(y) && From(y, End(w))
    ensures Right(x + [w] + y, s, e, acked, r) <==> LowCond(count, w, y, s, e, acked)
  {
    if LowRange(w, s, e, acked).len <= MAX_LEN {
      InLowDecides(x, w, y, s, e, acked, LowRange(w, s, e, acked));
    } else {
      FullLowDecides(x, w, y, s, e, acked, r);
    }
  }

  lemma {:induction false} EmptyIs(t: seq<Range>, s: int, acked: bool)
    requires Sorted(t) && (Below(t, s + 1) > 0 ==> End(t[Below(t, s + 1) - 1]) < s)
    ensures SetTable(t, s, 0, acked) == (t, false) && Right(t, s, s, acked, (t, false))
  {
    BelowEdge(t, s + 1);
    var w := Start(t, s, 0);
    assert MergeLow(w, acked) == w;
    assert MergeHigh(w, acked) == w;
    assert Combine(w) == w;
  }
}
