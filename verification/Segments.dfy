/**
 * Physical segments (block/blk-merge.c, block/blk.h).
 *
 * A bio_vec and a scatterlist entry are both a run of bytes given by a page, an offset and a
 * length. Their meaning is the sequence of physical byte addresses they cover. A boundary mask of
 * 2^k - 1 is written as the window 2^k, so `mask & x` is `x % window`; a virtual boundary of one
 * byte stands for "no virtual boundary".
 */
module Segments {

  datatype Extent = Extent(page: nat, off: nat, len: nat)

  datatype Limits = Limits(page: nat, maxSize: nat, window: nat, virt: nat)

  /** What blk_queue_max_segment_size and blk_queue_segment_boundary enforce. */
  ghost predicate Sane(q: Limits) {
    q.page > 0 && q.window > 0 && q.window % q.page == 0 && q.maxSize >= q.page && q.virt > 0
  }

  /** A vector as bio_for_each_bvec yields it: never empty, on a page boundary. */
  ghost predicate VecOk(q: Limits, v: Extent) {
    q.page > 0 && v.len > 0 && v.page % q.page == 0
  }

  function Addr(v: Extent): (a: nat) { v.page + v.off }

  function Min(a: nat, b: nat): (m: nat)
    ensures m <= a && m <= b && (m == a || m == b)
  {
    if a < b then a else b
  }

  /** The bytes a list of extents covers, in order. */
  ghost function Span(a: nat, n: nat): seq<nat> { seq(n, i requires 0 <= i => a + i) }

  ghost function Bytes(vs: seq<Extent>): seq<nat> {
    if |vs| == 0 then []
    else Bytes(vs[..|vs| - 1]) + Span(Addr(vs[|vs| - 1]), vs[|vs| - 1].len)
  }

  ghost function Length(vs: seq<Extent>): nat {
    if |vs| == 0 then 0 else Length(vs[..|vs| - 1]) + vs[|vs| - 1].len
  }

  /** get_max_segment_size: how far a segment starting at `a` may reach. */
  function SegSize(q: Limits, a: nat): (r: nat)
    requires q.window > 0
  {
    Min(q.window - a % q.window, q.maxSize)
  }

  /** The number of segments that `n` bytes at `a` need when each is as long as allowed. */
  ghost function Pieces(q: Limits, a: nat, n: nat): (c: nat)
    requires Sane(q)
    ensures c <= n && (c == 0 <==> n == 0)
    decreases n
  {
    if n == 0 then 0
    else var m := Min(SegSize(q, a), n); 1 + Pieces(q, a + m, n - m)
  }

  /** No segment boundary strictly inside the `n` bytes at offset `off` leaves a gap. */
  ghost predicate InnerOk(q: Limits, off: nat, a: nat, n: nat)
    requires Sane(q)
    decreases n
  {
    var m := Min(SegSize(q, a), n);
    m == n || ((off + m) % q.virt == 0 && InnerOk(q, off + m, a + m, n - m))
  }

  /** `t` bytes on from `a` is the end of a segment that is as long as allowed. */
  ghost predicate OnCut(q: Limits, a: nat, t: nat)
    requires Sane(q)
    decreases t
  {
    t == 0 || (SegSize(q, a) <= t && OnCut(q, a + SegSize(q, a), t - SegSize(q, a)))
  }

  /** The segments of a list of vectors, none of them joined. */
  ghost function SegmentCount(q: Limits, vs: seq<Extent>): nat
    requires Sane(q)
  {
    if |vs| == 0 then 0
    else SegmentCount(q, vs[..|vs| - 1]) + Pieces(q, Addr(vs[|vs| - 1]), vs[|vs| - 1].len)
  }

  /** A scatterlist entry a driver can take: in bounds, inside one window, offset inside the page. */
  ghost predicate EntryOk(q: Limits, e: Extent) {
    && q.window > 0
    && 0 < e.len <= q.maxSize
    && Addr(e) / q.window == (Addr(e) + e.len - 1) / q.window
    && e.off < q.page
  }

  // ---- arithmetic on windows

  lemma {:induction false} DivBetween(a: nat, b: nat, c: nat, w: nat)
    requires w > 0 && a <= b <= c && a / w == c / w
    ensures b / w == a / w
  {
    var z := a / w;
    DivIs(a, z, w);
    DivIs(c, z, w);
    Quotient(b, z, w);
  }

  lemma {:induction false} DivIs(x: nat, z: nat, w: nat)
    requires w > 0 && z == x / w
    ensures z * w <= x < (z + 1) * w
  {
    DivBounds(x, w);
  }

  lemma {:induction false} DivBounds(x: nat, w: nat)
    requires w > 0
    ensures x / w * w <= x < (x / w + 1) * w
  {
    assert x == x / w * w + x % w;
  }

  lemma {:induction false} Quotient(x: nat, q: nat, w: nat)
    requires w > 0 && q * w <= x < (q + 1) * w
    ensures x / w == q && x % w == x - q * w
  {
    var p := x / w;
    assert x == p * w + x % w;
    if p < q {
      Scale(p + 1, q, w);
    } else if p > q {
      Scale(q + 1, p, w);
    }
  }

  /** Bytes that do not reach past the end of their window share it. */
  lemma {:induction false} SameWindow(a: nat, n: nat, w: nat)
    requires w > 0 && 0 < n <= w - a % w
    ensures a / w == (a + n - 1) / w
  {
    assert a == a / w * w + a % w;
    Quotient(a + n - 1, a / w, w);
  }

  /** A run inside one page is inside one window. */
  lemma {:induction false} PageInWindow(q: Limits, v: Extent)
    requires Sane(q) && VecOk(q, v) && v.off + v.len <= q.page
    ensures v.len <= SegSize(q, Addr(v))
  {
    Exact(q.window, q.page);
    Exact(v.page, q.page);
    PageFits(q.page, q.window / q.page, v.page / q.page, v.off, v.len, q.window, Addr(v));
  }

  lemma {:induction false} Exact(x: nat, p: nat)
    requires p > 0 && x % p == 0
    ensures x == x / p * p && 0 <= x / p && (x > 0 ==> x / p > 0)
  {
    DivBounds(x, p);
    assert x == x / p * p + x % p;
  }

  lemma {:induction false} PageFits(p: nat, k: nat, j: nat, off: nat, len: nat, w: nat, a: nat)
    requires p > 0 && k > 0 && 0 < len && off + len <= p && w == k * p && a == j * p + off
    ensures a % w + len <= w
  {
    assert j == j / k * k + j % k;
    PageEndsInWindow(p, k, j / k, j % k, off, len, w, a);
  }

  lemma {:induction false} PageEndsInWindow(p: nat, k: nat, z: nat, r: nat, off: nat, len: nat, w: nat, a: nat)
    requires p > 0 && k > 0 && r < k && 0 < len && off + len <= p && w == k * p && a == (z * k + r) * p + off
    ensures a % w + len <= w
  {
    PageRemainder(p, k, z, r, off);
    Scale(r + 1, k, p);
    assert (r + 1) * p == r * p + p;
  }

  lemma {:induction false} Scale(a: nat, b: nat, c: nat)
    requires a <= b
    ensures a * c <= b * c
  {
  }

  /** A byte address as windows, pages and an offset. */
  lemma {:induction false} Parts(x: nat, j: nat, p: nat, k: nat)
    requires p > 0 && k > 0 && j == x / p
    ensures 0 <= j / k && 0 <= j % k < k && 0 <= x % p < p
    ensures x == (j / k * k + j % k) * p + x % p
  {
    assert x == x / p * p + x % p;
    assert j == j / k * k + j % k;
  }

  lemma {:induction false} PageRemainder(p: nat, k: nat, z: nat, r: nat, off: nat)
    requires p > 0 && k > 0 && r < k && off < p
    ensures ((z * k + r) * p + off) % (k * p) == r * p + off
  {
    Scale(r + 1, k, p);
    assert (z * k + r) * p + off == z * (k * p) + (r * p + off);
    assert (z + 1) * (k * p) == z * (k * p) + k * p;
    Quotient((z * k + r) * p + off, z, k * p);
  }

  /** One segment covers a run inside one page. */
  lemma {:induction false} PageIsOnePiece(q: Limits, v: Extent)
    requires Sane(q) && VecOk(q, v) && v.off + v.len <= q.page
    ensures Pieces(q, Addr(v), v.len) == 1
    ensures InnerOk(q, v.off, Addr(v), v.len)
  {
    PageInWindow(q, v);
    assert Pieces(q, Addr(v) + v.len, 0) == 0;
  }

  // ---- bytes

  lemma {:induction false} BytesSnoc(vs: seq<Extent>, v: Extent)
    ensures Bytes(vs + [v]) == Bytes(vs) + Span(Addr(v), v.len)
    ensures Length(vs + [v]) == Length(vs) + v.len
  {
    assert (vs + [v])[..|vs|] == vs;
  }

  lemma {:induction false} CountSnoc(q: Limits, vs: seq<Extent>, v: Extent)
    requires Sane(q)
    ensures SegmentCount(q, vs + [v]) == SegmentCount(q, vs) + Pieces(q, Addr(v), v.len)
  {
    assert (vs + [v])[..|vs|] == vs;
  }

  lemma {:induction false} Assoc(a: seq<nat>, b: seq<nat>, c: seq<nat>)
    ensures (a + b) + c == a + (b + c)
  {
  }

  lemma {:induction false} SpanSplit(a: nat, m: nat, n: nat)
    ensures Span(a, m) + Span(a + m, n) == Span(a, m + n)
  {
    assert |Span(a, m) + Span(a + m, n)| == m + n;
  }

  /** Growing the last entry by the bytes that follow it appends those bytes. */
  lemma {:induction false} BytesGrow(vs: seq<Extent>, n: nat)
    requires |vs| > 0
    ensures var last := vs[|vs| - 1];
            Bytes(vs[|vs| - 1 := last.(len := last.len + n)]) == Bytes(vs) + Span(Addr(last) + last.len, n)
  {
    var last := vs[|vs| - 1];
    var grown := vs[|vs| - 1 := last.(len := last.len + n)];
    assert grown[..|vs| - 1] == vs[..|vs| - 1];
    SpanSplit(Addr(last), last.len, n);
    assert Bytes(grown) == Bytes(vs[..|vs| - 1]) + (Span(Addr(last), last.len) + Span(Addr(last) + last.len, n));
  }

  // ---- greedy cutting

  /** The first segment, when there is enough for a full one. */
  lemma {:induction false} FullPiece(q: Limits, off: nat, a: nat, n: nat, s: nat)
    requires Sane(q) && s == SegSize(q, a) && 0 < n && s <= n
    ensures Pieces(q, a, n) == 1 + Pieces(q, a + s, n - s)
    ensures InnerOk(q, off, a, n) == (s == n || ((off + s) % q.virt == 0 && InnerOk(q, off + s, a + s, n - s)))
    ensures OnCut(q, a, n) == OnCut(q, a + s, n - s)
  {
  }

  /** `m` bytes at `b` follow the cut. */
  lemma {:induction false} CutCounts(q: Limits, a: nat, t: nat, b: nat, m: nat)
    requires Sane(q) && OnCut(q, a, t) && b == a + t
    ensures Pieces(q, a, t + m) == Pieces(q, a, t) + Pieces(q, b, m)
    decreases t
  {
    if t > 0 {
      var s := SegSize(q, a);
      CutCounts(q, a + s, t - s, b, m);
      assert (t - s) + m == t + m - s;
      FullPiece(q, 0, a, t, s);
      FullPiece(q, 0, a, t + m, s);
    }
  }

  lemma {:induction false} CutExtends(q: Limits, a: nat, t: nat, b: nat, m: nat)
    requires Sane(q) && OnCut(q, a, t) && b == a + t && m == SegSize(q, b)
    ensures OnCut(q, a, t + m)
    decreases t
  {
    if t == 0 {
      assert OnCut(q, a + m, 0);
    } else {
      var s := SegSize(q, a);
      FullPiece(q, 0, a, t, s);
      CutExtends(q, a + s, t - s, b, m);
      assert (t - s) + m == t + m - s;
      FullPiece(q, 0, a, t + m, s);
    }
  }

  lemma {:induction false} InnerExtends(q: Limits, off: nat, a: nat, t: nat, end: nat, b: nat, m: nat)
    requires Sane(q) && OnCut(q, a, t) && b == a + t && end == off + t && 0 < m <= SegSize(q, b)
    ensures InnerOk(q, off, a, t + m) == (InnerOk(q, off, a, t) && (t == 0 || end % q.virt == 0))
    decreases t
  {
    if t > 0 {
      var s := SegSize(q, a);
      FullPiece(q, off, a, t, s);
      InnerExtends(q, off + s, a + s, t - s, end, b, m);
      assert (t - s) + m == t + m - s;
      FullPiece(q, off, a, t + m, s);
    }
  }

  /** A further segment after a full cut is one more piece. */
  lemma {:induction false} CutStep(q: Limits, off: nat, a: nat, t: nat, m: nat)
    requires Sane(q) && OnCut(q, a, t) && 0 < m <= SegSize(q, a + t)
    ensures Pieces(q, a, t + m) == Pieces(q, a, t) + 1
    ensures m == SegSize(q, a + t) ==> OnCut(q, a, t + m)
    ensures InnerOk(q, off, a, t + m) == (InnerOk(q, off, a, t) && (t == 0 || (off + t) % q.virt == 0))
  {
    CutCounts(q, a, t, a + t, m);
    assert Pieces(q, a + t + m, 0) == 0;
    if m == SegSize(q, a + t) {
      CutExtends(q, a, t, a + t, m);
    }
    InnerExtends(q, off, a, t, off + t, a + t, m);
  }

  /** What follows a full cut is counted on its own, and the cut itself must leave no gap. */
  lemma {:induction false} CutRest(q: Limits, off: nat, a: nat, t: nat, n: nat)
    requires Sane(q) && OnCut(q, a, t) && t <= n
    ensures Pieces(q, a, n) == Pieces(q, a, t) + Pieces(q, a + t, n - t)
    ensures 0 < t < n && InnerOk(q, off, a, n) ==> (off + t) % q.virt == 0
  {
    CutCounts(q, a, t, a + t, n - t);
    if 0 < t < n && InnerOk(q, off, a, n) {
      CutLeavesNoGap(q, off, a, t, n);
    }
  }

  lemma {:induction false} CutLeavesNoGap(q: Limits, off: nat, a: nat, t: nat, n: nat)
    requires Sane(q) && OnCut(q, a, t) && 0 < t < n && InnerOk(q, off, a, n)
    ensures (off + t) % q.virt == 0
    decreases t
  {
    var s := SegSize(q, a);
    FullPiece(q, off, a, n, s);
    if s < t {
      FullPiece(q, off, a, t, s);
      CutLeavesNoGap(q, off + s, a + s, t - s, n - s);
      Shift(off, t, n, s);
    }
  }

  lemma {:induction false} Shift(a: nat, t: nat, n: nat, s: nat)
    requires s <= t <= n
    ensures (a + s) + (t - s) == a + t && (n - s) - (t - s) == n - t
  {
  }
}
