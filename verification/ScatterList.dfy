/**
 * Segment counting and scatterlist mapping (block/blk-merge.c). `MapBios` and
 * `RecalcRqSegments` are written separately in the source; their contracts meet in
 * `SegmentCount`.
 */
module ScatterList {
  import opened Segments

  /** UINT_MAX and UINT_MAX >> 9: the limits used when only counting. */
  const UINT_MAX: nat := 0xFFFF_FFFF
  const SECTOR_CAP: nat := 0x7F_FFFF

  /** The rest of `v` can be appended whole. */
  ghost predicate Appendable(q: Limits, v: Extent, nsegs: nat, sectors: nat, maxSegs: nat, maxSectors: nat)
    requires Sane(q)
  {
    && sectors <= Min(maxSectors, SECTOR_CAP)
    && v.len <= (Min(maxSectors, SECTOR_CAP) - sectors) * 512
    && nsegs + Pieces(q, Addr(v), v.len) <= maxSegs
    && InnerOk(q, v.off, Addr(v), v.len)
  }

  /**
   * bvec_split_segs: takes as many bytes of `v` as the limits allow. The answer is true exactly
   * when `v` cannot be appended whole; `taken` is the number of bytes that were.
   */
  method BvecSplitSegs(q: Limits, v: Extent, nsegs: nat, sectors: nat, maxSegs: nat, maxSectors: nat)
    returns (split: bool, segs: nat, secs: nat, ghost taken: nat)
    requires Sane(q)
    requires nsegs <= maxSegs && sectors <= Min(maxSectors, SECTOR_CAP)
    ensures split <==> !Appendable(q, v, nsegs, sectors, maxSegs, maxSectors)
    ensures taken <= v.len && (split ==> taken < v.len) && (!split ==> taken == v.len)
    ensures secs == sectors + taken / 512 && taken <= (Min(maxSectors, SECTOR_CAP) - sectors) * 512
    ensures segs == nsegs + Pieces(q, Addr(v), taken) && segs <= maxSegs
    ensures InnerOk(q, v.off, Addr(v), taken)
    ensures taken < v.len ==> taken == (Min(maxSectors, SECTOR_CAP) - sectors) * 512 || OnCut(q, Addr(v), taken)
    ensures v.len > 0 && nsegs < maxSegs && sectors < Min(maxSectors, SECTOR_CAP) ==> taken > 0
  {
    var maxLen := (Min(maxSectors, SECTOR_CAP) - sectors) * 512;
    var total, count, left := CutSegs(q, v, Min(v.len, maxLen), maxSegs - nsegs);
    segs := nsegs + count;
    secs := sectors + total / 512;
    split := left > 0 || v.len > maxLen;
    taken := total;
    SplitVerdict(q, v.off, Addr(v), v.len, total, left, count, maxSegs - nsegs, maxLen);
  }

  /** `total` bytes were cut off in `count` segments; the cut is full and leaves no gap unless `at` the end. */
  ghost predicate CutSoFar(q: Limits, v: Extent, len: nat, room: nat, total: nat, count: nat, left: nat)
    requires Sane(q)
  {
    && total + left == len && count == Pieces(q, Addr(v), total) && count <= room && InnerOk(q, v.off, Addr(v), total)
    && (left > 0 ==> OnCut(q, Addr(v), total))
  }

  ghost predicate NoGapAt(q: Limits, v: Extent, total: nat)
    requires Sane(q)
  {
    total == 0 || (v.off + total) % q.virt == 0
  }

  lemma {:induction false} CutOneMore(q: Limits, v: Extent, len: nat, room: nat, total: nat, count: nat, left: nat,
                                      segSize: nat)
    requires Sane(q) && CutSoFar(q, v, len, room, total, count, left) && NoGapAt(q, v, total)
    requires left > 0 && count < room && segSize == Min(SegSize(q, Addr(v) + total), left)
    ensures 0 < segSize && CutSoFar(q, v, len, room, total + segSize, count + 1, left - segSize)
  {
    CutStep(q, v.off, Addr(v), total, segSize);
  }

  /** The loop of bvec_split_segs over `len` bytes of `v`, with room for `room` more segments. */
  method CutSegs(q: Limits, v: Extent, len: nat, room: nat) returns (total: nat, count: nat, left: nat)
    requires Sane(q)
    ensures CutSoFar(q, v, len, room, total, count, left)
    ensures left > 0 ==> count == room || !NoGapAt(q, v, total)
    ensures len > 0 && room > 0 ==> total > 0
  {
    total, count, left := 0, 0, len;
    while left > 0 && count < room
      invariant CutSoFar(q, v, len, room, total, count, left) && NoGapAt(q, v, total)
    {
      var segSize := Min(SegSize(q, v.page + v.off + total), left);
      CutOneMore(q, v, len, room, total, count, left, segSize);
      count := count + 1;
      total := total + segSize;
      left := left - segSize;
      if (v.off + total) % q.virt != 0 {
        return;
      }
    }
  }

  /** Where the loop of bvec_split_segs stops decides whether all `n` bytes would have fitted. */
  lemma {:induction false} SplitVerdict(q: Limits, off: nat, a: nat, n: nat, total: nat, len: nat, count: nat, room: nat,
                                        maxLen: nat)
    requires Sane(q) && total + len == Min(n, maxLen) && count == Pieces(q, a, total) <= room && InnerOk(q, off, a, total)
    requires len > 0 ==> OnCut(q, a, total) && (count == room || (total > 0 && (off + total) % q.virt != 0))
    ensures len > 0 || n > maxLen <==> !(n <= maxLen && Pieces(q, a, n) <= room && InnerOk(q, off, a, n))
  {
    if len > 0 {
      CutRest(q, off, a, total, n);
    }
  }

  // ---- blk_recalc_rq_segments

  /** The bytes of a request: the vectors of its bios one after another. */
  ghost function Flat(bios: seq<seq<Extent>>): seq<Extent> {
    if |bios| == 0 then [] else Flat(bios[..|bios| - 1]) + bios[|bios| - 1]
  }

  ghost predicate VecsOk(q: Limits, vs: seq<Extent>) {
    forall i :: 0 <= i < |vs| ==> VecOk(q, vs[i])
  }

  /** One round of the counting loop. */
  method CountVec(q: Limits, vs: seq<Extent>, i: nat, nsegs: nat, sectors: nat) returns (segs: nat, secs: nat)
    requires Sane(q) && q.virt == 1 && i < |vs| && Length(vs) <= SECTOR_CAP * 512
    requires nsegs == SegmentCount(q, vs[..i]) <= Length(vs[..i]) && sectors * 512 <= Length(vs[..i])
    ensures segs == SegmentCount(q, vs[..i + 1]) <= Length(vs[..i + 1]) && secs * 512 <= Length(vs[..i + 1])
  {
    CountPrefix(q, vs, i);
    CountingNeverSplits(q, vs[i], nsegs, sectors, Length(vs[..i]));
    var split;
    ghost var taken;
    split, segs, secs, taken := BvecSplitSegs(q, vs[i], nsegs, sectors, UINT_MAX, UINT_MAX);
  }

  /**
   * blk_recalc_rq_segments over the vectors of a request that has no virtual boundary; its
   * `__data_len` is an unsigned int.
   */
  method RecalcRqSegments(q: Limits, vs: seq<Extent>) returns (nrPhysSegs: nat)
    requires Sane(q) && q.virt == 1
    requires Length(vs) <= SECTOR_CAP * 512
    ensures nrPhysSegs == SegmentCount(q, vs)
  {
    nrPhysSegs := 0;
    var nrSectors: nat := 0;
    for i := 0 to |vs|
      invariant nrPhysSegs == SegmentCount(q, vs[..i]) <= Length(vs[..i])
      invariant nrSectors * 512 <= Length(vs[..i])
    {
      nrPhysSegs, nrSectors := CountVec(q, vs, i, nrPhysSegs, nrSectors);
    }
    assert vs[..|vs|] == vs;
  }

  lemma {:induction false} CountPrefix(q: Limits, vs: seq<Extent>, i: nat)
    requires Sane(q) && i < |vs|
    ensures SegmentCount(q, vs[..i + 1]) == SegmentCount(q, vs[..i]) + Pieces(q, Addr(vs[i]), vs[i].len)
    ensures Length(vs[..i + 1]) == Length(vs[..i]) + vs[i].len
    ensures Length(vs[..i + 1]) <= Length(vs)
  {
    assert vs[..i + 1] == vs[..i] + [vs[i]];
    CountSnoc(q, vs[..i], vs[i]);
    BytesSnoc(vs[..i], vs[i]);
    LengthPrefix(vs, i + 1);
  }

  /** With the counting limits every vector of a request is appended whole. */
  lemma {:induction false} CountingNeverSplits(q: Limits, v: Extent, nsegs: nat, sectors: nat, before: nat)
    requires Sane(q) && q.virt == 1
    requires nsegs <= before && sectors * 512 <= before && before + v.len <= SECTOR_CAP * 512
    ensures Appendable(q, v, nsegs, sectors, UINT_MAX, UINT_MAX)
  {
    NoGaps(q, v.off, Addr(v), v.len);
  }

  lemma {:induction false} LengthPrefix(vs: seq<Extent>, i: nat)
    requires i <= |vs|
    ensures Length(vs[..i]) <= Length(vs)
    decreases |vs| - i
  {
    if i == |vs| {
      assert vs[..i] == vs;
    } else {
      assert vs[..i + 1] == vs[..i] + [vs[i]];
      BytesSnoc(vs[..i], vs[i]);
      LengthPrefix(vs, i + 1);
    }
  }

  lemma {:induction false} NoGaps(q: Limits, off: nat, a: nat, n: nat)
    requires Sane(q) && q.virt == 1
    ensures InnerOk(q, off, a, n)
    decreases n
  {
    var m := Min(SegSize(q, a), n);
    if m < n {
      NoGaps(q, off + m, a + m, n - m);
    }
  }

  // ---- __blk_bios_map_sg

  ghost predicate ListOk(q: Limits, sgl: seq<Extent>) {
    forall i :: 0 <= i < |sgl| ==> EntryOk(q, sgl[i])
  }

  /** The last entry stops where `v` stops. */
  ghost predicate EndsWith(sgl: seq<Extent>, v: Extent) {
    |sgl| > 0 && v.len > 0 && Addr(sgl[|sgl| - 1]) + sgl[|sgl| - 1].len == Addr(v) + v.len
  }

  /** biovec_phys_mergeable: contiguous, and from the first byte to the last in one window. */
  predicate PhysMergeable(q: Limits, v1: Extent, v2: Extent)
    requires q.window > 0
  {
    && v2.len > 0
    && Addr(v1) + v1.len == Addr(v2)
    && Addr(v1) / q.window == (Addr(v2) + v2.len - 1) / q.window
  }

  /** sg_set_page for `len` bytes of `v`, `total` bytes in: the offset is kept inside a page. */
  method SetPage(q: Limits, v: Extent, total: nat, len: nat) returns (entry: Extent)
    requires Sane(q) && 0 < len <= SegSize(q, Addr(v) + total)
    ensures Addr(entry) == Addr(v) + total && entry.len == len && EntryOk(q, entry)
  {
    var offset := v.off + total;
    entry := Extent(v.page + offset / q.page * q.page, offset % q.page, len);
    assert offset == offset / q.page * q.page + offset % q.page;
    SameWindow(Addr(v) + total, len, q.window);
  }

  /** The longest entry the limits allow, for bytes that are left of `v`. */
  method NextEntry(q: Limits, v: Extent, total: nat, nbytes: nat) returns (len: nat, entry: Extent)
    requires Sane(q) && nbytes > 0
    ensures 0 < len <= nbytes && entry.len == len && Addr(entry) == Addr(v) + total && EntryOk(q, entry)
    ensures Pieces(q, Addr(v) + total, nbytes) == 1 + Pieces(q, Addr(v) + total + len, nbytes - len)
  {
    len := Min(SegSize(q, v.page + v.off + total), nbytes);
    entry := SetPage(q, v, total, len);
  }

  /** The entries for the first `total` bytes of `v` follow `sglist`. */
  ghost predicate MapSoFar(q: Limits, v: Extent, sglist: seq<Extent>, sgl: seq<Extent>, total: nat) {
    && ListOk(q, sgl) && Bytes(sgl) == Bytes(sglist) + Span(Addr(v), total)
    && (total > 0 ==> |sgl| > 0 && Addr(sgl[|sgl| - 1]) + sgl[|sgl| - 1].len == Addr(v) + total)
  }

  lemma {:induction false} MapOneMore(q: Limits, v: Extent, sglist: seq<Extent>, sgl: seq<Extent>, total: nat, e: Extent)
    requires MapSoFar(q, v, sglist, sgl, total) && EntryOk(q, e) && Addr(e) == Addr(v) + total
    ensures MapSoFar(q, v, sglist, sgl + [e], total + e.len)
  {
    AppendBytes(sgl, e, Bytes(sglist), Addr(v), total);
    AppendOk(q, sgl, e);
  }

  /** blk_bvec_map_sg: one entry for each segment of a vector. */
  method BvecMapSg(q: Limits, v: Extent, sglist: seq<Extent>) returns (sgl: seq<Extent>, nsegs: nat)
    requires Sane(q) && VecOk(q, v) && ListOk(q, sglist)
    ensures Bytes(sgl) == Bytes(sglist) + Span(Addr(v), v.len)
    ensures ListOk(q, sgl) && EndsWith(sgl, v)
    ensures nsegs == Pieces(q, Addr(v), v.len) && |sgl| == |sglist| + nsegs
  {
    var nbytes, total := v.len, 0;
    sgl, nsegs := sglist, 0;
    while nbytes > 0
      invariant total + nbytes == v.len
      invariant nsegs + Pieces(q, Addr(v) + total, nbytes) == Pieces(q, Addr(v), v.len)
      invariant |sgl| == |sglist| + nsegs
      invariant MapSoFar(q, v, sglist, sgl, total)
    {
      var len, entry := NextEntry(q, v, total, nbytes);
      MapOneMore(q, v, sglist, sgl, total, entry);
      sgl := sgl + [entry];
      total := total + len;
      nbytes := nbytes - len;
      nsegs := nsegs + 1;
    }
  }

  lemma {:induction false} AppendOk(q: Limits, sgl: seq<Extent>, e: Extent)
    requires ListOk(q, sgl) && EntryOk(q, e)
    ensures ListOk(q, sgl + [e])
  {
  }

  lemma {:induction false} AppendBytes(sgl: seq<Extent>, e: Extent, before: seq<nat>, a: nat, total: nat)
    requires Bytes(sgl) == before + Span(a, total) && Addr(e) == a + total
    ensures Bytes(sgl + [e]) == before + Span(a, total + e.len)
  {
    BytesSnoc(sgl, e);
    SpanSplit(a, total, e.len);
    Assoc(before, Span(a, total), Span(a + total, e.len));
  }

  /** __blk_bvec_map_sg: a vector inside one page is one entry as it stands. */
  method PageMapSg(q: Limits, v: Extent, sglist: seq<Extent>) returns (sgl: seq<Extent>, nsegs: nat)
    requires Sane(q) && VecOk(q, v) && ListOk(q, sglist) && v.off + v.len <= q.page
    ensures Bytes(sgl) == Bytes(sglist) + Span(Addr(v), v.len)
    ensures ListOk(q, sgl) && EndsWith(sgl, v)
    ensures nsegs == Pieces(q, Addr(v), v.len) && |sgl| == |sglist| + nsegs
  {
    sgl, nsegs := sglist + [v], 1;
    BytesSnoc(sglist, v);
    PageInWindow(q, v);
    PageIsOnePiece(q, v);
    SameWindow(Addr(v), v.len, q.window);
  }

  /**
   * __blk_segment_map_sg_merge: the window test looks only at the two vectors, yet the grown
   * entry, which may have begun in an earlier vector, still lies in one window.
   */
  method SegmentMapSgMerge(q: Limits, v: Extent, bvprv: Extent, sglist: seq<Extent>)
    returns (merged: bool, sgl: seq<Extent>)
    requires Sane(q) && VecOk(q, v) && ListOk(q, sglist)
    requires |sglist| > 0 ==> EndsWith(sglist, bvprv)
    ensures merged ==> Bytes(sgl) == Bytes(sglist) + Span(Addr(v), v.len)
    ensures merged ==> ListOk(q, sgl) && EndsWith(sgl, v) && |sgl| == |sglist|
    ensures !merged ==> sgl == sglist
  {
    merged, sgl := false, sglist;
    if |sglist| == 0 {
      return;
    }
    var last := sglist[|sglist| - 1];
    if last.len + v.len > q.maxSize {
      return;
    }
    if !PhysMergeable(q, bvprv, v) {
      return;
    }
    DivBetween(Addr(bvprv), Addr(v) - 1, Addr(v) + v.len - 1, q.window);
    BytesGrow(sglist, v.len);
    merged := true;
    sgl := sglist[|sglist| - 1 := last.(len := last.len + v.len)];
  }

  /** The body of the inner loop: merge into the last entry, or map the vector. */
  method MapVec(q: Limits, v: Extent, newBio: bool, bvprv: Extent, sglist: seq<Extent>)
    returns (sgl: seq<Extent>, nsegs: nat)
    requires Sane(q) && VecOk(q, v) && ListOk(q, sglist)
    requires newBio ==> EndsWith(sglist, bvprv)
    ensures Bytes(sgl) == Bytes(sglist) + Span(Addr(v), v.len)
    ensures ListOk(q, sgl) && EndsWith(sgl, v)
    ensures |sgl| == |sglist| + nsegs && nsegs <= Pieces(q, Addr(v), v.len)
  {
    if newBio {
      var merged;
      merged, sgl := SegmentMapSgMerge(q, v, bvprv, sglist);
      if merged {
        nsegs := 0;
        return;
      }
    }
    if v.off + v.len <= q.page {
      sgl, nsegs := PageMapSg(q, v, sglist);
    } else {
      sgl, nsegs := BvecMapSg(q, v, sglist);
    }
  }

  /** The inner loop over one bio; only its first vector may be merged. */
  method MapBio(q: Limits, bio: seq<Extent>, newBio: bool, bvprv: Extent, sglist: seq<Extent>)
    returns (sgl: seq<Extent>, nsegs: nat)
    requires Sane(q) && VecsOk(q, bio) && ListOk(q, sglist)
    requires newBio ==> EndsWith(sglist, bvprv)
    ensures Bytes(sgl) == Bytes(sglist) + Bytes(bio)
    ensures ListOk(q, sgl)
    ensures if |bio| > 0 then EndsWith(sgl, bio[|bio| - 1]) else sgl == sglist
    ensures |sgl| == |sglist| + nsegs && nsegs <= SegmentCount(q, bio)
  {
    sgl, nsegs := sglist, 0;
    for j := 0 to |bio|
      invariant Mapped(q, sglist, bio[..j], sgl, nsegs)
      invariant if j > 0 then EndsWith(sgl, bio[j - 1]) else sgl == sglist
    {
      ghost var before := sgl;
      var n;
      sgl, n := MapVec(q, bio[j], newBio && j == 0, bvprv, sgl);
      MappedSnoc(q, sglist, bio[..j], before, nsegs, bio[j], sgl, n);
      nsegs := nsegs + n;
      assert bio[..j + 1] == bio[..j] + [bio[j]];
    }
    assert bio[..|bio|] == bio;
  }

  /** The entries added to `sglist` are those of the vectors `done`. */
  ghost predicate Mapped(q: Limits, sglist: seq<Extent>, done: seq<Extent>, sgl: seq<Extent>, nsegs: nat)
    requires Sane(q)
  {
    && Bytes(sgl) == Bytes(sglist) + Bytes(done) && ListOk(q, sgl)
    && |sgl| == |sglist| + nsegs && nsegs <= SegmentCount(q, done)
  }

  lemma {:induction false} MappedSnoc(q: Limits, sglist: seq<Extent>, done: seq<Extent>, sgl: seq<Extent>, nsegs: nat,
                                      v: Extent, longer: seq<Extent>, n: nat)
    requires Sane(q) && Mapped(q, sglist, done, sgl, nsegs) && ListOk(q, longer)
    requires Bytes(longer) == Bytes(sgl) + Span(Addr(v), v.len)
    requires |longer| == |sgl| + n && n <= Pieces(q, Addr(v), v.len)
    ensures Mapped(q, sglist, done + [v], longer, nsegs + n)
  {
    BytesSnoc(done, v);
    CountSnoc(q, done, v);
    Assoc(Bytes(sglist), Bytes(done), Span(Addr(v), v.len));
  }

  /**
   * __blk_bios_map_sg: the entries concatenate to exactly the request's bytes, each is one a
   * driver can take, and there are never more than were counted.
   */
  method MapBios(q: Limits, bios: seq<seq<Extent>>) returns (sgl: seq<Extent>, nsegs: nat)
    requires Sane(q)
    requires forall i :: 0 <= i < |bios| ==> VecsOk(q, bios[i])
    ensures Bytes(sgl) == Bytes(Flat(bios))
    ensures ListOk(q, sgl)
    ensures nsegs == |sgl| <= SegmentCount(q, Flat(bios))
  {
    sgl, nsegs := [], 0;
    var bvprv := Extent(0, 0, 0);
    var newBio := false;
    for b := 0 to |bios|
      invariant Bytes(sgl) == Bytes(Flat(bios[..b])) && ListOk(q, sgl)
      invariant nsegs == |sgl| <= SegmentCount(q, Flat(bios[..b]))
      invariant newBio ==> EndsWith(sgl, bvprv)
    {
      var bio := bios[b];
      FlatSnoc(q, bios, b);
      var n;
      sgl, n := MapBio(q, bio, newBio, bvprv, sgl);
      nsegs := nsegs + n;
      if |bio| > 0 {
        bvprv := bio[|bio| - 1];
        newBio := true;
      }
    }
    assert bios[..|bios|] == bios;
  }

  lemma {:induction false} FlatSnoc(q: Limits, bios: seq<seq<Extent>>, b: nat)
    requires Sane(q) && b < |bios|
    ensures Bytes(Flat(bios[..b + 1])) == Bytes(Flat(bios[..b])) + Bytes(bios[b])
    ensures SegmentCount(q, Flat(bios[..b + 1])) == SegmentCount(q, Flat(bios[..b])) + SegmentCount(q, bios[b])
  {
    assert bios[..b + 1][..b] == bios[..b] && bios[..b + 1][b] == bios[b];
    BytesAppend(Flat(bios[..b]), bios[b]);
    CountAppend(q, Flat(bios[..b]), bios[b]);
  }

  lemma {:induction false} BytesAppend(xs: seq<Extent>, ys: seq<Extent>)
    ensures Bytes(xs + ys) == Bytes(xs) + Bytes(ys)
    decreases |ys|
  {
    if |ys| == 0 {
      assert xs + ys == xs;
    } else {
      var n := |ys| - 1;
      BytesAppend(xs, ys[..n]);
      BytesSnoc(xs + ys[..n], ys[n]);
      Assoc(Bytes(xs), Bytes(ys[..n]), Span(Addr(ys[n]), ys[n].len));
      assert xs + ys == (xs + ys[..n]) + [ys[n]];
    }
  }

  lemma {:induction false} CountAppend(q: Limits, xs: seq<Extent>, ys: seq<Extent>)
    requires Sane(q)
    ensures SegmentCount(q, xs + ys) == SegmentCount(q, xs) + SegmentCount(q, ys)
    decreases |ys|
  {
    if |ys| == 0 {
      assert xs + ys == xs;
    } else {
      var n := |ys| - 1;
      CountAppend(q, xs, ys[..n]);
      CountSnoc(q, xs + ys[..n], ys[n]);
      assert xs + ys == (xs + ys[..n]) + [ys[n]];
    }
  }
}
