/**
 * Bio splitting (block/blk-merge.c, block/bio.c). The split point is chosen greedily over the
 * vectors; the prefix meets every queue limit, and splitting what is left over and over tiles the
 * bio.
 */
module BioSplit {
  import opened Segments
  import opened ScatterList

  /** Sizes in sectors of 512 bytes; a chunk of 0 means that the queue has none. */
  datatype IoLimits = IoLimits(maxSegs: nat, maxSectors: nat, chunk: nat, pbs: nat, lbs: nat)

  /** blk_max_size_offset: the sectors left before the next chunk boundary, if any. */
  function MaxSizeOffset(io: IoLimits, s: nat): (r: nat) {
    if io.chunk == 0 then io.maxSectors else Min(io.maxSectors, io.chunk - s % io.chunk)
  }

  /** x & ~(b - 1) for a power of two b. */
  function RoundDown(x: nat, b: nat): (r: nat)
    requires b > 0
  {
    x - x % b
  }

  lemma {:induction false} RoundDownIs(x: nat, b: nat)
    requires b > 0
    ensures RoundDown(x, b) <= x < RoundDown(x, b) + b && RoundDown(x, b) % b == 0
    ensures x >= b <==> RoundDown(x, b) >= b
    ensures x < b <==> RoundDown(x, b) == 0
  {
    assert x == x / b * b + x % b;
    Multiple(x / b, b);
    if x < b {
      Quotient(x, 0, b);
    }
  }

  lemma {:induction false} Multiple(k: nat, m: nat)
    requires m > 0
    ensures k * m % m == 0
  {
    assert (k + 1) * m == k * m + m;
    Quotient(k * m, k, m);
  }

  /** get_max_io_size. */
  function MaxIoSize(io: IoLimits, s: nat): (r: nat)
    requires io.pbs > 0 && io.lbs > 0
  {
    var sectors := MaxSizeOffset(io, s);
    var startOffset := s % io.pbs;
    var maxSectors := RoundDown(sectors + startOffset, io.pbs);
    if maxSectors > startOffset then maxSectors - startOffset else RoundDown(sectors, io.lbs)
  }

  /**
   * An I/O of that size stays within the sector limit and the chunk. It ends on a physical block
   * when one is in reach and is a whole number of logical blocks otherwise.
   */
  lemma {:induction false} MaxIoSizeAligns(io: IoLimits, s: nat)
    requires io.pbs > 0 && io.lbs > 0
    ensures MaxIoSize(io, s) <= io.maxSectors
    ensures io.chunk > 0 ==> s % io.chunk + MaxIoSize(io, s) <= io.chunk
    ensures (if MaxSizeOffset(io, s) + s % io.pbs >= io.pbs
             then (s + MaxIoSize(io, s)) % io.pbs == 0
             else MaxIoSize(io, s) % io.lbs == 0)
  {
    var sectors, o := MaxSizeOffset(io, s), s % io.pbs;
    RoundDownIs(sectors + o, io.pbs);
    RoundDownIs(sectors, io.lbs);
    if sectors + o >= io.pbs {
      RoundDownIs(s, io.pbs);
      SumOfMultiples(RoundDown(s, io.pbs), RoundDown(sectors + o, io.pbs), io.pbs);
      assert s + MaxIoSize(io, s) == RoundDown(s, io.pbs) + RoundDown(sectors + o, io.pbs);
    }
  }

  lemma {:induction false} SumOfMultiples(x: nat, y: nat, m: nat)
    requires m > 0 && x % m == 0 && y % m == 0
    ensures (x + y) % m == 0
  {
    assert x == x / m * m && y == y / m * m;
    assert x + y == (x / m + y / m) * m;
    Multiple(x / m + y / m, m);
  }

  /** The size is zero, and bio_split then refuses it, exactly when neither block size is in reach. */
  lemma {:induction false} MaxIoSizePositive(io: IoLimits, s: nat)
    requires io.pbs > 0 && io.lbs > 0
    ensures (MaxIoSize(io, s) > 0
             <==> MaxSizeOffset(io, s) >= io.lbs || MaxSizeOffset(io, s) + s % io.pbs >= io.pbs)
  {
    RoundDownIs(MaxSizeOffset(io, s) + s % io.pbs, io.pbs);
    RoundDownIs(MaxSizeOffset(io, s), io.lbs);
  }

  // ---- what a bio that needs no split looks like

  /** bvec_gap_to_prev: neither the end of `u` nor the start of `v` leaves a gap. */
  predicate Joined(q: Limits, u: Extent, v: Extent)
    requires q.virt > 0
  {
    v.off % q.virt == 0 && (u.off + u.len) % q.virt == 0
  }

  ghost predicate GapFree(q: Limits, vs: seq<Extent>)
    requires Sane(q)
  {
    && (forall i :: 0 <= i < |vs| ==> InnerOk(q, vs[i].off, Addr(vs[i]), vs[i].len))
    && (forall i :: 0 < i < |vs| ==> Joined(q, vs[i - 1], vs[i]))
  }

  /** The device takes the bio at sector `s` as one request. */
  ghost predicate Fits(q: Limits, io: IoLimits, s: nat, vs: seq<Extent>)
    requires Sane(q) && io.pbs > 0 && io.lbs > 0
  {
    Length(vs) <= MaxIoSize(io, s) * 512 && SegmentCount(q, vs) <= io.maxSegs && GapFree(q, vs)
  }

  /** Segment limits and vectors are whole units of `u` bytes. */
  ghost predicate AlignedLimits(q: Limits, u: nat) {
    Sane(q) && u > 0 && q.maxSize % u == 0 && q.window % u == 0
  }

  ghost predicate AlignedVec(q: Limits, v: Extent, u: nat) {
    VecOk(q, v) && u > 0 && v.len % u == 0 && Addr(v) % u == 0
  }

  ghost predicate AlignedVecs(q: Limits, vs: seq<Extent>, u: nat) {
    forall i :: 0 <= i < |vs| ==> AlignedVec(q, vs[i], u)
  }

  // ---- bio_advance and the clone's iterator

  /** The first `n` bytes of a bio. */
  function Take(vs: seq<Extent>, n: nat): seq<Extent> {
    if n == 0 || |vs| == 0 then []
    else if vs[0].len <= n then [vs[0]] + Take(vs[1..], n - vs[0].len)
    else [vs[0].(len := n)]
  }

  /** The bio after bio_advance by `n` bytes. */
  function Advance(vs: seq<Extent>, n: nat): seq<Extent> {
    if n == 0 || |vs| == 0 then vs
    else if vs[0].len <= n then Advance(vs[1..], n - vs[0].len)
    else [vs[0].(off := vs[0].off + n, len := vs[0].len - n)] + vs[1..]
  }

  lemma {:induction false} LengthCons(v: Extent, vs: seq<Extent>)
    ensures Length([v] + vs) == v.len + Length(vs)
    decreases |vs|
  {
    if |vs| == 0 {
      assert [v] + vs == [] + [v];
      BytesSnoc([], v);
    } else {
      var n := |vs| - 1;
      LengthCons(v, vs[..n]);
      assert [v] + vs == ([v] + vs[..n]) + [vs[n]];
      BytesSnoc([v] + vs[..n], vs[n]);
    }
  }

  /** The two halves are the whole. */
  lemma {:induction false} TakeAdvance(vs: seq<Extent>, n: nat)
    ensures Bytes(Take(vs, n)) + Bytes(Advance(vs, n)) == Bytes(vs)
    decreases |vs|
  {
    if n == 0 || |vs| == 0 {
      assert Bytes([]) == [];
    } else {
      var v, rest := vs[0], vs[1..];
      ConsOf(vs);
      if v.len <= n {
        TakeAdvance(rest, n - v.len);
        BytesAppend([v], Take(rest, n - v.len));
        Assoc(Bytes([v]), Bytes(Take(rest, n - v.len)), Bytes(Advance(rest, n - v.len)));
      } else {
        TakePart(v, rest, n);
      }
    }
  }

  lemma {:induction false} TakeLength(vs: seq<Extent>, n: nat)
    requires n <= Length(vs)
    ensures Length(Take(vs, n)) == n && Length(Advance(vs, n)) == Length(vs) - n
    decreases |vs|
  {
    if n > 0 && |vs| > 0 {
      var v, rest := vs[0], vs[1..];
      ConsOf(vs);
      if v.len <= n {
        TakeLength(rest, n - v.len);
        LengthCons(v, Take(rest, n - v.len));
      } else {
        TakePart(v, rest, n);
      }
    }
  }

  lemma {:induction false} ConsOf(vs: seq<Extent>)
    requires |vs| > 0
    ensures Bytes(vs) == Bytes([vs[0]]) + Bytes(vs[1..]) && Length(vs) == vs[0].len + Length(vs[1..])
  {
    assert vs == [vs[0]] + vs[1..];
    LengthCons(vs[0], vs[1..]);
    BytesAppend([vs[0]], vs[1..]);
  }

  lemma {:induction false} TakePart(v: Extent, rest: seq<Extent>, n: nat)
    requires n < v.len
    ensures var head, tail := v.(len := n), v.(off := v.off + n, len := v.len - n);
            && Bytes([head]) + Bytes([tail] + rest) == Bytes([v]) + Bytes(rest)
            && Length([head]) == n && Length([tail] + rest) == v.len - n + Length(rest)
  {
    var head, tail := v.(len := n), v.(off := v.off + n, len := v.len - n);
    CutVec(v, n);
    BytesAppend([tail], rest);
    Assoc(Bytes([head]), Bytes([tail]), Bytes(rest));
    LengthCons(tail, rest);
  }

  lemma {:induction false} CutVec(v: Extent, n: nat)
    requires n < v.len
    ensures Bytes([v.(len := n)]) + Bytes([v.(off := v.off + n, len := v.len - n)]) == Bytes([v])
    ensures Length([v.(len := n)]) == n
  {
    var head, tail := v.(len := n), v.(off := v.off + n, len := v.len - n);
    var a, b, m, len := Addr(v), Addr(v) + n, v.len - n, v.len;
    SingleAt(head, a, n);
    SingleAt(tail, b, m);
    SingleAt(v, a, len);
    SpanCut(a, n, b, m, len);
    SameSum(Bytes([head]), Bytes([tail]), Bytes([v]), Span(a, n), Span(b, m), Span(a, len));
  }

  lemma {:induction false} SingleAt(v: Extent, a: nat, n: nat)
    requires a == Addr(v) && n == v.len
    ensures Bytes([v]) == Span(a, n) && Length([v]) == n
  {
    Single(v);
  }

  lemma {:induction false} SpanCut(a: nat, n: nat, b: nat, m: nat, len: nat)
    requires b == a + n && len == n + m
    ensures Span(a, n) + Span(b, m) == Span(a, len)
  {
    SpanSplit(a, n, m);
  }

  lemma {:induction false} SameSum(x: seq<nat>, y: seq<nat>, z: seq<nat>, a: seq<nat>, b: seq<nat>, c: seq<nat>)
    requires x == a && y == b && z == c && a + b == c
    ensures x + y == z
  {
  }

  lemma {:induction false} Single(v: Extent)
    ensures Bytes([v]) == Span(Addr(v), v.len) && Length([v]) == v.len
  {
    assert [v] == [] + [v];
    BytesSnoc([], v);
  }

  /** A cut `t` bytes into vector `i` keeps the vectors before it and those `t` bytes. */
  ghost function Cut(vs: seq<Extent>, i: nat, t: nat): seq<Extent>
    requires i < |vs|
  {
    vs[..i] + (if t == 0 then [] else [vs[i].(len := t)])
  }

  lemma {:induction false} TakeCut(vs: seq<Extent>, i: nat, t: nat)
    requires i < |vs| && t < vs[i].len
    requires forall k :: 0 <= k < |vs| ==> vs[k].len > 0
    ensures Take(vs, Length(vs[..i]) + t) == Cut(vs, i, t)
    decreases i
  {
    if i > 0 {
      var rest := vs[1..];
      assert vs[..i] == [vs[0]] + rest[..i - 1];
      LengthCons(vs[0], rest[..i - 1]);
      TakeCut(rest, i - 1, t);
    }
  }

  lemma {:induction false} TakeAll(vs: seq<Extent>)
    requires forall k :: 0 <= k < |vs| ==> vs[k].len > 0
    ensures Take(vs, Length(vs)) == vs
    decreases |vs|
  {
    if |vs| > 0 {
      assert vs == [vs[0]] + vs[1..];
      LengthCons(vs[0], vs[1..]);
      TakeAll(vs[1..]);
    }
  }

  // ---- blk_bio_segment_split

  /** A full cut of an aligned vector is a whole number of units. */
  lemma {:induction false} CutAligned(q: Limits, a: nat, t: nat, u: nat)
    requires AlignedLimits(q, u) && a % u == 0 && OnCut(q, a, t)
    ensures t % u == 0
    decreases t
  {
    if t > 0 {
      var m := SegSize(q, a);
      SegSizeAligned(q, a, u);
      SumOfMultiples(a, m, u);
      CutAligned(q, a + m, t - m, u);
      SumOfMultiples(m, t - m, u);
    } else {
      Multiple(0, u);
    }
  }

  lemma {:induction false} SegSizeAligned(q: Limits, a: nat, u: nat)
    requires AlignedLimits(q, u) && a % u == 0
    ensures SegSize(q, a) % u == 0
  {
    var k, j := q.window / u, a / u;
    assert q.window == k * u && a == j * u;
    assert j == j / k * k + j % k;
    PageRemainder(u, k, j / k, j % k, 0);
    assert a == (j / k * k + j % k) * u + 0;
    DiffOfMultiples(q.window, a % q.window, u, k, j % k);
  }

  lemma {:induction false} DiffOfMultiples(x: nat, y: nat, m: nat, k: nat, j: nat)
    requires m > 0 && x == k * m && y == j * m && y <= x
    ensures (x - y) % m == 0
  {
    if k < j {
      Scale(k + 1, j, m);
    } else {
      assert x - y == (k - j) * m;
      Multiple(k - j, m);
    }
  }

  /** The vectors taken so far need no split, and what was counted is theirs. */
  ghost predicate Taken(q: Limits, vs: seq<Extent>, sectors: nat, segs: nat, maxSectors: nat, maxSegs: nat)
    requires Sane(q)
  {
    && Length(vs) == sectors * 512 && sectors <= maxSectors
    && SegmentCount(q, vs) == segs <= maxSegs
    && GapFree(q, vs)
  }

  lemma {:induction false} TakenSnoc(q: Limits, vs: seq<Extent>, v: Extent, sectors: nat, segs: nat, maxSectors: nat,
                                     maxSegs: nat)
    requires Sane(q) && Taken(q, vs, sectors, segs, maxSectors, maxSegs)
    requires |vs| > 0 ==> Joined(q, vs[|vs| - 1], v)
    requires v.len % 512 == 0 && sectors + v.len / 512 <= maxSectors
    requires segs + Pieces(q, Addr(v), v.len) <= maxSegs && InnerOk(q, v.off, Addr(v), v.len)
    ensures Taken(q, vs + [v], sectors + v.len / 512, segs + Pieces(q, Addr(v), v.len), maxSectors, maxSegs)
  {
    BytesSnoc(vs, v);
    CountSnoc(q, vs, v);
  }

  /** A list with a prefix that breaks a limit breaks it too. */
  lemma {:induction false} PrefixBreaks(q: Limits, io: IoLimits, s: nat, vs: seq<Extent>, i: nat)
    requires Sane(q) && io.pbs > 0 && io.lbs > 0 && i < |vs|
    requires (i > 0 && !Joined(q, vs[i - 1], vs[i]))
          || Length(vs[..i]) + vs[i].len > MaxIoSize(io, s) * 512
          || SegmentCount(q, vs[..i]) + Pieces(q, Addr(vs[i]), vs[i].len) > io.maxSegs
          || !InnerOk(q, vs[i].off, Addr(vs[i]), vs[i].len)
    ensures !Fits(q, io, s, vs)
  {
    CountPrefix(q, vs, i);
    CountMonotone(q, vs, i + 1);
  }

  lemma {:induction false} CountMonotone(q: Limits, vs: seq<Extent>, i: nat)
    requires Sane(q) && i <= |vs|
    ensures SegmentCount(q, vs[..i]) <= SegmentCount(q, vs)
    decreases |vs| - i
  {
    if i == |vs| {
      assert vs[..i] == vs;
    } else {
      CountPrefix(q, vs, i);
      CountMonotone(q, vs, i + 1);
    }
  }

  /** The outcome of a split after `sectors` sectors in `segs` segments. */
  ghost predicate SplitOk(q: Limits, io: IoLimits, s: nat, vs: seq<Extent>, split: bool, sectors: nat, segs: nat)
    requires Sane(q) && io.pbs > 0 && io.lbs > 0
  {
    var prefix := Take(vs, sectors * 512);
    && Fits(q, io, s, prefix) && segs == SegmentCount(q, prefix)
    && (if split then 0 < sectors * 512 < Length(vs) && !Fits(q, io, s, vs) else prefix == vs)
  }

  /** The limits of the loop at vector `i` of the bio. */
  ghost predicate At(q: Limits, io: IoLimits, s: nat, vs: seq<Extent>, i: nat, sectors: nat, segs: nat) {
    && AlignedLimits(q, 512) && AlignedVecs(q, vs, 512) && Length(vs) <= SECTOR_CAP * 512
    && io.pbs > 0 && io.lbs > 0 && io.maxSegs > 0 && MaxIoSize(io, s) > 0
    && i <= |vs| && Taken(q, vs[..i], sectors, segs, MaxIoSize(io, s), io.maxSegs)
  }

  lemma {:induction false} SplitAt(q: Limits, io: IoLimits, s: nat, vs: seq<Extent>, i: nat, t: nat, sectors: nat,
                                   segs: nat)
    requires Sane(q) && io.pbs > 0 && io.lbs > 0
    requires forall k :: 0 <= k < |vs| ==> vs[k].len > 0
    requires i < |vs| && t < vs[i].len && (i > 0 || t > 0)
    requires Taken(q, Cut(vs, i, t), sectors, segs, MaxIoSize(io, s), io.maxSegs) && !Fits(q, io, s, vs)
    ensures SplitOk(q, io, s, vs, true, sectors, segs)
  {
    TakeCut(vs, i, t);
    CutInside(vs, i, t);
    TakenFits(q, io, s, Cut(vs, i, t), sectors, segs);
  }

  lemma {:induction false} TakenFits(q: Limits, io: IoLimits, s: nat, vs: seq<Extent>, sectors: nat, segs: nat)
    requires Sane(q) && io.pbs > 0 && io.lbs > 0
    requires Taken(q, vs, sectors, segs, MaxIoSize(io, s), io.maxSegs)
    ensures Fits(q, io, s, vs) && Length(vs) == sectors * 512 && segs == SegmentCount(q, vs)
  {
    Scale(sectors, MaxIoSize(io, s), 512);
  }

  lemma {:induction false} CutInside(vs: seq<Extent>, i: nat, t: nat)
    requires forall k :: 0 <= k < |vs| ==> vs[k].len > 0
    requires i < |vs| && t < vs[i].len && (i > 0 || t > 0)
    ensures Length(Cut(vs, i, t)) == Length(vs[..i]) + t
    ensures 0 < Length(Cut(vs, i, t)) < Length(vs)
  {
    CutLength(vs, i, t);
    LengthPrefix(vs, i + 1);
    if i > 0 {
      LengthPositive(vs, i);
    }
  }

  lemma {:induction false} CutLength(vs: seq<Extent>, i: nat, t: nat)
    requires i < |vs|
    ensures Length(Cut(vs, i, t)) == Length(vs[..i]) + t
    ensures Length(vs[..i + 1]) == Length(vs[..i]) + vs[i].len
  {
    assert vs[..i + 1] == vs[..i] + [vs[i]];
    BytesSnoc(vs[..i], vs[i]);
    if t == 0 {
      assert Cut(vs, i, t) == vs[..i];
    } else {
      BytesSnoc(vs[..i], vs[i].(len := t));
    }
  }

  lemma {:induction false} LengthPositive(vs: seq<Extent>, i: nat)
    requires 0 < i <= |vs| && vs[i - 1].len > 0
    ensures Length(vs[..i]) > 0
  {
    assert vs[..i] == vs[..i - 1] + [vs[i - 1]];
    BytesSnoc(vs[..i - 1], vs[i - 1]);
  }

  /** The loop can go on past vector `i`, taken whole. */
  lemma {:induction false} TakeNext(q: Limits, io: IoLimits, s: nat, vs: seq<Extent>, i: nat, sectors: nat, segs: nat)
    requires At(q, io, s, vs, i, sectors, segs) && i < |vs|
    requires i > 0 ==> Joined(q, vs[i - 1], vs[i])
    requires sectors + vs[i].len / 512 <= MaxIoSize(io, s)
    requires segs + Pieces(q, Addr(vs[i]), vs[i].len) <= io.maxSegs && InnerOk(q, vs[i].off, Addr(vs[i]), vs[i].len)
    ensures At(q, io, s, vs, i + 1, sectors + vs[i].len / 512, segs + Pieces(q, Addr(vs[i]), vs[i].len))
  {
    assert vs[..i + 1] == vs[..i] + [vs[i]];
    TakenSnoc(q, vs[..i], vs[i], sectors, segs, MaxIoSize(io, s), io.maxSegs);
  }

  /** The loop stops `t` bytes into vector `i`. */
  lemma {:induction false} StopInside(q: Limits, io: IoLimits, s: nat, vs: seq<Extent>, i: nat, t: nat, sectors: nat,
                                      segs: nat)
    requires At(q, io, s, vs, i, sectors, segs) && i < |vs|
    requires i > 0 ==> Joined(q, vs[i - 1], vs[i])
    requires t < vs[i].len && t % 512 == 0 && sectors + t / 512 <= MaxIoSize(io, s) && (i > 0 || t > 0)
    requires segs + Pieces(q, Addr(vs[i]), t) <= io.maxSegs && InnerOk(q, vs[i].off, Addr(vs[i]), t)
    requires !Fits(q, io, s, vs)
    ensures SplitOk(q, io, s, vs, true, sectors + t / 512, segs + Pieces(q, Addr(vs[i]), t))
  {
    CutTaken(q, vs, i, t, sectors, segs, MaxIoSize(io, s), io.maxSegs);
    SplitAt(q, io, s, vs, i, t, sectors + t / 512, segs + Pieces(q, Addr(vs[i]), t));
  }

  lemma {:induction false} CutTaken(q: Limits, vs: seq<Extent>, i: nat, t: nat, sectors: nat, segs: nat,
                                    maxSectors: nat, maxSegs: nat)
    requires Sane(q) && i < |vs| && Taken(q, vs[..i], sectors, segs, maxSectors, maxSegs)
    requires i > 0 ==> Joined(q, vs[i - 1], vs[i])
    requires t % 512 == 0 && sectors + t / 512 <= maxSectors
    requires segs + Pieces(q, Addr(vs[i]), t) <= maxSegs && InnerOk(q, vs[i].off, Addr(vs[i]), t)
    ensures Taken(q, Cut(vs, i, t), sectors + t / 512, segs + Pieces(q, Addr(vs[i]), t), maxSectors, maxSegs)
  {
    if t == 0 {
      assert Cut(vs, i, 0) == vs[..i];
      assert Pieces(q, Addr(vs[i]), 0) == 0;
    } else {
      TakenSnoc(q, vs[..i], vs[i].(len := t), sectors, segs, maxSectors, maxSegs);
    }
  }

  /** A gap before vector `i` stops the loop there. */
  lemma {:induction false} StopAtGap(q: Limits, io: IoLimits, s: nat, vs: seq<Extent>, i: nat, sectors: nat, segs: nat)
    requires At(q, io, s, vs, i, sectors, segs) && 0 < i < |vs| && !Joined(q, vs[i - 1], vs[i])
    ensures SplitOk(q, io, s, vs, true, sectors, segs)
  {
    PrefixBreaks(q, io, s, vs, i);
    assert Cut(vs, i, 0) == vs[..i];
    SplitAt(q, io, s, vs, i, 0, sectors, segs);
  }

  /** Everything the split point depends on is a whole number of units of `u` bytes. */
  ghost predicate InUnits(q: Limits, io: IoLimits, s: nat, vs: seq<Extent>, u: nat) {
    && io.pbs > 0 && io.lbs > 0 && AlignedLimits(q, u) && AlignedVecs(q, vs, u) && MaxIoSize(io, s) * 512 % u == 0
  }

  /** Adding whole units of bytes to whole units of sectors. */
  lemma {:induction false} UnitsAdd(sectors: nat, t: nat, u: nat)
    requires u > 0 && t % 512 == 0 && sectors * 512 % u == 0 && t % u == 0
    ensures (sectors + t / 512) * 512 % u == 0
  {
    SumOfMultiples(sectors * 512, t, u);
    assert (sectors + t / 512) * 512 == sectors * 512 + t;
  }

  /** One round of the loop of blk_bio_segment_split. */
  method AppendVec(q: Limits, io: IoLimits, s: nat, vs: seq<Extent>, i: nat, sectors: nat, segs: nat, ghost u: nat)
    returns (split: bool, secs: nat, nsegs: nat)
    requires At(q, io, s, vs, i, sectors, segs) && i < |vs|
    requires InUnits(q, io, s, vs, u) && sectors * 512 % u == 0
    ensures split ==> SplitOk(q, io, s, vs, true, secs, nsegs)
    ensures !split ==> At(q, io, s, vs, i + 1, secs, nsegs)
    ensures secs * 512 % u == 0
  {
    var v, maxSectors := vs[i], MaxIoSize(io, s);
    if i > 0 && !Joined(q, vs[i - 1], v) {
      StopAtGap(q, io, s, vs, i, sectors, segs);
      return true, sectors, segs;
    }
    if segs < io.maxSegs && sectors + v.len / 512 <= maxSectors && v.off + v.len <= q.page {
      PageIsOnePiece(q, v);
      TakeNext(q, io, s, vs, i, sectors, segs);
      UnitsAdd(sectors, v.len, u);
      return false, sectors + v.len / 512, segs + 1;
    }
    split, secs, nsegs := SplitVec(q, io, s, vs, i, sectors, segs, u);
  }

  /** The slow path of a round: the vector goes through bvec_split_segs. */
  method SplitVec(q: Limits, io: IoLimits, s: nat, vs: seq<Extent>, i: nat, sectors: nat, segs: nat, ghost u: nat)
    returns (split: bool, secs: nat, nsegs: nat)
    requires At(q, io, s, vs, i, sectors, segs) && i < |vs|
    requires i > 0 ==> Joined(q, vs[i - 1], vs[i])
    requires InUnits(q, io, s, vs, u) && sectors * 512 % u == 0
    ensures split ==> SplitOk(q, io, s, vs, true, secs, nsegs)
    ensures !split ==> At(q, io, s, vs, i + 1, secs, nsegs)
    ensures secs * 512 % u == 0
  {
    SectorsCapped(q, io, s, vs, i, sectors, segs);
    ghost var taken;
    split, nsegs, secs, taken := BvecSplitSegs(q, vs[i], segs, sectors, io.maxSegs, MaxIoSize(io, s));
    TakenKeepsUnits(q, vs[i], sectors, MaxIoSize(io, s), taken, u);
    if split {
      WholeFails(q, io, s, vs, i, sectors, segs);
      StopInside(q, io, s, vs, i, taken, sectors, segs);
    } else {
      TakeNext(q, io, s, vs, i, sectors, segs);
    }
  }

  lemma {:induction false} SectorsCapped(q: Limits, io: IoLimits, s: nat, vs: seq<Extent>, i: nat, sectors: nat,
                                         segs: nat)
    requires At(q, io, s, vs, i, sectors, segs) && i < |vs|
    ensures sectors < SECTOR_CAP && sectors <= MaxIoSize(io, s) && segs <= io.maxSegs
    ensures i == 0 ==> sectors == 0 && segs == 0
    ensures sectors * 512 + vs[i].len <= SECTOR_CAP * 512
  {
    CountPrefix(q, vs, i);
  }

  /** What bvec_split_segs takes of an aligned vector is a whole number of units. */
  lemma {:induction false} TakenUnits(q: Limits, v: Extent, sectors: nat, maxSectors: nat, t: nat, u: nat)
    requires AlignedLimits(q, u) && AlignedVec(q, v, u) && sectors <= Min(maxSectors, SECTOR_CAP)
    requires sectors * 512 + v.len <= SECTOR_CAP * 512 && sectors * 512 % u == 0 && maxSectors * 512 % u == 0
    requires t < v.len ==> t == (Min(maxSectors, SECTOR_CAP) - sectors) * 512 || OnCut(q, Addr(v), t)
    requires t <= v.len
    ensures t % u == 0
  {
    if t < v.len {
      if OnCut(q, Addr(v), t) {
        CutAligned(q, Addr(v), t, u);
      } else {
        TakenToLimit(v.len, sectors, maxSectors, t);
        MultiplesApart(maxSectors * 512, sectors * 512, u);
      }
    }
  }

  lemma {:induction false} TakenToLimit(len: nat, sectors: nat, maxSectors: nat, t: nat)
    requires sectors <= Min(maxSectors, SECTOR_CAP) && sectors * 512 + len <= SECTOR_CAP * 512
    requires t < len && t == (Min(maxSectors, SECTOR_CAP) - sectors) * 512
    ensures t == maxSectors * 512 - sectors * 512
  {
  }

  lemma {:induction false} TakenKeepsUnits(q: Limits, v: Extent, sectors: nat, maxSectors: nat, t: nat, u: nat)
    requires AlignedLimits(q, u) && AlignedVec(q, v, u) && AlignedLimits(q, 512) && AlignedVec(q, v, 512)
    requires sectors <= Min(maxSectors, SECTOR_CAP) && sectors * 512 + v.len <= SECTOR_CAP * 512
    requires sectors * 512 % u == 0 && maxSectors * 512 % u == 0
    requires t < v.len ==> t == (Min(maxSectors, SECTOR_CAP) - sectors) * 512 || OnCut(q, Addr(v), t)
    requires t <= v.len
    ensures t % 512 == 0 && (sectors + t / 512) * 512 % u == 0
  {
    Multiple(sectors, 512);
    Multiple(maxSectors, 512);
    TakenUnits(q, v, sectors, maxSectors, t, 512);
    TakenUnits(q, v, sectors, maxSectors, t, u);
    UnitsAdd(sectors, t, u);
  }

  lemma {:induction false} WholeFails(q: Limits, io: IoLimits, s: nat, vs: seq<Extent>, i: nat, sectors: nat, segs: nat)
    requires At(q, io, s, vs, i, sectors, segs) && i < |vs|
    requires !Appendable(q, vs[i], segs, sectors, io.maxSegs, MaxIoSize(io, s))
    ensures !Fits(q, io, s, vs)
  {
    SectorsCapped(q, io, s, vs, i, sectors, segs);
    PrefixBreaks(q, io, s, vs, i);
  }

  /**
   * blk_bio_segment_split: NULL exactly when the whole bio fits; otherwise a split point that
   * bio_split accepts, whose prefix fits and has the segment count that is reported. The split point
   * is a whole number of any unit that the bio and the limits are whole numbers of.
   */
  method BioSegmentSplit(q: Limits, io: IoLimits, s: nat, vs: seq<Extent>, ghost u: nat)
    returns (split: bool, sectors: nat, segs: nat)
    requires AlignedLimits(q, 512) && AlignedVecs(q, vs, 512) && Length(vs) <= SECTOR_CAP * 512
    requires io.pbs > 0 && io.lbs > 0 && io.maxSegs > 0 && MaxIoSize(io, s) > 0 && InUnits(q, io, s, vs, u)
    ensures split <==> !Fits(q, io, s, vs)
    ensures SplitOk(q, io, s, vs, split, sectors, segs)
    ensures sectors * 512 % u == 0
  {
    sectors, segs := 0, 0;
    assert vs[..0] == [];
    Multiple(0, u);
    for i := 0 to |vs|
      invariant At(q, io, s, vs, i, sectors, segs) && sectors * 512 % u == 0
    {
      split, sectors, segs := AppendVec(q, io, s, vs, i, sectors, segs, u);
      if split {
        return;
      }
    }
    split := false;
    assert vs[..|vs|] == vs;
    TakenFits(q, io, s, vs, sectors, segs);
    TakeAll(vs);
  }

  // ---- splitting over and over

  /** The pieces lie end to end from sector `s` and each fits where it starts. */
  ghost predicate Tiles(q: Limits, io: IoLimits, s: nat, pieces: seq<seq<Extent>>)
    requires Sane(q) && io.pbs > 0 && io.lbs > 0
  {
    |pieces| == 0
    || (var n := |pieces| - 1;
        Tiles(q, io, s, pieces[..n]) && Fits(q, io, s + Length(Flat(pieces[..n])) / 512, pieces[n]))
  }

  lemma {:induction false} TilesSnoc(q: Limits, io: IoLimits, s: nat, at: nat, pieces: seq<seq<Extent>>, p: seq<Extent>)
    requires Sane(q) && io.pbs > 0 && io.lbs > 0 && Tiles(q, io, s, pieces)
    requires at == s + Length(Flat(pieces)) / 512 && Fits(q, io, at, p)
    ensures Tiles(q, io, s, pieces + [p])
  {
    TilesStep(q, io, s, at, pieces + [p], pieces, p);
  }

  lemma {:induction false} TilesStep(q: Limits, io: IoLimits, s: nat, at: nat, all: seq<seq<Extent>>,
                                     pieces: seq<seq<Extent>>, p: seq<Extent>)
    requires Sane(q) && io.pbs > 0 && io.lbs > 0 && Tiles(q, io, s, pieces) && Fits(q, io, at, p)
    requires |all| > 0 && all[..|all| - 1] == pieces && all[|all| - 1] == p && at == s + Length(Flat(pieces)) / 512
    ensures Tiles(q, io, s, all)
  {
  }

  lemma {:induction false} FlatGrows(pieces: seq<seq<Extent>>, p: seq<Extent>)
    ensures Bytes(Flat(pieces + [p])) == Bytes(Flat(pieces)) + Bytes(p)
    ensures Length(Flat(pieces + [p])) == Length(Flat(pieces)) + Length(p)
  {
    assert (pieces + [p])[..|pieces|] == pieces;
    BytesAppend(Flat(pieces), p);
    LengthAppend(Flat(pieces), p);
  }

  lemma {:induction false} LengthAppend(xs: seq<Extent>, ys: seq<Extent>)
    ensures Length(xs + ys) == Length(xs) + Length(ys)
    decreases |ys|
  {
    if |ys| == 0 {
      assert xs + ys == xs;
    } else {
      var n := |ys| - 1;
      LengthAppend(xs, ys[..n]);
      BytesSnoc(xs + ys[..n], ys[n]);
      assert xs + ys == (xs + ys[..n]) + [ys[n]];
    }
  }

  lemma {:induction false} AdvanceAligned(q: Limits, vs: seq<Extent>, n: nat, u: nat)
    requires u > 0 && AlignedVecs(q, vs, u) && n % u == 0
    ensures AlignedVecs(q, Advance(vs, n), u)
    decreases |vs|
  {
    if n > 0 && |vs| > 0 {
      var v := vs[0];
      if v.len <= n {
        MultiplesApart(n, v.len, u);
        AdvanceAligned(q, vs[1..], n - v.len, u);
      } else {
        MultiplesApart(v.len, n, u);
        SumOfMultiples(Addr(v), n, u);
        assert AlignedVec(q, v.(off := v.off + n, len := v.len - n), u);
      }
    }
  }

  lemma {:induction false} MultiplesApart(x: nat, y: nat, u: nat)
    requires u > 0 && x % u == 0 && y % u == 0 && y <= x
    ensures (x - y) % u == 0
  {
    assert x == x / u * u && y == y / u * u;
    DiffOfMultiples(x, y, u, x / u, y / u);
  }

  /** The queue works in logical blocks: its limits are whole numbers of them and at least one. */
  ghost predicate InBlocks(io: IoLimits) {
    && io.lbs > 0 && io.pbs > 0 && io.pbs % io.lbs == 0 && io.chunk % io.lbs == 0 && io.maxSectors >= io.lbs
    && io.maxSegs > 0
  }

  /** At a logical block such a queue takes at least one, and whole ones. */
  lemma {:induction false} BlocksMakeProgress(io: IoLimits, s: nat)
    requires InBlocks(io) && s % io.lbs == 0
    ensures MaxIoSize(io, s) > 0 && MaxIoSize(io, s) % io.lbs == 0
  {
    var l, r := io.lbs, MaxIoSize(io, s);
    MaxIoSizeAligns(io, s);
    MaxIoSizePositive(io, s);
    ChunkLeavesBlock(io, s);
    if MaxSizeOffset(io, s) + s % io.pbs >= io.pbs {
      MultipleOfMultiple(s + r, io.pbs, l);
      MultiplesApart(s + r, s, l);
    }
  }

  /** A block boundary inside a chunk is at least one block from its end. */
  lemma {:induction false} ChunkLeavesBlock(io: IoLimits, s: nat)
    requires InBlocks(io) && s % io.lbs == 0
    ensures MaxSizeOffset(io, s) >= io.lbs
  {
    if io.chunk > 0 {
      ChunkReachesBlock(io.chunk, io.lbs, s);
    }
  }

  lemma {:induction false} MultipleOfMultiple(x: nat, m: nat, l: nat)
    requires m > 0 && l > 0 && x % m == 0 && m % l == 0
    ensures x % l == 0
  {
    var a, b := x / m, m / l;
    assert x == a * m && m == b * l;
    assert x == (a * b) * l;
    Multiple(a * b, l);
  }

  lemma {:induction false} SectorUnits(x: nat, l: nat)
    requires l > 0
    ensures x % l == 0 <==> x * 512 % (l * 512) == 0
  {
    var k := x / l;
    DivBounds(x, l);
    assert x == k * l + x % l;
    assert x * 512 == k * (l * 512) + (x % l) * 512;
    assert (k + 1) * (l * 512) == k * (l * 512) + l * 512;
    Quotient(x * 512, k, l * 512);
  }

  /** The pieces so far and the rest at sector `at` make up the bio. */
  ghost predicate Splitting(q: Limits, io: IoLimits, s: nat, vs: seq<Extent>, pieces: seq<seq<Extent>>, at: nat,
                            rest: seq<Extent>)
  {
    && Sane(q) && io.pbs > 0 && io.lbs > 0 && Length(rest) <= SECTOR_CAP * 512
    && Bytes(Flat(pieces)) + Bytes(rest) == Bytes(vs)
    && s <= at && (at - s) * 512 == Length(Flat(pieces))
    && Tiles(q, io, s, pieces)
  }

  lemma {:induction false} SplitNext(q: Limits, io: IoLimits, s: nat, vs: seq<Extent>, pieces: seq<seq<Extent>>, at: nat,
                                     rest: seq<Extent>, head: seq<Extent>, left: seq<Extent>, sectors: nat)
    requires Splitting(q, io, s, vs, pieces, at, rest) && Fits(q, io, at, head)
    requires Length(left) <= Length(rest)
    requires Bytes(head) + Bytes(left) == Bytes(rest) && Length(head) == sectors * 512
    ensures Splitting(q, io, s, vs, pieces + [head], at + sectors, left)
  {
    TilesSnoc(q, io, s, at, pieces, head);
    MovePiece(pieces, head, left);
  }

  lemma {:induction false} MovePiece(pieces: seq<seq<Extent>>, head: seq<Extent>, left: seq<Extent>)
    ensures Bytes(Flat(pieces + [head])) + Bytes(left) == Bytes(Flat(pieces)) + (Bytes(head) + Bytes(left))
    ensures Length(Flat(pieces + [head])) == Length(Flat(pieces)) + Length(head)
  {
    FlatGrows(pieces, head);
  }

  lemma {:induction false} SplitEnd(q: Limits, io: IoLimits, s: nat, vs: seq<Extent>, pieces: seq<seq<Extent>>, at: nat,
                                    rest: seq<Extent>)
    requires Splitting(q, io, s, vs, pieces, at, rest) && Fits(q, io, at, rest)
    ensures Bytes(Flat(pieces + [rest])) == Bytes(vs) && Tiles(q, io, s, pieces + [rest])
  {
    TilesSnoc(q, io, s, at, pieces, rest);
    FlatGrows(pieces, rest);
  }

  lemma {:induction false} SplitStart(q: Limits, io: IoLimits, s: nat, vs: seq<Extent>)
    requires Sane(q) && io.pbs > 0 && io.lbs > 0 && Length(vs) <= SECTOR_CAP * 512
    ensures Splitting(q, io, s, vs, [], s, vs)
  {
    assert Flat([]) == [] && Bytes([]) == [];
  }

  /** bio_split: the clone keeps the first sectors and the bio is advanced past them. */
  method BioSplit(bio: seq<Extent>, sectors: nat) returns (clone: seq<Extent>, rest: seq<Extent>)
    requires 0 < sectors * 512 < Length(bio)
    ensures clone == Take(bio, sectors * 512) && rest == Advance(bio, sectors * 512)
    ensures Bytes(clone) + Bytes(rest) == Bytes(bio)
    ensures Length(clone) == sectors * 512 && Length(rest) == Length(bio) - sectors * 512
  {
    var n := sectors * 512;
    clone, rest := Take(bio, n), Advance(bio, n);
    TakeAdvance(bio, n);
    TakeLength(bio, n);
  }

  /**
   * One pass of __blk_queue_split: nothing to do exactly when the bio fits, else a piece that fits
   * and a shorter rest, aligned as the bio was.
   */
  method SplitOff(q: Limits, io: IoLimits, at: nat, rest: seq<Extent>, ghost u: nat)
    returns (split: bool, sectors: nat, head: seq<Extent>, left: seq<Extent>)
    requires AlignedLimits(q, 512) && AlignedVecs(q, rest, 512) && Length(rest) <= SECTOR_CAP * 512
    requires io.pbs > 0 && io.lbs > 0 && io.maxSegs > 0 && MaxIoSize(io, at) > 0 && InUnits(q, io, at, rest, u)
    ensures split <==> !Fits(q, io, at, rest)
    ensures split ==> Fits(q, io, at, head) && Length(head) == sectors * 512 && sectors * 512 % u == 0
    ensures split ==> Bytes(head) + Bytes(left) == Bytes(rest) && Length(left) < Length(rest)
    ensures split ==> AlignedVecs(q, left, 512) && AlignedVecs(q, left, u)
  {
    var segs;
    split, sectors, segs := BioSegmentSplit(q, io, at, rest, u);
    head, left := rest, [];
    if split {
      Multiple(sectors, 512);
      AdvanceAligned(q, rest, sectors * 512, 512);
      AdvanceAligned(q, rest, sectors * 512, u);
      head, left := BioSplit(rest, sectors);
    }
  }

  /** Wherever a whole number of units ends, the queue takes a positive whole number of them. */
  ghost predicate Progressive(io: IoLimits, u: nat) {
    && io.pbs > 0 && io.lbs > 0 && io.maxSegs > 0 && u > 0
    && forall x: nat :: x * 512 % u == 0 ==> MaxIoSize(io, x) > 0 && MaxIoSize(io, x) * 512 % u == 0
  }

  /** A bio of whole units at a unit boundary. */
  ghost predicate AtUnit(q: Limits, at: nat, rest: seq<Extent>, u: nat) {
    && u > 0 && at * 512 % u == 0
    && AlignedLimits(q, 512) && AlignedVecs(q, rest, 512) && AlignedLimits(q, u) && AlignedVecs(q, rest, u)
  }

  lemma {:induction false} NextUnit(q: Limits, at: nat, rest: seq<Extent>, u: nat, sectors: nat, left: seq<Extent>)
    requires AtUnit(q, at, rest, u) && sectors * 512 % u == 0 && AlignedVecs(q, left, 512) && AlignedVecs(q, left, u)
    ensures AtUnit(q, at + sectors, left, u)
  {
    SumOfMultiples(at * 512, sectors * 512, u);
    assert (at + sectors) * 512 == at * 512 + sectors * 512;
  }

  /** One pass where every unit boundary leaves room: the remainder starts at one again. */
  method SplitAtUnit(q: Limits, io: IoLimits, at: nat, rest: seq<Extent>, ghost u: nat)
    returns (split: bool, sectors: nat, head: seq<Extent>, left: seq<Extent>)
    requires Progressive(io, u) && AtUnit(q, at, rest, u) && Length(rest) <= SECTOR_CAP * 512
    ensures split <==> !Fits(q, io, at, rest)
    ensures split ==> Fits(q, io, at, head) && Length(head) == sectors * 512
    ensures split ==> Bytes(head) + Bytes(left) == Bytes(rest) && Length(left) < Length(rest)
    ensures split ==> AtUnit(q, at + sectors, left, u)
  {
    assert MaxIoSize(io, at) > 0;
    split, sectors, head, left := SplitOff(q, io, at, rest, u);
    if split {
      NextUnit(q, at, rest, u, sectors, left);
    }
  }

  /** Resubmission until the remainder fits, in units of any size. */
  method SplitInUnits(q: Limits, io: IoLimits, s: nat, vs: seq<Extent>, ghost u: nat) returns (pieces: seq<seq<Extent>>)
    requires Progressive(io, u) && AtUnit(q, s, vs, u) && Length(vs) <= SECTOR_CAP * 512
    ensures Bytes(Flat(pieces)) == Bytes(vs)
    ensures Tiles(q, io, s, pieces)
  {
    pieces := [];
    var rest, at: nat := vs, s;
    SplitStart(q, io, s, vs);
    var split := true;
    while split
      invariant Splitting(q, io, s, vs, pieces, at, rest) && AtUnit(q, at, rest, u)
      invariant !split ==> Fits(q, io, at, rest)
      decreases Length(rest), split
    {
      var sectors, head, left;
      split, sectors, head, left := SplitAtUnit(q, io, at, rest, u);
      if split {
        SplitNext(q, io, s, vs, pieces, at, rest, head, left, sectors);
        pieces := pieces + [head];
        rest, at := left, at + sectors;
      }
    }
    SplitEnd(q, io, s, vs, pieces, at, rest);
    pieces := pieces + [rest];
  }

  /** No sector leaves an I/O of size zero. */
  ghost predicate NonZero(io: IoLimits) {
    io.pbs > 0 && io.lbs > 0 && io.maxSegs > 0 && forall x: nat :: MaxIoSize(io, x) > 0
  }

  /**
   * What __blk_queue_split comes to over resubmissions: the remainder is advanced and comes back
   * until it fits. This always ends, and the pieces together are the original bio.
   */
  method SplitAll(q: Limits, io: IoLimits, s: nat, vs: seq<Extent>) returns (pieces: seq<seq<Extent>>)
    requires AlignedLimits(q, 512) && AlignedVecs(q, vs, 512) && Length(vs) <= SECTOR_CAP * 512 && NonZero(io)
    ensures Bytes(Flat(pieces)) == Bytes(vs)
    ensures Tiles(q, io, s, pieces)
  {
    SectorsAreUnits(io, s);
    pieces := SplitInUnits(q, io, s, vs, 512);
  }

  lemma {:induction false} SectorsAreUnits(io: IoLimits, s: nat)
    requires NonZero(io)
    ensures Progressive(io, 512) && s * 512 % 512 == 0
  {
    forall x: nat
      ensures MaxIoSize(io, x) > 0 && MaxIoSize(io, x) * 512 % 512 == 0
    {
      Multiple(MaxIoSize(io, x), 512);
    }
    Multiple(s, 512);
  }

  // ---- which limits always make progress

  /**
   * Without a chunk, or with chunks of whole physical blocks, the limits alone decide: every sector
   * makes progress if and only if one logical or one physical block is allowed.
   */
  lemma {:induction false} LimitsDecideProgress(io: IoLimits)
    requires io.pbs > 0 && io.lbs > 0 && io.chunk % io.pbs == 0
    ensures NonZero(io) <==> io.maxSegs > 0 && (io.maxSectors >= io.lbs || io.maxSectors >= io.pbs)
  {
    if io.maxSectors >= io.lbs || io.maxSectors >= io.pbs {
      forall x: nat
        ensures MaxIoSize(io, x) > 0
      {
        MaxIoSizePositive(io, x);
        if io.chunk > 0 {
          ChunkReachesBlock(io.chunk, io.pbs, x);
        }
      }
    } else {
      MaxIoSizePositive(io, 0);
      assert MaxIoSize(io, 0) == 0;
    }
  }

  /** The end of a chunk of whole physical blocks is at or after the end of the block at hand. */
  lemma {:induction false} ChunkReachesBlock(chunk: nat, pbs: nat, x: nat)
    requires chunk > 0 && pbs > 0 && chunk % pbs == 0
    ensures chunk - x % chunk + x % pbs >= pbs
  {
    var k, j := chunk / pbs, x / pbs;
    DivBounds(chunk, pbs);
    assert chunk == k * pbs;
    Parts(x, j, pbs, k);
    BlockEndsInChunk(pbs, k, j / k, j % k, x % pbs);
  }

  lemma {:induction false} BlockEndsInChunk(p: nat, k: nat, z: nat, r: nat, off: nat)
    requires p > 0 && k > 0 && r < k && off < p
    ensures k * p - ((z * k + r) * p + off) % (k * p) + off >= p
  {
    PageRemainder(p, k, z, r, off);
    Scale(r + 1, k, p);
  }

  /** With logical blocks of one sector any chunk will do. */
  lemma {:induction false} OneSectorBlocks(io: IoLimits)
    requires io.lbs == 1 && io.pbs > 0
    ensures NonZero(io) <==> io.maxSegs > 0 && io.maxSectors > 0
  {
    forall x: nat
      ensures MaxIoSize(io, x) > 0 <==> io.maxSectors > 0
    {
      MaxIoSizePositive(io, x);
      MaxIoSizeAligns(io, x);
    }
    assert io.maxSectors == 0 ==> MaxIoSize(io, 0) == 0;
  }

  // ---- bios of whole logical blocks

  lemma {:induction false} BlocksAreUnits(q: Limits, io: IoLimits, s: nat, vs: seq<Extent>)
    requires InBlocks(io) && s % io.lbs == 0 && AlignedLimits(q, io.lbs * 512) && AlignedVecs(q, vs, io.lbs * 512)
    ensures Progressive(io, io.lbs * 512) && AtUnit(q, s, vs, io.lbs * 512)
  {
    var u := io.lbs * 512;
    SectorUnits(s, io.lbs);
    forall x: nat | x * 512 % u == 0
      ensures MaxIoSize(io, x) > 0 && MaxIoSize(io, x) * 512 % u == 0
    {
      SectorUnits(x, io.lbs);
      BlocksMakeProgress(io, x);
      SectorUnits(MaxIoSize(io, x), io.lbs);
    }
    UnitsAreSectors(q, vs, io.lbs);
  }

  lemma {:induction false} UnitsAreSectors(q: Limits, vs: seq<Extent>, l: nat)
    requires l > 0 && AlignedLimits(q, l * 512) && AlignedVecs(q, vs, l * 512)
    ensures AlignedLimits(q, 512) && AlignedVecs(q, vs, 512)
  {
    var u := l * 512;
    Multiple(l, 512);
    MultipleOfMultiple(q.maxSize, u, 512);
    MultipleOfMultiple(q.window, u, 512);
    forall i | 0 <= i < |vs|
      ensures AlignedVec(q, vs[i], 512)
    {
      MultipleOfMultiple(vs[i].len, u, 512);
      MultipleOfMultiple(Addr(vs[i]), u, 512);
    }
  }

  /** A bio of whole logical blocks is split at logical blocks only, whatever the chunk. */
  method SplitBlocks(q: Limits, io: IoLimits, s: nat, vs: seq<Extent>) returns (pieces: seq<seq<Extent>>)
    requires InBlocks(io) && s % io.lbs == 0 && Length(vs) <= SECTOR_CAP * 512
    requires AlignedLimits(q, io.lbs * 512) && AlignedVecs(q, vs, io.lbs * 512)
    ensures Bytes(Flat(pieces)) == Bytes(vs)
    ensures Tiles(q, io, s, pieces)
  {
    BlocksAreUnits(q, io, s, vs);
    pieces := SplitInUnits(q, io, s, vs, io.lbs * 512);
  }
}
