/**
 * The 64-bit table entry (include/linux/badblocks.h): nine bits of length less one, 54 bits of
 * offset, and the acknowledged flag on top.
 */
module BadblocksEntry {
  function Make(a: bv64, l: bv64, ack: bool): (x: bv64) {
    (a << 9) | (l - 1) | (if ack then 0x8000_0000_0000_0000 else 0)
  }

  function Offset(x: bv64): (a: bv64) { (x & 0x7FFF_FFFF_FFFF_FE00) >> 9 }

  function Len(x: bv64): (l: bv64) { (x & 0x1FF) + 1 }

  predicate Ack(x: bv64) { x & 0x8000_0000_0000_0000 != 0 }

  /** An entry gives back what was packed exactly when the length and the offset are in range. */
  lemma {:induction false} EntryRoundTrip(a: bv64, l: bv64, ack: bool)
    ensures (Offset(Make(a, l, ack)) == a && Len(Make(a, l, ack)) == l && Ack(Make(a, l, ack)) == ack
             <==> a < 0x40_0000_0000_0000 && 1 <= l <= 512)
  {
    var x := Make(a, l, ack);
    assert a < 0x40_0000_0000_0000 ==> (a << 9) >> 9 == a;
  }
}
