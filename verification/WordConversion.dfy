/**
 Converting single words between IEEE and DEC byte order (cnvr14.c, cnvr41.c), with the right
 shift of signed integers as the source has it.
 */
module WordConversion {
  /** `w >> 8`, `w >> 16` and `w >> 24` for a signed word. */
  function Asr8(w: bv32): bv32 {
    (w >> (8 as bv5)) | (if w & 0x8000_0000 == 0 then 0 else 0xff00_0000)
  }

  function Asr16(w: bv32): bv32 {
    (w >> (16 as bv5)) | (if w & 0x8000_0000 == 0 then 0 else 0xffff_0000)
  }

  function Asr24(w: bv32): bv32 {
    (w >> (24 as bv5)) | (if w & 0x8000_0000 == 0 then 0 else 0xffff_ff00)
  }

  function SwapBytes(w: bv32): bv32 {
    (((w << (24 as bv5)) | Asr24(w)) | ((w & 65280) << (8 as bv5))) | Asr8(w & 16711680)
  }

  function SwapHalves(w: bv32): bv32 {
    (w << (16 as bv5)) | Asr16(w)
  }

  /** A word of type `k` from IEEE to DEC. */
  function Conv14(k: nat, w: bv32): bv32 {
    if k == 3 || k == 5 then SwapBytes(w) else if k == 4 then SwapHalves(w) else w
  }

  /** A word of type `k` from DEC to IEEE. */
  function Conv41(k: nat, w: bv32): bv32 {
    if k == 1 then (if w == 0x8000_0000 then 0 else w)
    else if k == 3 || k == 5 then SwapBytes(w)
    else if k == 4 then SwapHalves(w)
    else w
  }

  /** The words that survive: no sign bit is dragged along, or all bits are set anyway. */
  predicate Survives(k: nat, w: bv32) {
    if k == 1 then w != 0x8000_0000
    else if k == 3 || k == 5 then w & 0x8000_0080 == 0 || w == 0xffff_ffff
    else if k == 4 then w & 0x8000_8000 == 0 || w == 0xffff_ffff
    else true
  }

  // ---- What becomes of bytes and halves -----------------------------------------------------------------

  /**
   Byte `i` of `r` is byte `3 - i` of `w`.  With the highest bit set the shift drags ones along: only the lowest
   byte is one of `w` then, all other bits are set.
   */
  predicate BytesOver(w: bv32, r: bv32) {
    && r & 0xff == (w >> (24 as bv5)) & 0xff
    && if w & 0x8000_0000 == 0 then
         && (r >> (8 as bv5)) & 0xff == (w >> (16 as bv5)) & 0xff
         && (r >> (16 as bv5)) & 0xff == (w >> (8 as bv5)) & 0xff
         && (r >> (24 as bv5)) & 0xff == w & 0xff
       else r & 0xffff_ff00 == 0xffff_ff00
  }

  /** The same for the two halves. */
  predicate HalvesOver(w: bv32, r: bv32) {
    && r & 0xffff == w >> (16 as bv5)
    && if w & 0x8000_0000 == 0 then (r >> (16 as bv5)) & 0xffff == w & 0xffff
       else r & 0xffff_0000 == 0xffff_0000
  }

  lemma BytesMirrored(w: bv32)
    ensures BytesOver(w, SwapBytes(w))
  {
  }

  lemma LowHalfClear(w: bv32)
    ensures w & 0x8000_0000 == 0 ==> SwapHalves(w) & 0xffff == w >> (16 as bv5)
  {
  }

  lemma LowHalfHigh(w: bv32)
    ensures w & 0x8000_0000 != 0 ==> SwapHalves(w) & 0xffff == w >> (16 as bv5)
  {
  }

  lemma HighHalf(w: bv32)
    ensures w & 0x8000_0000 == 0 ==> (SwapHalves(w) >> (16 as bv5)) & 0xffff == w & 0xffff
    ensures w & 0x8000_0000 != 0 ==> SwapHalves(w) & 0xffff_0000 == 0xffff_0000
  {
  }

  lemma HalvesMirrored(w: bv32)
    ensures HalvesOver(w, SwapHalves(w))
  {
    hide SwapHalves;
    LowHalfClear(w);
    LowHalfHigh(w);
    HighHalf(w);
  }

  /** What conversion does to a word of type `k`, in either direction. */
  lemma WordConverted(k: nat, w: bv32, back: bool)
    ensures var r := if back then Conv41(k, w) else Conv14(k, w);
            if k == 3 || k == 5 then BytesOver(w, r)
            else if k == 4 then HalvesOver(w, r)
            else r == if k == 1 && back && w == 0x8000_0000 then 0 else w
  {
    hide SwapBytes, SwapHalves, BytesOver, HalvesOver;
    BytesMirrored(w);
    HalvesMirrored(w);
  }

  /** A text of four characters, and two short integers. */
  lemma OneWordEach(back: bool)
    ensures var r := if back then Conv41(3, 0x0102_0304) else Conv14(3, 0x0102_0304); r == 0x0403_0201
    ensures var r := if back then Conv41(4, 0x0102_0304) else Conv14(4, 0x0102_0304); r == 0x0304_0102
  {
  }

  // ---- There and back -----------------------------------------------------------------------------------

  lemma BytesClear(w: bv32)
    ensures w & 0x8000_0080 == 0 ==> SwapBytes(SwapBytes(w)) == w
  {
  }

  lemma BytesHigh(w: bv32)
    ensures w & 0x8000_0000 != 0 ==> SwapBytes(SwapBytes(w)) == 0xffff_ffff
  {
  }

  lemma BytesLow(w: bv32)
    ensures w & 0x8000_0080 == 0x80 ==> SwapBytes(SwapBytes(w)) & 0x8000_0000 != 0
  {
  }

  lemma HalvesClear(w: bv32)
    ensures w & 0x8000_8000 == 0 ==> SwapHalves(SwapHalves(w)) == w
  {
  }

  lemma HalvesHigh(w: bv32)
    ensures w & 0x8000_0000 != 0 ==> SwapHalves(SwapHalves(w)) == 0xffff_ffff
  {
  }

  lemma HalvesLow(w: bv32)
    ensures w & 0x8000_8000 == 0x8000 ==> SwapHalves(SwapHalves(w)) & 0x8000_0000 != 0
  {
  }

  lemma Masks(w: bv32)
    ensures w & 0x8000_0080 == 0 || w & 0x8000_0000 != 0 || w & 0x8000_0080 == 0x80
    ensures w & 0x8000_8000 == 0 || w & 0x8000_0000 != 0 || w & 0x8000_8000 == 0x8000
    ensures w & 0x8000_0080 == 0x80 ==> w & 0x8000_0000 == 0
    ensures w & 0x8000_8000 == 0x8000 ==> w & 0x8000_0000 == 0
    ensures w & 0x8000_0000 == 0 ==> w != 0xffff_ffff
    ensures w & 0x8000_0000 != 0 ==> w & 0x8000_0080 != 0 && w & 0x8000_8000 != 0
  {
  }

  /** Swapping bytes twice. */
  lemma SwapBytesTwice(w: bv32)
    ensures SwapBytes(SwapBytes(w)) == w <==> (w & 0x8000_0080 == 0 || w == 0xffff_ffff)
  {
    hide SwapBytes;
    BytesClear(w);
    BytesHigh(w);
    BytesLow(w);
    Masks(w);
  }

  /** Swapping halves twice. */
  lemma SwapHalvesTwice(w: bv32)
    ensures SwapHalves(SwapHalves(w)) == w <==> (w & 0x8000_8000 == 0 || w == 0xffff_ffff)
  {
    hide SwapHalves;
    HalvesClear(w);
    HalvesHigh(w);
    HalvesLow(w);
    Masks(w);
  }

  /** Back and forth is the identity on exactly the words that survive. */
  lemma ThereAndBack(k: nat, w: bv32)
    ensures Conv41(k, Conv14(k, w)) == w <==> Survives(k, w)
    ensures k == 1 && w == 0x8000_0000 ==> Conv41(k, Conv14(k, w)) == 0
  {
    hide SwapBytes, SwapHalves;
    SwapBytesTwice(w);
    SwapHalvesTwice(w);
  }
}
