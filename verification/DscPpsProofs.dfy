/** Reading a packed picture parameter set returns the configuration it was packed from. */
module DscPpsProofs {
  import opened DscPps

  // ----- Fields within their widths -----

  ghost predicate Byte(x: nat) { x < 256 }

  ghost predicate Short(x: nat) { x < 65536 }

  ghost predicate HeadFits(h: Head, bpp: nat) {
    h.minor < 16 && h.major < 16 && Byte(h.id) && h.lineBufDepth < 16 && h.bpc < 16 && bpp < 1024
  }

  ghost predicate DimsFit(d: Dims) {
    Short(d.picHeight) && Short(d.picWidth) && Short(d.sliceHeight) && Short(d.sliceWidth) && Short(d.chunkSize)
  }

  ghost predicate DelaysFit(d: Delays) {
    d.xmit < 1024 && Short(d.dec) && d.scale < 64 && Short(d.increment) && d.decrement < 4096
  }

  ghost predicate OffsetsFit(o: Offsets) {
    o.firstLine < 32 && Short(o.nfl) && Short(o.slice) && Short(o.initial) && Short(o.final)
  }

  ghost predicate RatesFit(r: Rates) {
    r.flatMin < 32 && r.flatMax < 32 && Short(r.modelSize) && r.edge < 16
  }

  ghost predicate LimitsFit(l: Limits) {
    l.limit0 < 32 && l.limit1 < 32 && l.high < 16 && l.low < 16
  }

  ghost predicate RangeFits(r: Range) {
    r.minQp < 32 && r.maxQp < 32 && -32 <= r.bpgOffset < 32
  }

  ghost predicate NativeFits(n: Native) {
    Byte(n.secondLine) && Short(n.nsl) && Short(n.adjust) && !(n.native422 && n.native420)
  }

  ghost predicate Fits(c: Config) {
    && Shaped(c) && HeadFits(c.head, PackedBpp(c)) && DimsFit(c.dims) && DelaysFit(c.delays) && OffsetsFit(c.offsets)
    && RatesFit(c.rates) && LimitsFit(c.limits) && (forall i :: 0 <= i < THRESHOLDS ==> Byte(c.thresholds[i]))
    && (forall i :: 0 <= i < RANGES ==> RangeFits(c.ranges[i])) && NativeFits(c.native)
  }

  // ----- Group by group -----

  lemma WordBack(x: nat)
    requires Short(x)
    ensures Word(Hi(x), Lo(x)) == x
  {
  }

  lemma NibblesBack(hi: nat, lo: nat)
    requires hi < 16 && lo < 16
    ensures (hi * 16 + lo) / 16 == hi && (hi * 16 + lo) % 16 == lo && hi % 16 == hi && lo % 16 == lo
  {
  }

  lemma HeadBack(h: Head, bpp: nat)
    requires HeadFits(h, bpp)
    ensures ReadHead(HeadBytes(h, bpp)) == h.(bitsPerPixel := bpp)
  {
    hide Word, Lo, Bit;
    NibblesBack(h.major, h.minor);
    NibblesBack(h.bpc, h.lineBufDepth);
    TopBitsBack(bpp);
    FlagsBack(bpp / 256 % 4, h.blockPred, h.convertRgb, h.simple422, h.vbr);
    Small((h.minor + h.major * 16), 256);
    Small(h.id, 256);
  }

  lemma Small(x: nat, n: nat)
    requires x < n
    ensures x % n == x
  {
  }

  lemma FlagsBack(two: nat, a: bool, b: bool, c: bool, d: bool)
    requires two < 4
    ensures var x := two + Bit(a) * 32 + Bit(b) * 16 + Bit(c) * 8 + Bit(d) * 4;
      && x % 4 == two && (x / 32 % 2 == 1 <==> a) && (x / 16 % 2 == 1 <==> b) && (x / 8 % 2 == 1 <==> c)
      && (x / 4 % 2 == 1 <==> d)
  {
    var x := two + Bit(a) * 32 + Bit(b) * 16 + Bit(c) * 8 + Bit(d) * 4;
    assert x / 4 == Bit(a) * 8 + Bit(b) * 4 + Bit(c) * 2 + Bit(d);
    assert x / 8 == Bit(a) * 4 + Bit(b) * 2 + Bit(c);
    assert x / 16 == Bit(a) * 2 + Bit(b);
    assert x / 32 == Bit(a);
  }

  lemma {:induction false} DimsBack(d: Dims)
    requires DimsFit(d)
    ensures ReadDims(DimsBytes(d)) == d
  {
    hide Word, Hi, Lo;
    WordBack(d.picHeight);
    WordBack(d.picWidth);
    WordBack(d.sliceHeight);
    WordBack(d.sliceWidth);
    WordBack(d.chunkSize);
  }

  lemma {:induction false} DelaysBack(d: Delays)
    requires DelaysFit(d)
    ensures ReadDelays(DelaysBytes(d)) == d
  {
    hide Word, Hi, Lo;
    TopBitsBack(d.xmit);
    TopBitsBack(d.decrement);
    WordBack(d.dec);
    WordBack(d.increment);
  }

  // A field whose high byte has room for fewer bits
  lemma TopBitsBack(x: nat)
    ensures x < 1024 ==> Word(x / 256 % 4 % 4, Lo(x)) == x
    ensures x < 4096 ==> Word(x / 256 % 16 % 16, Lo(x)) == x
  {
    assert x == 256 * (x / 256) + x % 256;
  }

  lemma {:induction false} OffsetsBack(o: Offsets)
    requires OffsetsFit(o)
    ensures ReadOffsets(OffsetsBytes(o)) == o
  {
    hide Word, Hi, Lo;
    WordBack(o.nfl);
    WordBack(o.slice);
    WordBack(o.initial);
    WordBack(o.final);
  }

  lemma RatesBack(r: Rates)
    requires RatesFit(r)
    ensures ReadRates(RatesBytes(r)) == r
  {
    hide Word, Hi, Lo;
    WordBack(r.modelSize);
  }

  lemma LimitsBack(l: Limits)
    requires LimitsFit(l)
    ensures ReadLimits(LimitsBytes(l)) == l
  {
    NibblesBack(l.high, l.low);
  }

  lemma QpsBack(low: nat, high: nat, rest: nat)
    requires low < 32 && high < 32 && rest < 64
    ensures var a, b := low % 32 * 8 + high / 4 % 8, high % 4 * 64 + rest;
      a / 8 == low && a % 8 * 4 + b / 64 == high && b % 64 == rest
  {
    var q, m := high / 4, high % 4;
    assert high == 4 * q + m && q < 8 && m < 4;
    assert (low * 8 + q) / 8 == low && (low * 8 + q) % 8 == q;
    assert (m * 64 + rest) / 64 == m && (m * 64 + rest) % 64 == rest;
  }

  lemma SignedBack(x: int)
    requires -32 <= x < 32
    ensures 0 <= x % 64 < 64 && Signed6(x % 64) == x
  {
    assert x % 64 == if x < 0 then x + 64 else x;
  }

  lemma RangeBack(r: Range)
    requires RangeFits(r)
    ensures ReadRange(RangeBytes(r)) == r
  {
    hide Signed6;
    SignedBack(r.bpgOffset);
    QpsBack(r.minQp, r.maxQp, r.bpgOffset % 64);
  }

  lemma {:induction false} RangesBack(rs: seq<Range>)
    requires forall i :: 0 <= i < |rs| ==> RangeFits(rs[i])
    ensures ReadRanges(RangesBytes(rs)) == rs
  {
    if rs != [] {
      var init, last := rs[..|rs| - 1], rs[|rs| - 1];
      RangesBack(init);
      RangeBack(last);
      var b := RangesBytes(rs);
      assert b[..|b| - 2] == RangesBytes(init) && b[|b| - 2..] == RangeBytes(last);
    }
  }

  lemma NativeBack(n: Native, stale: nat)
    requires NativeFits(n)
    ensures var m := ReadNative(NativeBytes(n, stale));
      && m.secondLine == n.secondLine && m.nsl == n.nsl && m.adjust == n.adjust
      && (n.native422 || n.native420 ==> m == n)
      && (!n.native422 && !n.native420 ==> (m == n <==> stale % 4 == 0))
  {
    WordBack(n.nsl);
    WordBack(n.adjust);
  }

  // ----- The whole buffer -----

  lemma Slices(c: Config, len: nat)
    requires Shaped(c) && len >= PPS_SIZE
    ensures var b := Pack(c, len);
      && b[..6] == HeadBytes(c.head, PackedBpp(c)) && b[6..16] == DimsBytes(c.dims)
      && b[16..26] == DelaysBytes(c.delays) && b[26..36] == OffsetsBytes(c.offsets) && b[36..41] == RatesBytes(c.rates)
      && b[41..44] == LimitsBytes(c.limits)
      && b[44..58] == ThresholdBytes(c.thresholds) && b[58..88] == RangesBytes(c.ranges)
      && b[88..94] == if c.head.minor == 2 then NativeBytes(c.native, b[87]) else Zeros(6)
  {
    hide HeadBytes, DimsBytes, DelaysBytes, OffsetsBytes, RatesBytes, LimitsBytes, ThresholdBytes, RangesBytes, NativeBytes;
    var b, k := Pack(c, len), Common(c);
    assert b[..88] == k;
    assert k[..6] == HeadBytes(c.head, PackedBpp(c)) && k[6..16] == DimsBytes(c.dims);
    assert k[16..26] == DelaysBytes(c.delays) && k[26..36] == OffsetsBytes(c.offsets) && k[36..41] == RatesBytes(c.rates);
    assert k[41..44] == LimitsBytes(c.limits);
    assert k[44..58] == ThresholdBytes(c.thresholds) && k[58..88] == RangesBytes(c.ranges);
    assert forall i, j :: 0 <= i <= j <= 88 ==> b[i..j] == b[..88][i..j];
  }

  /** Whatever is not a field is zero: the reserved bytes, and everything from byte 94 on, or from byte 88 on
      for DSC 1.1. */
  lemma RestIsZero(c: Config, len: nat, k: nat)
    requires Shaped(c) && len >= PPS_SIZE && k < len
    requires k in {2, 20, 26} || k >= 94 || (k >= 88 && c.head.minor != 2)
    ensures Pack(c, len)[k] == 0
  {
    Slices(c, len);
    var b := Pack(c, len);
    assert b[2] == b[..6][2] && b[20] == b[16..26][4] && b[26] == b[26..36][0];
  }

  /** For every configuration whose fields fit their widths, reading the packed buffer returns it, exactly
      when byte 88 tells the truth: for DSC 1.2 without a native format that byte repeats byte 87, and its
      two flags are right only when the low bits of that byte are clear. */
  lemma {:induction false} ReadsBackIff(c: Config, len: nat)
    requires Fits(c) && len >= PPS_SIZE
    requires c.head.minor != 2 ==> c.native == Native(false, false, 0, 0, 0)
    ensures Read(Pack(c, len)) == c <==>
      c.head.minor != 2 || IsNative(c) || c.ranges[RANGES - 1].bpgOffset % 4 == 0
  {
    hide HeadBytes, DimsBytes, DelaysBytes, OffsetsBytes, RatesBytes, LimitsBytes, ThresholdBytes, RangesBytes, NativeBytes,
         ReadHead, ReadDims, ReadDelays, ReadOffsets, ReadRates, ReadLimits, ReadRanges, ReadNative, Pack, ReadRange;
    var b := Pack(c, len);
    Slices(c, len);
    HeadBack(c.head, PackedBpp(c));
    DimsBack(c.dims);
    DelaysBack(c.delays);
    OffsetsBack(c.offsets);
    RatesBack(c.rates);
    LimitsBack(c.limits);
    RangesBack(c.ranges);
    assert b[44..58] == c.thresholds;
    LastByte(c, len);
    if c.head.minor == 2 {
      NativeBack(c.native, b[87]);
    } else {
      ZeroNative();
    }
  }

  lemma ZeroNative()
    ensures ReadNative(Zeros(6)) == Native(false, false, 0, 0, 0)
  {
  }

  lemma {:induction false} LastByte(c: Config, len: nat)
    requires Fits(c) && len >= PPS_SIZE
    ensures var last := c.ranges[RANGES - 1];
      && Pack(c, len)[87] == last.maxQp % 4 * 64 + last.bpgOffset % 64
      && (Pack(c, len)[87] % 4 == 0 <==> last.bpgOffset % 4 == 0)
  {
    Slices(c, len);
    var b, last := Pack(c, len), c.ranges[RANGES - 1];
    assert b[87] == b[58..88][29] == RangesBytes(c.ranges)[29] == RangeBytes(last)[1];
    ModFour(last.maxQp % 4, last.bpgOffset);
  }

  lemma ModFour(q: nat, x: int)
    requires q < 4 && -32 <= x < 32
    ensures (q * 64 + x % 64) % 4 == x % 4
  {
    assert x % 64 == if x < 0 then x + 64 else x;
  }

  /** Every offset table ends in -12, so the flags of a populated configuration are right, but byte 88 of a
      DSC 1.2 set without a native format is not zero: its reserved bits hold 52, and more. */
  lemma ReservedBitsSet(c: Config, len: nat, last: Range)
    requires Fits(c) && len >= PPS_SIZE && c.head.minor == 2 && !IsNative(c)
    requires last == c.ranges[RANGES - 1] && last.bpgOffset == -12
    ensures Pack(c, len)[88] == last.maxQp % 4 * 64 + 52
  {
    hide Pack;
    LastByte(c, len);
    RepeatedByte(c, len);
  }

  lemma RepeatedByte(c: Config, len: nat)
    requires Shaped(c) && len >= PPS_SIZE && c.head.minor == 2 && !IsNative(c)
    ensures Pack(c, len)[88] == Pack(c, len)[87]
  {
    Slices(c, len);
    assert Pack(c, len)[88] == Pack(c, len)[88..94][0];
  }
}
