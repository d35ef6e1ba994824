/**
 The picture parameter set as msm/sde_dsc_helper.c packs it, and as section 4.1 of VESA DSC reads it.
 */
module DscPps {

  const PPS_SIZE: nat := 128
  const THRESHOLDS: nat := 14
  const RANGES: nat := 15

  // Fields of struct drm_dsc_config, grouped as they lie in the buffer.
  datatype Head = Head(minor: nat, major: nat, id: nat, lineBufDepth: nat, bpc: nat, bitsPerPixel: nat,
                       blockPred: bool, convertRgb: bool, simple422: bool, vbr: bool)
  datatype Dims = Dims(picHeight: nat, picWidth: nat, sliceHeight: nat, sliceWidth: nat, chunkSize: nat)
  datatype Delays = Delays(xmit: nat, dec: nat, scale: nat, increment: nat, decrement: nat)
  datatype Offsets = Offsets(firstLine: nat, nfl: nat, slice: nat, initial: nat, final: nat)
  datatype Rates = Rates(flatMin: nat, flatMax: nat, modelSize: nat, edge: nat)
  datatype Limits = Limits(limit0: nat, limit1: nat, high: nat, low: nat)
  datatype Range = Range(minQp: nat, maxQp: nat, bpgOffset: int)
  datatype Native = Native(native422: bool, native420: bool, secondLine: nat, nsl: nat, adjust: nat)
  datatype Config = Config(head: Head, dims: Dims, delays: Delays, offsets: Offsets, rates: Rates, limits: Limits,
                           thresholds: seq<nat>, ranges: seq<Range>, native: Native)

  // ----- Bytes -----

  function Hi(x: nat): nat {
    x / 256 % 256
  }

  function Lo(x: nat): nat {
    x % 256
  }

  function Bit(b: bool): nat {
    if b then 1 else 0
  }

  function IsNative(c: Config): bool {
    c.native.native422 || c.native.native420
  }

  // The bits per pixel that go into the buffer
  function PackedBpp(c: Config): nat {
    if IsNative(c) then 2 * c.head.bitsPerPixel else c.head.bitsPerPixel
  }

  function HeadBytes(h: Head, bpp: nat): (r: seq<nat>)
    ensures |r| == 6
  {
    [(h.minor + h.major * 16) % 256, h.id % 256, 0, h.lineBufDepth % 16 + h.bpc % 16 * 16,
     bpp / 256 % 4 + Bit(h.blockPred) * 32 + Bit(h.convertRgb) * 16 + Bit(h.simple422) * 8 + Bit(h.vbr) * 4,
     Lo(bpp)]
  }

  function DimsBytes(d: Dims): (r: seq<nat>)
    ensures |r| == 10
  {
    [Hi(d.picHeight), Lo(d.picHeight), Hi(d.picWidth), Lo(d.picWidth), Hi(d.sliceHeight), Lo(d.sliceHeight),
     Hi(d.sliceWidth), Lo(d.sliceWidth), Hi(d.chunkSize), Lo(d.chunkSize)]
  }

  function DelaysBytes(d: Delays): (r: seq<nat>)
    ensures |r| == 10
  {
    [d.xmit / 256 % 4, Lo(d.xmit), Hi(d.dec), Lo(d.dec), 0, d.scale % 64, Hi(d.increment), Lo(d.increment),
     d.decrement / 256 % 16, Lo(d.decrement)]
  }

  function OffsetsBytes(o: Offsets): (r: seq<nat>)
    ensures |r| == 10
  {
    [0, o.firstLine % 32, Hi(o.nfl), Lo(o.nfl), Hi(o.slice), Lo(o.slice), Hi(o.initial), Lo(o.initial),
     Hi(o.final), Lo(o.final)]
  }

  function RatesBytes(r: Rates): (s: seq<nat>)
    ensures |s| == 5
  {
    [r.flatMin % 32, r.flatMax % 32, Hi(r.modelSize), Lo(r.modelSize), r.edge % 16]
  }

  function LimitsBytes(l: Limits): (s: seq<nat>)
    ensures |s| == 3
  {
    [l.limit0 % 32, l.limit1 % 32, l.high % 16 * 16 + l.low % 16]
  }

  function ThresholdBytes(t: seq<nat>): (r: seq<nat>)
    ensures |r| == |t| && forall i :: 0 <= i < |r| ==> r[i] == t[i] % 256
  {
    seq(|t|, i requires 0 <= i < |t| => t[i] % 256)
  }

  // A range's two bytes: 5 bits of minimum, 5 of maximum, and the offset in 6 bits of two's complement
  function RangeBytes(r: Range): (s: seq<nat>)
    ensures |s| == 2
  {
    [r.minQp % 32 * 8 + r.maxQp / 4 % 8, r.maxQp % 4 * 64 + r.bpgOffset % 64]
  }

  function RangesBytes(rs: seq<Range>): (s: seq<nat>)
    ensures |s| == 2 * |rs|
  {
    if rs == [] then [] else RangesBytes(rs[..|rs| - 1]) + RangeBytes(rs[|rs| - 1])
  }

  // Byte 88: `stale` is the byte written last, which is written again when neither format is native.
  function NativeBytes(n: Native, stale: nat): (r: seq<nat>)
    ensures |r| == 6
  {
    [if n.native422 then 1 else if n.native420 then 2 else stale, n.secondLine % 256, Hi(n.nsl), Lo(n.nsl),
     Hi(n.adjust), Lo(n.adjust)]
  }

  function Zeros(n: nat): (r: seq<nat>)
    ensures |r| == n && forall i :: 0 <= i < n ==> r[i] == 0
  {
    seq(n, i => 0)
  }

  ghost predicate Shaped(c: Config) {
    |c.thresholds| == THRESHOLDS && |c.ranges| == RANGES
  }

  function Common(c: Config): (r: seq<nat>)
    requires Shaped(c)
    ensures |r| == 88
  {
    HeadBytes(c.head, PackedBpp(c)) + DimsBytes(c.dims) + DelaysBytes(c.delays) + OffsetsBytes(c.offsets)
    + RatesBytes(c.rates) + LimitsBytes(c.limits) + ThresholdBytes(c.thresholds) + RangesBytes(c.ranges)
  }

  // What sde_dsc_create_pps_buf_cmd leaves in a buffer of `len` bytes
  function Pack(c: Config, len: nat): (r: seq<nat>)
    requires Shaped(c) && len >= PPS_SIZE
    ensures |r| == len
  {
    var common := Common(c);
    if c.head.minor == 2 then common + NativeBytes(c.native, common[87]) + Zeros(len - 94) else common + Zeros(len - 88)
  }

  // ----- Reading it back -----

  function Word(hi: nat, lo: nat): nat {
    hi * 256 + lo
  }

  function ReadHead(b: seq<nat>): Head
    requires |b| == 6
  {
    Head(b[0] % 16, b[0] / 16, b[1], b[3] % 16, b[3] / 16, Word(b[4] % 4, b[5]), b[4] / 32 % 2 == 1, b[4] / 16 % 2 == 1,
         b[4] / 8 % 2 == 1, b[4] / 4 % 2 == 1)
  }

  function ReadDims(b: seq<nat>): Dims
    requires |b| == 10
  {
    Dims(Word(b[0], b[1]), Word(b[2], b[3]), Word(b[4], b[5]), Word(b[6], b[7]), Word(b[8], b[9]))
  }

  function ReadDelays(b: seq<nat>): Delays
    requires |b| == 10
  {
    Delays(Word(b[0] % 4, b[1]), Word(b[2], b[3]), b[5] % 64, Word(b[6], b[7]), Word(b[8] % 16, b[9]))
  }

  function ReadOffsets(b: seq<nat>): Offsets
    requires |b| == 10
  {
    Offsets(b[1] % 32, Word(b[2], b[3]), Word(b[4], b[5]), Word(b[6], b[7]), Word(b[8], b[9]))
  }

  function ReadRates(b: seq<nat>): Rates
    requires |b| == 5
  {
    Rates(b[0] % 32, b[1] % 32, Word(b[2], b[3]), b[4] % 16)
  }

  function ReadLimits(b: seq<nat>): Limits
    requires |b| == 3
  {
    Limits(b[0] % 32, b[1] % 32, b[2] / 16, b[2] % 16)
  }

  function Signed6(x: nat): int {
    if x < 32 then x else x - 64
  }

  function ReadRange(b: seq<nat>): Range
    requires |b| == 2
  {
    Range(b[0] / 8, b[0] % 8 * 4 + b[1] / 64, Signed6(b[1] % 64))
  }

  function ReadRanges(b: seq<nat>): seq<Range>
    requires |b| % 2 == 0
  {
    if b == [] then [] else ReadRanges(b[..|b| - 2]) + [ReadRange(b[|b| - 2..])]
  }

  function ReadNative(b: seq<nat>): Native
    requires |b| == 6
  {
    Native(b[0] % 2 == 1, b[0] / 2 % 2 == 1, b[1], Word(b[2], b[3]), Word(b[4], b[5]))
  }

  // The configuration a decoder reads; bits per pixel are halved again for the native formats.
  function Read(b: seq<nat>): Config
    requires |b| >= PPS_SIZE
  {
    var native := ReadNative(b[88..94]);
    var head := ReadHead(b[..6]);
    Config(if native.native422 || native.native420 then head.(bitsPerPixel := head.bitsPerPixel / 2) else head,
           ReadDims(b[6..16]), ReadDelays(b[16..26]), ReadOffsets(b[26..36]), ReadRates(b[36..41]),
           ReadLimits(b[41..44]), b[44..58], ReadRanges(b[58..88]), native)
  }
}
