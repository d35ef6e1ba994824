/**
 Rate control parameters of display stream compression as msm/sde_dsc_helper.c derives them: which row of
 the tables a picture format selects, and the arithmetic from there to the fields of the configuration.
 */
module DscModel {

  const MODEL_SIZE: int := 8192
  const MUX_WORD: int := 48       // DSC_MUX_WORD_SIZE_8_10_BPC; no supported format has more than 10 bits
  const RANGES: nat := 15

  datatype Format = F444 | F422 | F420

  // What is given: version major.minor, SCR version, bits per component and per pixel, format and slice size
  datatype Input = Input(major: nat, minor: nat, scr: nat, bpc: nat, bpp: nat, format: Format, width: nat, height: nat)

  // enum sde_dsc_ratio_type, whose rows the tables are indexed by; -1 when the format is not supported
  function RatioIndex(i: Input): (r: int)
    ensures -1 <= r < 13
  {
    if i.major != 1 then -1
    else if i.minor == 1 && i.format == F444 && (i.scr == 0 || i.scr == 1) then
      var base := if i.scr == 0 then 0 else 3;
      if i.bpc == 8 && i.bpp == 8 then base
      else if i.bpc == 10 && i.bpp == 8 then base + 1
      else if i.bpc == 10 && i.bpp == 10 then base + 2
      else -1
    else if i.minor == 2 then
      match i.format
      case F444 =>
        if i.bpc == 8 && i.bpp == 8 then 3
        else if i.bpc == 10 && i.bpp == 8 then 4
        else if i.bpc == 10 && i.bpp == 10 then 5
        else -1
      case F422 =>
        if i.bpc == 8 && i.bpp == 7 then 6
        else if i.bpc == 8 && i.bpp == 8 then 7
        else if i.bpc == 10 && i.bpp == 7 then 8
        else if i.bpc == 10 && i.bpp == 8 then 9
        else if i.bpc == 10 && i.bpp == 10 then 10
        else -1
      case F420 =>
        if i.bpc == 8 && i.bpp == 6 then 11
        else if i.bpc == 10 && i.bpp == 6 then 12
        else -1
    else -1
  }

  // A row of sde_dsc_rc_init_param_lut.  Both quantizer limits are the same in every row.
  datatype Init = Init(limit: int, offset: int, xmitDelay: int, secondLine: int, secondAdjust: int,
                       flatMinQp: int, flatMaxQp: int)

  function InitRow(ratio: nat): (row: Init)
    requires ratio < 13
    ensures row.offset < MODEL_SIZE
  {
    var limit, min, max := if ratio in {0, 3, 6, 7, 11, 12} then 11 else 15,
                           if ratio in {0, 3, 6, 7, 11, 12} then 3 else 7,
                           if ratio in {0, 3, 6, 7, 11, 12} then 12 else 16;
    if ratio in {0, 1, 3, 4} then Init(limit, 6144, 512, 0, 0, min, max)
    else if ratio in {2, 5, 6, 8, 11} then Init(limit, 5632, 410, 0, 0, min, max)
    else if ratio in {7, 9} then Init(limit, 2048, 341, 0, 0, min, max)
    else if ratio == 10 then Init(limit, 2048, 273, 0, 0, min, max)
    else Init(limit, 2048, 341, 12, 512, min, max)
  }

  // ----- Arithmetic as C does it -----

  function DivUp(n: int, d: int): int
    requires n >= 0 && d > 0
  {
    (n + d - 1) / d
  }

  // C's remainder, which takes the sign of the dividend
  function Rem(n: int, d: int): int
    requires d > 0
  {
    if n >= 0 then n % d else -((-n) % d)
  }

  function U16(n: int): int {
    n % 65536
  }

  // ----- The fields, in the order they are computed -----

  predicate Supported(i: Input) {
    RatioIndex(i) >= 0 && i.height >= 2
  }

  // _get_dsc_v1_2_bpg_offset
  function BpgOffset12(i: Input): int {
    var h := i.height;
    var offset :=
      if h < 8 then 2 * (h - 1) else if h < 20 then 12 else if h <= 30 then 13 else if h < 42 then 14 else 15;
    var uncompressed := match i.format
      case F422 => 3 * i.bpp * 4
      case F420 => 3 * i.bpp
      case F444 => (3 * i.bpp + 2) * 3;
    if offset < uncompressed - 3 * i.bpp then offset else uncompressed - 3 * i.bpp
  }

  function FirstLine(i: Input): int {
    if i.minor == 1 then (if i.scr == 1 then 15 else 12) else BpgOffset12(i)
  }

  // Width and bits per pixel after the halving and doubling for the native formats
  function SliceWidth(i: Input): (r: int)
    ensures r >= 0
  {
    if i.format == F444 then i.width else i.width / 2
  }

  function Bpp(i: Input): int {
    if i.format == F444 then i.bpp else 2 * i.bpp
  }

  function GroupsPerLine(i: Input): int {
    DivUp(SliceWidth(i), 3)
  }

  function ChunkSize(i: Input): int {
    var bits := SliceWidth(i) * Bpp(i);
    U16(if bits >= 0 then bits / 8 + (if bits % 8 != 0 then 1 else 0) else 0)
  }

  function MinRateBuffer(i: Input): int
    requires Supported(i)
  {
    var row := InitRow(RatioIndex(i));
    MODEL_SIZE - row.offset + row.xmitDelay * Bpp(i) + GroupsPerLine(i) * FirstLine(i)
  }

  function InitialScale(i: Input): int
    requires Supported(i)
  {
    8 * MODEL_SIZE / (MODEL_SIZE - InitRow(RatioIndex(i)).offset)
  }

  function SliceBits(i: Input): int {
    8 * ChunkSize(i) * i.height
  }

  function NflBpgOffset(i: Input): int
    requires Supported(i) && FirstLine(i) >= 0
  {
    U16(DivUp(FirstLine(i) * 2048, i.height - 1))
  }

  function PreExtraMuxBits(i: Input): int {
    match i.format
    case F422 => 4 * MUX_WORD + (4 * i.bpc + 4) + 3 * 4 * i.bpc - 2
    case F420 => 3 * MUX_WORD + (4 * i.bpc + 4) + 2 * 4 * i.bpc - 2
    case F444 => 3 * (MUX_WORD + (4 * i.bpc + 4) - 2)
  }

  // num_extra_mux_bits, for a slice of `bits`
  function ExtraMuxBits(pre: int, bits: int): int {
    pre - (MUX_WORD - Rem(bits - pre, MUX_WORD))
  }

  function Extra(i: Input): int {
    ExtraMuxBits(PreExtraMuxBits(i), SliceBits(i))
  }

  function GroupsTotal(i: Input): int {
    GroupsPerLine(i) * i.height
  }

  function FinalValue(i: Input): int
    requires Supported(i)
  {
    MODEL_SIZE - InitRow(RatioIndex(i)).xmitDelay * Bpp(i) + Extra(i)
  }

  // hrd_delay less the transmission delay
  function DecDelay(i: Input): int
    requires Supported(i) && MinRateBuffer(i) >= 0 && Bpp(i) > 0
  {
    DivUp(MinRateBuffer(i), Bpp(i)) - InitRow(RatioIndex(i)).xmitDelay
  }

  // slice_bpg_offset before it is stored in 16 bits
  function SliceBpg(i: Input): int
    requires Supported(i) && GroupsTotal(i) > 0 && MODEL_SIZE - InitRow(RatioIndex(i)).offset + Extra(i) >= 0
  {
    DivUp(2048 * (MODEL_SIZE - InitRow(RatioIndex(i)).offset + Extra(i)), GroupsTotal(i))
  }

  function FinalScale(i: Input): int
    requires Supported(i) && FinalValue(i) < MODEL_SIZE
  {
    8 * MODEL_SIZE / (MODEL_SIZE - FinalValue(i))
  }

  // What the fields come to, when nothing is divided by zero
  datatype Fields = Fields(firstLine: int, chunkSize: int, decDelay: int, initialScale: int, nfl: int, slice: int,
                           final: int, increment: int, decrement: int)

  ghost predicate Divides(i: Input) {
    && Supported(i) && GroupsTotal(i) > 0 && Bpp(i) > 0 && MinRateBuffer(i) >= 0 && FirstLine(i) >= 0
    && InitialScale(i) > 8 && FinalValue(i) < MODEL_SIZE && FinalScale(i) > 9
    && MODEL_SIZE - InitRow(RatioIndex(i)).offset + Extra(i) >= 0
    && NflBpgOffset(i) + U16(SliceBpg(i)) > 0
  }

  function Increment(finalOffset: int, finalScale: int, offsets: int): int
    requires finalScale > 9 && offsets > 0
  {
    assert (finalScale - 9) * offsets > 0;
    U16(2048 * finalOffset / ((finalScale - 9) * offsets))
  }

  function Populated(i: Input): Fields
    requires Divides(i)
  {
    var nfl, slice, final := NflBpgOffset(i), U16(SliceBpg(i)), U16(FinalValue(i));
    Fields(FirstLine(i), ChunkSize(i), U16(DecDelay(i)), InitialScale(i), nfl, slice, final,
           Increment(final, FinalScale(i), nfl + slice), GroupsPerLine(i) / (InitialScale(i) - 8))
  }
}
