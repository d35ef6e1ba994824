/**
 The functions of msm/sde_dsc_helper.c in place: the search of the format table, the fields of the
 configuration, and the packing of the picture parameter set into a byte buffer.
 */
module DscDriver {
  import opened DscModel
  import DscProofs
  import P = DscPps

  // sde_dsc_index_map; an SCR version of -1 is not looked at.
  datatype Row = Row(format: Format, scr: int, minor: nat, bpc: nat, bpp: nat, ratio: int)

  const INDEX_MAP: seq<Row> := [
    Row(F444, 0, 1, 8, 8, 0), Row(F444, 0, 1, 10, 8, 1), Row(F444, 0, 1, 10, 10, 2),
    Row(F444, 1, 1, 8, 8, 3), Row(F444, 1, 1, 10, 8, 4), Row(F444, 1, 1, 10, 10, 5),
    Row(F444, -1, 2, 8, 8, 3), Row(F444, -1, 2, 10, 8, 4), Row(F444, -1, 2, 10, 10, 5),
    Row(F422, -1, 2, 8, 7, 6), Row(F422, -1, 2, 8, 8, 7), Row(F422, -1, 2, 10, 7, 8), Row(F422, -1, 2, 10, 8, 9),
    Row(F422, -1, 2, 10, 10, 10), Row(F420, -1, 2, 8, 6, 11), Row(F420, -1, 2, 10, 6, 12)]

  predicate Matches(i: Input, row: Row) {
    && i.major == 1 && i.minor == row.minor && i.format == row.format && i.bpc == row.bpc && i.bpp == row.bpp
    && (i.minor != 1 || i.scr == row.scr)
  }

  // A row of the table matches only what has its ratio, and what has a ratio is matched by a row.
  lemma RowsAreRatios(i: Input)
    ensures forall k :: 0 <= k < |INDEX_MAP| && Matches(i, INDEX_MAP[k]) ==> INDEX_MAP[k].ratio == RatioIndex(i)
    ensures RatioIndex(i) >= 0 ==> exists k :: 0 <= k < |INDEX_MAP| && Matches(i, INDEX_MAP[k])
  {
    var r := RatioIndex(i);
    if r >= 0 {
      var k := if i.minor == 1 then r else r + 3;
      assert Matches(i, INDEX_MAP[k]);
    }
  }

  // _get_rc_table_index
  method GetRcTableIndex(i: Input) returns (r: int)
    ensures r == RatioIndex(i)
  {
    RowsAreRatios(i);
    if i.major != 1 { return -1; }
    var k := 0;
    while k < |INDEX_MAP|
      invariant k <= |INDEX_MAP| && forall j :: 0 <= j < k ==> !Matches(i, INDEX_MAP[j])
    {
      if Matches(i, INDEX_MAP[k]) { return INDEX_MAP[k].ratio; }
      k := k + 1;
    }
    return -1;
  }

  lemma Versions(i: Input)
    ensures RatioIndex(i) >= 0 ==> i.major == 1 && (i.minor == 1 || i.minor == 2)
    ensures i.minor == 1 ==> FirstLine(i) == if i.scr == 1 then 15 else 12
    ensures i.minor == 2 ==> FirstLine(i) == BpgOffset12(i)
  {
  }

  // The rate control fields of struct drm_dsc_config
  class DscConfig {
    var firstLine: int
    var chunkSize: int
    var decDelay: int
    var initialScale: int
    var nflBpgOffset: int
    var sliceBpgOffset: int
    var finalOffset: int
    var scaleIncrement: int
    var scaleDecrement: int

    function View(): Fields
      reads this
    {
      Fields(firstLine, chunkSize, decDelay, initialScale, nflBpgOffset, sliceBpgOffset, finalOffset, scaleIncrement,
             scaleDecrement)
    }

    // sde_dsc_populate_dsc_config, for inputs on which it divides by nothing that is zero
    method Populate(i: Input) returns (ok: bool)
      requires i.height >= 2 && i.width < 65536 && (RatioIndex(i) >= 0 ==> Divides(i))
      modifies this
      ensures ok == (RatioIndex(i) >= 0)
      ensures ok ==> View() == Populated(i) && DscProofs.Conforms(i, View())
    {
      hide RatioIndex, InitRow, FirstLine, Increment, DscProofs.Conforms;
      if i.major == 1 && i.minor == 1 {
        firstLine := if i.scr == 1 then 15 else 12;
      } else if i.minor == 2 {
        firstLine := BpgOffset12(i);
      }
      Versions(i);
      var ratio := GetRcTableIndex(i);
      ok := ratio >= 0;
      if !ok { return; }
      var row := InitRow(ratio);
      PopulateBuffer(i, row);
      PopulateOffsets(i, row);
      DscProofs.StoredConform(i);
    }

    // the fields up to initial_scale_value
    method PopulateBuffer(i: Input, row: Init)
      requires Divides(i) && row == InitRow(RatioIndex(i)) && firstLine == FirstLine(i)
      modifies this`chunkSize, this`decDelay, this`initialScale
      ensures chunkSize == ChunkSize(i) && decDelay == U16(DecDelay(i)) && initialScale == InitialScale(i)
    {
      hide RatioIndex, InitRow, FirstLine, Increment, DivUp, U16, SliceWidth, Bpp, ChunkSize, FinalScale, FinalValue, SliceBpg;
      var bpp := Bpp(i);
      var groupsPerLine := DivUp(SliceWidth(i), 3);
      chunkSize := ChunkSize(i);
      var minRateBuffer := MODEL_SIZE - row.offset + row.xmitDelay * bpp + groupsPerLine * firstLine;
      var hrdDelay := DivUp(minRateBuffer, bpp);
      decDelay := U16(hrdDelay - row.xmitDelay);
      initialScale := 8 * MODEL_SIZE / (MODEL_SIZE - row.offset);
    }

    // the fields from nfl_bpg_offset on
    method PopulateOffsets(i: Input, row: Init)
      requires Divides(i) && row == InitRow(RatioIndex(i)) && firstLine == FirstLine(i) && chunkSize == ChunkSize(i)
      requires initialScale == InitialScale(i)
      modifies this`nflBpgOffset, this`sliceBpgOffset, this`finalOffset, this`scaleIncrement, this`scaleDecrement
      ensures View() == Populated(i).(decDelay := decDelay)
    {
      hide RatioIndex, InitRow, FirstLine, Increment, DivUp, U16, SliceWidth, Bpp, ChunkSize, ExtraMuxBits, PreExtraMuxBits,
           MinRateBuffer, InitialScale, DecDelay;
      var groupsPerLine := DivUp(SliceWidth(i), 3);
      var sliceBits := 8 * chunkSize * i.height;
      var groupsTotal := groupsPerLine * i.height;
      nflBpgOffset := U16(DivUp(firstLine * 2048, i.height - 1));
      var extra := ExtraMuxBits(PreExtraMuxBits(i), sliceBits);
      sliceBpgOffset := U16(DivUp(2048 * (MODEL_SIZE - row.offset + extra), groupsTotal));
      var finalValue := MODEL_SIZE - row.xmitDelay * Bpp(i) + extra;
      var finalScale := 8 * MODEL_SIZE / (MODEL_SIZE - finalValue);
      finalOffset := U16(finalValue);
      scaleIncrement := Increment(finalOffset, finalScale, nflBpgOffset + sliceBpgOffset);
      scaleDecrement := groupsPerLine / (initialScale - 8);
    }
  }

  // ----- The picture parameter set -----

  // The bytes from `at` on are as they were.
  ghost predicate Kept(was: seq<nat>, now: seq<nat>, at: nat) {
    |was| == |now| && forall k :: at <= k < |was| ==> now[k] == was[k]
  }

  // *bp++ = ..., for a group of bytes
  method Emit(buf: array<nat>, at: nat, bytes: seq<nat>) returns (next: nat)
    requires at + |bytes| <= buf.Length
    modifies buf
    ensures next == at + |bytes| && buf[..next] == old(buf[..at]) + bytes && Kept(old(buf[..]), buf[..], next)
  {
    var i := 0;
    while i < |bytes|
      invariant i <= |bytes| && buf[..at + i] == old(buf[..at]) + bytes[..i]
      invariant Kept(old(buf[..]), buf[..], at + i)
    {
      buf[at + i] := bytes[i];
      assert buf[..at + i + 1] == buf[..at + i] + [bytes[i]];
      assert bytes[..i + 1] == bytes[..i] + [bytes[i]];
      i := i + 1;
    }
    assert bytes[..i] == bytes;
    next := at + |bytes|;
  }

  // memset(buf, 0, len)
  method Clear(buf: array<nat>)
    modifies buf
    ensures buf[..] == P.Zeros(buf.Length)
  {
    var i := 0;
    while i < buf.Length
      invariant i <= buf.Length && forall j :: 0 <= j < i ==> buf[j] == 0
    {
      buf[i] := 0;
      i := i + 1;
    }
  }

  method EmitThresholds(buf: array<nat>, at: nat, t: seq<nat>) returns (next: nat)
    requires at + |t| <= buf.Length
    modifies buf
    ensures next == at + |t| && buf[..next] == old(buf[..at]) + P.ThresholdBytes(t) && Kept(old(buf[..]), buf[..], next)
  {
    var bytes := P.ThresholdBytes(t);
    next := at;
    var i := 0;
    while i < |t|
      invariant i <= |t| && next == at + i && buf[..next] == old(buf[..at]) + bytes[..i] && Kept(old(buf[..]), buf[..], next)
    {
      next := Emit(buf, next, [t[i] % 256]);
      assert bytes[..i + 1] == bytes[..i] + [t[i] % 256];
      i := i + 1;
    }
    assert bytes[..i] == bytes;
  }

  method EmitRanges(buf: array<nat>, at: nat, rs: seq<P.Range>) returns (next: nat)
    requires at + 2 * |rs| <= buf.Length
    modifies buf
    ensures next == at + 2 * |rs| && buf[..next] == old(buf[..at]) + P.RangesBytes(rs) && Kept(old(buf[..]), buf[..], next)
  {
    next := at;
    var i := 0;
    assert rs[..0] == [];
    while i < |rs|
      invariant i <= |rs| && next == at + 2 * i
      invariant buf[..next] == old(buf[..at]) + P.RangesBytes(rs[..i]) && Kept(old(buf[..]), buf[..], next)
    {
      assert rs[..i + 1][..i] == rs[..i];
      next := Emit(buf, next, P.RangeBytes(rs[i]));
      assert P.RangesBytes(rs[..i + 1]) == P.RangesBytes(rs[..i]) + P.RangeBytes(rs[i]);
      i := i + 1;
    }
    assert rs[..i] == rs;
  }

  // bytes 0 to 87
  method EmitCommon(c: P.Config, buf: array<nat>) returns (at: nat)
    requires P.Shaped(c) && buf.Length >= P.PPS_SIZE
    modifies buf
    ensures at == 88 && buf[..at] == P.Common(c) && Kept(old(buf[..]), buf[..], at)
  {
    hide P.HeadBytes, P.DimsBytes, P.DelaysBytes, P.OffsetsBytes, P.RatesBytes, P.LimitsBytes, P.ThresholdBytes, P.RangesBytes;
    at := Emit(buf, 0, P.HeadBytes(c.head, P.PackedBpp(c)));
    at := Emit(buf, at, P.DimsBytes(c.dims));
    at := Emit(buf, at, P.DelaysBytes(c.delays));
    at := Emit(buf, at, P.OffsetsBytes(c.offsets));
    at := Emit(buf, at, P.RatesBytes(c.rates));
    at := Emit(buf, at, P.LimitsBytes(c.limits));
    at := EmitThresholds(buf, at, c.thresholds);
    at := EmitRanges(buf, at, c.ranges);
  }

  // sde_dsc_create_pps_buf_cmd
  method CreatePps(c: P.Config, buf: array<nat>) returns (ok: bool)
    requires P.Shaped(c)
    modifies buf
    ensures ok == (buf.Length >= P.PPS_SIZE)
    ensures !ok ==> buf[..] == old(buf[..])
    ensures ok ==> buf[..] == P.Pack(c, buf.Length)
  {
    hide P.Common, P.NativeBytes;
    ok := buf.Length >= P.PPS_SIZE;
    if !ok { return; }
    Clear(buf);
    var at := EmitCommon(c, buf);
    if c.head.minor == 2 {
      at := Emit(buf, at, P.NativeBytes(c.native, buf[87]));
    }
    assert buf[at..] == P.Zeros(buf.Length - at);
    assert buf[..] == buf[..at] + buf[at..];
  }
}
