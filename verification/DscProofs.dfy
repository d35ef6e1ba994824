/**
 The rate control arithmetic: which divisors are positive, what the extra mux bits are for, and that the
 decoder's delay covers the rate buffer.
 */
module DscProofs {
  import opened DscModel

  // ----- Extra mux bits -----

  /** What is left of the slice after the extra bits is a whole number of mux words, whatever the slice. */
  lemma ExtraLeavesWholeWords(pre: int, bits: int)
    ensures (bits - ExtraMuxBits(pre, bits)) % MUX_WORD == 0
    ensures pre - 2 * MUX_WORD < ExtraMuxBits(pre, bits) < pre
  {
    var n := bits - pre;
    var m := if n >= 0 then n else -n;
    var q := m / MUX_WORD;
    assert m == MUX_WORD * q + m % MUX_WORD;
    Whole(if n >= 0 then q + 1 else 1 - q);
  }

  lemma Whole(q: int)
    ensures (MUX_WORD * q) % MUX_WORD == 0
  {
  }

  // The reference loop: while bits are extra and what is left is not a whole number of words, take one off.
  function Decrement(extra: nat, bits: int): (r: nat) {
    if extra > 0 && (bits - extra) % MUX_WORD != 0 then Decrement(extra - 1, bits) else extra
  }

  lemma {:induction false} DecrementLands(extra: nat, bits: int, r: nat)
    requires r <= extra && (bits - r) % MUX_WORD == 0 && extra - r < MUX_WORD
    ensures Decrement(extra, bits) == r
  {
    if extra != r {
      NotWhole(bits - r, extra - r);
      DecrementLands(extra - 1, bits, r);
    }
  }

  lemma NotWhole(n: int, d: nat)
    requires n % MUX_WORD == 0 && 0 < d < MUX_WORD
    ensures (n - d) % MUX_WORD != 0
  {
  }

  /** The closed form is the loop's result when the remainder is not zero, and one word lower when it is. */
  lemma ClosedFormIsLoop(pre: nat, bits: int)
    requires MUX_WORD <= pre <= bits
    ensures ExtraMuxBits(pre, bits) ==
      if (bits - pre) % MUX_WORD != 0 then Decrement(pre, bits) else Decrement(pre, bits) - MUX_WORD
  {
    ExtraLeavesWholeWords(pre, bits);
    if (bits - pre) % MUX_WORD != 0 {
      DecrementLands(pre, bits, ExtraMuxBits(pre, bits));
    }
  }

  // ----- Formats -----

  // The product of transmission delay and bits per pixel, and the extra bits before rounding, by format
  lemma FormatBounds(i: Input)
    requires Supported(i)
    ensures var row := InitRow(RatioIndex(i));
      && 4092 <= row.xmitDelay * Bpp(i) <= 5740 && 242 <= PreExtraMuxBits(i) <= 354
      && 6 <= i.bpp <= 10 && 6 <= Bpp(i) <= 20 && row.offset in {2048, 5632, 6144} && row.xmitDelay >= 0
  {
    var r := RatioIndex(i);
    assert i.bpc == 8 || i.bpc == 10;
    if i.format == F444 {
      assert r in {0, 1, 2, 3, 4, 5};
    } else if i.format == F422 {
      assert r in {6, 7, 8, 9, 10};
    } else {
      assert r in {11, 12};
    }
  }

  lemma FirstLineBounds(i: Input)
    requires Supported(i)
    ensures 0 <= FirstLine(i) <= 15
  {
    FormatBounds(i);
  }

  /** A native 4:2:0 picture gets no first-line budget. */
  lemma NoFirstLineFor420(i: Input)
    requires Supported(i) && i.format == F420
    ensures FirstLine(i) == 0 && NflBpgOffset(i) == 0
  {
    SmallQuotient(i.height - 2, i.height - 1);
  }

  lemma SmallQuotient(n: int, d: int)
    requires 0 <= n < d
    ensures n / d == 0
  {
  }

  // The limits and flatness bounds that go with a number of bits per component, and the second-line budget
  // that goes with a format.
  predicate FitsBits(row: Init, bpc: int) {
    row.limit == 2 * bpc - 5 && row.flatMinQp == 2 * bpc - 13 && row.flatMaxQp == 2 * bpc - 4
  }

  predicate FitsFormat(row: Init, f: Format) {
    (row.secondLine, row.secondAdjust) == if f == F420 then (12, 512) else (0, 0)
  }

  /** The parameter table has one row more than there are formats, before the ones for native 4:2:0: such a picture
      gets a row of another format at 8 bits per component and the row for 8 bits at 10, and no other does. */
  lemma {:induction false} RowsFitIff(i: Input)
    requires RatioIndex(i) >= 0
    ensures FitsBits(InitRow(RatioIndex(i)), i.bpc) <==> !(i.format == F420 && i.bpc == 10)
    ensures FitsFormat(InitRow(RatioIndex(i)), i.format) <==> !(i.format == F420 && i.bpc == 8)
  {
    assert i.bpc == 8 || i.bpc == 10;
  }

  // Bits per pixel as the rate control counts them: with the chroma that the native formats leave out shared out.
  function Rate(i: Input): int {
    match i.format
    case F444 => i.bpp
    case F422 => 3 * i.bpp / 2
    case F420 => 2 * i.bpp
  }

  // The transmission delay is half the rate control model at this rate, to the nearest pixel, and the offset the one
  // for it.
  predicate FitsRate(row: Init, rate: int) {
    && -rate <= 2 * row.xmitDelay * rate - MODEL_SIZE <= rate
    && row.offset == if rate >= 12 then 2048 else if rate >= 10 then 5632 else 6144
  }

  /** Delay and offset fit the rate, except that native 4:2:0 with 8 bits per component gets those of another format. */
  lemma {:induction false} RatesFitIff(i: Input)
    requires RatioIndex(i) >= 0
    ensures FitsRate(InitRow(RatioIndex(i)), Rate(i)) <==> !(i.format == F420 && i.bpc == 8)
  {
    assert i.bpp in {6, 7, 8, 10};
  }

  /** The first line's offset by the number of lines, for DSC 1.2 but native 4:2:0: two for each line after the first, 12
      from 7 lines on, 13 from 20, 14 from 31 and 15 from 42; for DSC 1.1 it is fixed. */
  lemma FirstLineIs(i: Input)
    requires Supported(i)
    ensures var f, h := FirstLine(i), i.height;
      && (i.minor == 1 ==> f == if i.scr == 1 then 15 else 12)
      && (i.minor == 2 && i.format != F420 ==>
            && (f < 12 <==> h < 7) && (f < 12 ==> f == 2 * h - 2) && f <= 15
            && (f >= 13 <==> h >= 20) && (f >= 14 <==> h >= 31) && (f >= 15 <==> h >= 42))
  {
    FormatBounds(i);
  }

  /** A line of the slice has the bits of its pixels, but for a native format's odd last one, and just enough groups of
      three for them. */
  lemma LineIs(i: Input)
    ensures SliceWidth(i) * Bpp(i) == (if i.format == F444 then i.width else i.width - i.width % 2) * i.bpp
    ensures 3 * GroupsPerLine(i) - 3 < SliceWidth(i) <= 3 * GroupsPerLine(i)
  {
    assert i.width == 2 * (i.width / 2) + i.width % 2;
    assert (i.width / 2) * (2 * i.bpp) == (2 * (i.width / 2)) * i.bpp;
  }

  /** The extra bits before rounding are a mux word and four bits per component for each substream, and 2 more, or 6 in
      4:4:4; native 4:2:2 has four substreams, the others three. */
  lemma PreExtraIs(i: Input)
    ensures PreExtraMuxBits(i) == (if i.format == F422 then 4 else 3) * (MUX_WORD + 4 * i.bpc) + if i.format == F444 then 6 else 2
  {
  }

  // ----- Divisors -----

  /** The scale divisors are positive for every supported format and slice size. */
  lemma {:induction false} ScalesArePositive(i: Input)
    requires Supported(i)
    ensures InitialScale(i) > 8 && FinalValue(i) < MODEL_SIZE && FinalScale(i) > 9
    ensures MODEL_SIZE - InitRow(RatioIndex(i)).offset + Extra(i) > 0
  {
    FormatBounds(i);
    ExtraLeavesWholeWords(PreExtraMuxBits(i), SliceBits(i));
    var d := MODEL_SIZE - FinalValue(i);
    assert 3738 <= d <= 5740 + 96 - 242;
    assert 8 * MODEL_SIZE >= 10 * d;
    QuotientAbove(8 * MODEL_SIZE, d, 10);
  }

  lemma AtMost(d: int, x: int)
    requires d > 0 && x <= -1
    ensures d * x <= -d
  {
    assert d * (x + 1) <= 0;
  }

  lemma {:induction false} QuotientAbove(n: int, d: int, q: int)
    requires d > 0 && n >= q * d
    ensures n / d >= q
  {
    var r := n / d;
    assert n == d * r + n % d;
    assert d * (r - q) == d * r - q * d;
    if r < q {
      AtMost(d, r - q);
      assert false;
    }
  }

  /** There are groups to divide by exactly when the slice has a pixel, which for the native formats, whose
      width is halved, means two. */
  lemma GroupsArePositiveIff(i: Input)
    requires i.height >= 2
    ensures GroupsTotal(i) > 0 <==> i.width >= if i.format == F444 then 1 else 2
  {
    var g := GroupsPerLine(i);
    assert g > 0 <==> SliceWidth(i) >= 1;
    if g > 0 {
      assert g * i.height >= i.height;
    } else {
      assert g == 0;
    }
  }

  // Only native 4:2:0 gets no bits for the lines after the first.
  lemma {:induction false} NflPositiveIff(i: Input)
    requires Supported(i) && FirstLine(i) >= 0
    ensures NflBpgOffset(i) > 0 <==> i.format != F420
  {
    FormatBounds(i);
    FirstLineBounds(i);
    if i.format == F420 {
      NoFirstLineFor420(i);
    } else {
      assert FirstLine(i) > 0;
      NflFits(i);
    }
  }

  // It always fits its 16 bits.
  lemma {:induction false} NflFits(i: Input)
    requires Supported(i) && 0 <= FirstLine(i) <= 15
    ensures var n := FirstLine(i) * 2048;
      && NflBpgOffset(i) == DivUp(n, i.height - 1)
      && n <= NflBpgOffset(i) * (i.height - 1) < n + (i.height - 1)
  {
    hide FirstLine;
    var n, d := FirstLine(i) * 2048, i.height - 1;
    DivUpCovers(n, d);
    DivUpAtMost(n, d);
  }

  lemma MulGrows(x: int, y: int, d: int)
    requires x <= y && d >= 0
    ensures x * d <= y * d
  {
    assert (y - x) * d >= 0;
  }

  lemma OneMore(x: int, d: int)
    ensures (x + 1) * d == x * d + d
  {
  }

  lemma {:induction false} DivUpAtMost(n: int, d: int)
    requires n >= 0 && d > 0
    ensures 0 <= DivUp(n, d) <= n
  {
    hide DivUp;
    var q := DivUp(n, d);
    DivUpCovers(n, d);
    OneMore(n, d);
    if q > n {
      MulGrows(n + 1, q, d);
      MulGrows(1, d, n);
    } else if q < 0 {
      MulGrows(q, -1, d);
    }
  }

  /** For every supported format, nothing is divided by zero exactly if the slice has a pixel and, in native 4:2:0,
      slice_bpg_offset is not 0 in its 16 bits. */
  lemma {:induction false} NothingDividesByZeroIff(i: Input)
    requires Supported(i)
    ensures GroupsTotal(i) > 0 <==> i.width >= if i.format == F444 then 1 else 2
    ensures MODEL_SIZE - InitRow(RatioIndex(i)).offset + Extra(i) > 0
    ensures Divides(i) <==> GroupsTotal(i) > 0 && (i.format != F420 || SliceBpg(i) % 65536 != 0)
  {
    hide FinalScale, FinalValue, NflBpgOffset, FirstLine, Extra, GroupsTotal, SliceBpg, MinRateBuffer, InitialScale, InitRow;
    GroupsArePositiveIff(i);
    ScalesArePositive(i);
    FirstLineBounds(i);
    FormatBounds(i);
    DelaysCoverBuffer(i);
    NflPositiveIff(i);
    NflNatural(i);
  }

  lemma NflNatural(i: Input)
    requires Supported(i) && FirstLine(i) >= 0
    ensures NflBpgOffset(i) >= 0
  {
  }

  // It can be 0: an 18 by 29 slice of native 4:2:0.
  lemma IncrementDivisorVanishes()
    ensures var i := Input(1, 2, 0, 8, 6, F420, 18, 29);
      && Supported(i) && GroupsTotal(i) == 87 && SliceBits(i) >= PreExtraMuxBits(i)
      && Extra(i) == 224 && SliceBpg(i) == 65536 && NflBpgOffset(i) + U16(SliceBpg(i)) == 0
  {
    var i := Input(1, 2, 0, 8, 6, F420, 18, 29);
    assert SliceWidth(i) == 9 && Bpp(i) == 12 && ChunkSize(i) == 14 && SliceBits(i) == 3248;
    assert PreExtraMuxBits(i) == 242 && Rem(3248 - 242, MUX_WORD) == 30;
    assert InitRow(11) == Init(11, 5632, 410, 0, 0, 3, 12);
    assert 2048 * (MODEL_SIZE - 5632 + 224) == 65536 * 87;
    assert FirstLine(i) == 0;
    assert (0 + 28 - 1) / 28 == 0;
  }

  // ----- The delay -----

  lemma DivUpCovers(n: int, d: int)
    requires n >= 0 && d > 0
    ensures n <= DivUp(n, d) * d < n + d
  {
    var m := n + d - 1;
    assert m == d * (m / d) + m % d;
  }

  /** Transmission and decoding delay together carry at least the minimum rate buffer, and less than one pixel
      more. */
  lemma DelaysCoverBuffer(i: Input)
    requires Supported(i)
    ensures Bpp(i) > 0 && MinRateBuffer(i) >= 0
    ensures var carried := (InitRow(RatioIndex(i)).xmitDelay + DecDelay(i)) * Bpp(i);
      MinRateBuffer(i) <= carried < MinRateBuffer(i) + Bpp(i)
  {
    FormatBounds(i);
    FirstLineBounds(i);
    assert GroupsPerLine(i) * FirstLine(i) >= 0;
    DivUpCovers(MinRateBuffer(i), Bpp(i));
  }

  // ----- What is stored -----

  // Both fit their 16 bits on every slice whose width does.
  lemma {:induction false} StoredFit(i: Input)
    requires Supported(i) && i.width < 65536 && Bpp(i) > 0 && MinRateBuffer(i) >= 0
    ensures U16(DecDelay(i)) == DecDelay(i) && U16(FinalValue(i)) == FinalValue(i)
  {
    hide FirstLine, PreExtraMuxBits, SliceBits;
    FormatBounds(i);
    FirstLineBounds(i);
    ExtraLeavesWholeWords(PreExtraMuxBits(i), SliceBits(i));
    DecDelayFits(i);
  }

  lemma {:induction false} DecDelayFits(i: Input)
    requires Supported(i) && i.width < 65536 && MinRateBuffer(i) >= 0 && 8 <= Bpp(i) <= 20 && 0 <= FirstLine(i) <= 15
    ensures 0 <= DecDelay(i) < 65536
  {
    hide FirstLine, RatioIndex, DivUp, Bpp, InitRow, GroupsPerLine;
    var delay, bpp, size := InitRow(RatioIndex(i)).xmitDelay, Bpp(i), MinRateBuffer(i);
    BufferBounds(i);
    DivUpCovers(size, bpp);
    DelayFits(DivUp(size, bpp), delay, bpp, size);
  }

  lemma {:induction false} DelayFits(q: int, delay: int, bpp: int, size: int)
    requires 8 <= bpp <= 20 && size <= q * bpp < size + bpp
    requires 0 <= delay && delay * bpp <= size <= 400000
    ensures delay <= q < 65536
  {
    OneMore(q, bpp);
    if q < delay {
      MulGrows(q + 1, delay, bpp);
    }
    if q >= 65536 {
      MulGrows(65536, q, bpp);
    }
  }

  lemma {:induction false} BufferBounds(i: Input)
    requires Supported(i) && i.width < 65536 && 0 <= FirstLine(i) <= 15
    ensures var delay := InitRow(RatioIndex(i)).xmitDelay;
      0 <= delay && delay * Bpp(i) <= MinRateBuffer(i) <= 400000
  {
    hide FirstLine;
    FormatBounds(i);
    var g := GroupsPerLine(i);
    assert 0 <= g <= 21846;
    MulGrows(0, g, FirstLine(i));
    MulGrows(FirstLine(i), 15, g);
  }

  // What the stored fields have to do with one another and with the picture: the delays carry the rate buffer,
  // the first line's extra bits are spread over the others, what the final offset leaves of the slice is a
  // whole number of mux words, the scales are quotients rounded down, and so is the increment interval exactly
  // if it fits its 16 bits.
  ghost predicate Conforms(i: Input, f: Fields)
    requires Supported(i)
  {
    var row, size := InitRow(RatioIndex(i)), 8 * MODEL_SIZE;
    var room := MODEL_SIZE - row.offset;
    && 0 < Buffer(i, row) <= (row.xmitDelay + f.decDelay) * Bpp(i) < Buffer(i, row) + Bpp(i)
    && f.firstLine * 2048 <= f.nfl * (i.height - 1) < f.firstLine * 2048 + i.height - 1
    && (8 * f.chunkSize * i.height - (f.final + row.xmitDelay * Bpp(i) - MODEL_SIZE)) % MUX_WORD == 0
    && f.initialScale * room <= size < (f.initialScale + 1) * room
    && f.decrement * (f.initialScale - 8) <= GroupsPerLine(i) < (f.decrement + 1) * (f.initialScale - 8)
    && f.final < MODEL_SIZE && Spread(f) > 0
    && (f.increment * Spread(f) <= 2048 * f.final < (f.increment + 1) * Spread(f) <==> 2048 * f.final < 65536 * Spread(f))
  }

  // What the final offset is spread over: the final scale above 9, by the offsets of a group
  function Spread(f: Fields): int
    requires f.final < MODEL_SIZE
  {
    (8 * MODEL_SIZE / (MODEL_SIZE - f.final) - 9) * (f.nfl + f.slice)
  }

  // rbs-min: the fullness at the start, the bits sent before decoding starts, and the first line's extra
  function Buffer(i: Input, row: Init): int {
    MODEL_SIZE - row.offset + row.xmitDelay * Bpp(i) + GroupsPerLine(i) * FirstLine(i)
  }

  lemma {:induction false} Quotient(n: int, d: int)
    requires d > 0
    ensures n / d * d <= n < (n / d + 1) * d
  {
    assert n == d * (n / d) + n % d;
  }

  /** The fields that are stored conform, on every slice whose width fits its 16 bits. */
  lemma {:induction false} StoredConform(i: Input)
    requires Divides(i) && i.width < 65536
    ensures Conforms(i, Populated(i))
  {
    hide FirstLine, PreExtraMuxBits, ExtraMuxBits, ChunkSize, Bpp, GroupsPerLine, SliceBpg, FinalScale, Increment, DivUp, U16,
         RatioIndex, InitRow;
    StoredFit(i);
    DelaysCoverBuffer(i);
    FirstLineBounds(i);
    NflFits(i);
    ExtraLeavesWholeWords(PreExtraMuxBits(i), SliceBits(i));
    FormatRoom(i);
    Quotient(8 * MODEL_SIZE, MODEL_SIZE - InitRow(RatioIndex(i)).offset);
    Quotient(GroupsPerLine(i), InitialScale(i) - 8);
    IncrementConforms(i);
  }

  lemma {:induction false} IncrementConforms(i: Input)
    requires Divides(i) && U16(FinalValue(i)) == FinalValue(i)
    ensures var f := Populated(i);
      && f.final < MODEL_SIZE && Spread(f) > 0
      && (f.increment * Spread(f) <= 2048 * f.final < (f.increment + 1) * Spread(f) <==> 2048 * f.final < 65536 * Spread(f))
  {
    hide FirstLine, SliceBpg, FinalValue, DivUp, NflBpgOffset, InitialScale, ChunkSize, DecDelay;
    var f := Populated(i);
    var scale, offsets := FinalScale(i), f.nfl + f.slice;
    assert scale == 8 * MODEL_SIZE / (MODEL_SIZE - f.final) by { hide U16; }
    Product(scale - 9, offsets);
    assert f.increment == U16(2048 * f.final / Spread(f)) by { hide U16; }
    WrappedQuotient(2048 * f.final, Spread(f));
  }

  lemma Product(x: int, y: int)
    requires x > 0 && y > 0
    ensures x * y > 0
  {
  }

  // A quotient stored in 16 bits is the quotient exactly if it fits.
  lemma {:induction false} WrappedQuotient(n: int, d: int)
    requires n >= 0 && d > 0
    ensures U16(n / d) * d <= n < (U16(n / d) + 1) * d <==> n < 65536 * d
  {
    var q := n / d;
    Quotient(n, d);
    if n < 65536 * d {
      if q >= 65536 {
        MulGrows(65536, q, d);
      } else if q < 0 {
        MulGrows(q + 1, 0, d);
      }
    } else {
      if q < 65536 {
        MulGrows(q + 1, 65536, d);
      }
      MulGrows(U16(q) + 1, 65536, d);
    }
  }

  lemma FormatRoom(i: Input)
    requires Supported(i)
    ensures MODEL_SIZE - InitRow(RatioIndex(i)).offset > 0 && MinRateBuffer(i) > 0
  {
    FormatBounds(i);
    FirstLineBounds(i);
    MulGrows(0, GroupsPerLine(i), FirstLine(i));
  }

  /** The stored chunk size holds the bits of a slice line, and less than a byte more, exactly if they are no more
      than 65535 bytes. */
  lemma {:induction false} ChunkHoldsIff(i: Input)
    requires Bpp(i) >= 0
    ensures var bits := SliceWidth(i) * Bpp(i);
      bits <= 8 * ChunkSize(i) < bits + 8 <==> bits <= 8 * 65535
  {
    hide SliceWidth, Bpp;
    MulGrows(0, SliceWidth(i), Bpp(i));
    var bits := SliceWidth(i) * Bpp(i);
    var bytes := bits / 8 + if bits % 8 != 0 then 1 else 0;
    assert bits == 8 * (bits / 8) + bits % 8;
    assert bytes == 65536 * (bytes / 65536) + bytes % 65536;
  }

  /** The stored slice_bpg_offset gives back the slice's bits over its groups, and less than one unit a group more,
      exactly if it fits its 16 bits. */
  lemma {:induction false} SliceBudgetIff(i: Input)
    requires Divides(i)
    ensures var bits := 2048 * (MODEL_SIZE - InitRow(RatioIndex(i)).offset + Extra(i));
      bits <= U16(SliceBpg(i)) * GroupsTotal(i) < bits + GroupsTotal(i) <==> SliceBpg(i) < 65536
  {
    hide RatioIndex, InitRow, Extra, GroupsTotal, DivUp, FirstLine;
    var n, d := 2048 * (MODEL_SIZE - InitRow(RatioIndex(i)).offset + Extra(i)), GroupsTotal(i);
    var q := SliceBpg(i);
    DivUpCovers(n, d);
    DivUpAtMost(n, d);
    assert q == 65536 * (q / 65536) + q % 65536;
    OneMore(U16(q), d);
    if q >= 65536 {
      MulGrows(U16(q) + 1, q, d);
    }
  }
}
