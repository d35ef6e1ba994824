/**
 The data block loops of msm/sde_edid_parser.c in place.
 */
module EdidDriver {
  import M = EdidModel
  import P = EdidAudio

  // the loop that sde_for_each_cea_db opens
  method ForEachBlock(cea: seq<nat>, start: nat, end: nat) returns (bs: seq<M.Block>)
    requires end < |cea|
    ensures bs == M.Walk(cea, start, end)
  {
    bs := [];
    var i := start;
    assert [] + M.Walk(cea, start, end) == M.Walk(cea, start, end);
    while i < end && i + M.PayloadLen(cea[i]) < end
      invariant M.Walk(cea, start, end) == bs + M.Walk(cea, i, end)
      decreases |cea| - i
    {
      var b := M.BlockAt(cea, i);
      ghost var rest := M.Walk(cea, i + M.PayloadLen(cea[i]) + 1, end);
      assert bs + ([b] + rest) == (bs + [b]) + rest;
      bs := bs + [b];
      i := i + M.PayloadLen(cea[i]) + 1;
    }
    assert bs + [] == bs;
  }

  // sde_cea_db_offsets
  method Offsets(cea: seq<nat>) returns (ok: bool, start: nat, end: nat)
    requires |cea| >= M.EXTENSION_SIZE
    ensures ok == (M.EndOfBlocks(cea) >= 0) && (ok ==> start == M.FIRST_BLOCK && end == M.EndOfBlocks(cea))
  {
    start, end := 4, cea[2];
    if end == 0 {
      end := 127;
    }
    ok := 4 <= end <= 127;
  }

  // how the parser goes over the blocks of an extension
  method DataBlocks(cea: seq<nat>) returns (bs: seq<M.Block>)
    requires |cea| >= M.EXTENSION_SIZE
    ensures bs == M.DataBlocks(cea)
  {
    var ok, start, end := Offsets(cea);
    if !ok { return []; }
    bs := ForEachBlock(cea, start, end);
  }

  // _sde_edid_find_block
  method FindBlock(cea: seq<nat>, start: nat, tag: nat) returns (f: M.Found)
    requires M.Extension(cea)
    ensures f == M.FindBlock(cea, start, tag)
  {
    var dbc := cea[2];
    if dbc == 0 || dbc == 4 { return M.Nowhere; }
    var offset := start;
    while offset < dbc
      invariant M.Seek(cea, start, tag) == M.Seek(cea, offset, tag)
    {
      var len := M.PayloadLen(cea[offset]);
      if offset + len <= dbc && M.TagOf(cea[offset]) == tag { return M.At(offset); }
      offset := offset + 1 + len;
    }
    return M.Nowhere;
  }

  class EdidCtrl {
    const audio: array<nat>    // audio_data_block
    var adbSize: nat

    constructor ()
      ensures fresh(audio) && audio.Length == M.MAX_AUDIO_BLOCKS * M.MAX_AUDIO_SIZE && adbSize == 0
    {
      audio := new nat[M.MAX_AUDIO_BLOCKS * M.MAX_AUDIO_SIZE];
      adbSize := 0;
    }

    ghost predicate Valid()
      reads this
    {
      audio.Length == M.MAX_AUDIO_BLOCKS * M.MAX_AUDIO_SIZE && adbSize <= audio.Length
    }

    // memcpy to the end of the bytes copied so far
    method Append(bytes: seq<nat>)
      requires Valid() && adbSize + |bytes| <= audio.Length
      modifies this`adbSize, audio
      ensures Valid() && audio[..adbSize] == old(audio[..adbSize]) + bytes
      ensures adbSize == old(adbSize) + |bytes|
    {
      var i := 0;
      while i < |bytes|
        invariant i <= |bytes| && adbSize == old(adbSize) && audio[..adbSize + i] == old(audio[..adbSize]) + bytes[..i]
      {
        audio[adbSize + i] := bytes[i];
        assert audio[..adbSize + (i + 1)] == audio[..adbSize + i] + [bytes[i]];
        assert bytes[..i + 1] == bytes[..i] + [bytes[i]];
        i := i + 1;
      }
      assert bytes[..i] == bytes;
      adbSize := adbSize + |bytes|;
    }

    // _sde_edid_extract_audio_data_blocks; where the source goes round for ever, this returns false
    method ExtractAudio(cea: seq<nat>) returns (ends: bool, ghost passes: nat)
      requires Valid() && M.Extension(cea)
      modifies this`adbSize, audio
      ensures Valid()
      ensures ends ==> M.Passes(cea, P.START, passes).Exit? && audio[..adbSize] == M.Passes(cea, P.START, passes).s.data
      ensures !ends ==> forall n: nat :: M.Passes(cea, P.START, n).Again?
    {
      hide M.FindBlock;
      adbSize := 0;
      var count: nat, offset: nat := 0, M.FIRST_BLOCK;
      ghost var s := P.START;
      passes := 0;
      while true
        invariant Valid() && s == M.Audio(offset, count, audio[..adbSize])
        invariant count <= M.MAX_AUDIO_BLOCKS && adbSize <= M.MAX_AUDIO_SIZE * count
        invariant P.Reached(cea, s, passes)
        decreases M.MAX_AUDIO_BLOCKS - count
      {
        var f := FindBlock(cea, offset, M.AUDIO);
        if f.Nowhere? {
          P.ExitsNext(cea, s, passes);
          passes := passes + 1;
          return true, passes;
        }
        var b := M.BlockAt(cea, f.offset);
        if |b.payload| > M.MAX_AUDIO_SIZE || count >= M.MAX_AUDIO_BLOCKS {
          if adbSize == 0 {
            P.ExitsNext(cea, s, passes);
            passes := passes + 1;
            return true, passes;
          }
          P.NeverExits(cea, s, passes);
          return false, passes;
        }
        P.OneMorePass(cea, s, passes);
        s := M.Body(cea, s).s;
        passes := passes + 1;
        Append(b.payload);
        offset := f.offset + 1 + |b.payload|;
        count := count + 1;
      }
    }
  }
}
