/**
 Data blocks of a CEA-861 extension (section 7.5) as msm/sde_edid_parser.c walks them: the loop over all
 blocks, the search for a block by tag, and the extraction of the audio blocks.
 */
module EdidModel {

  const EXTENSION_SIZE: nat := 128
  const FIRST_BLOCK: nat := 4
  const AUDIO: nat := 1
  const MAX_AUDIO_BLOCKS: nat := 5
  const MAX_AUDIO_SIZE: nat := 30

  // A data block: a header byte of tag and payload length, then the payload.
  datatype Block = Block(tag: nat, payload: seq<nat>)

  predicate Proper(b: Block) {
    b.tag < 8 && |b.payload| < 32
  }

  function Serialize(bs: seq<Block>): seq<nat> {
    if bs == [] then [] else [bs[0].tag * 32 + |bs[0].payload|] + bs[0].payload + Serialize(bs[1..])
  }

  // sde_cea_db_payload_len and sde_cea_db_tag
  function PayloadLen(header: nat): nat {
    header % 32
  }

  function TagOf(header: nat): nat {
    header / 32
  }

  // The bytes from the start of an extension on.  Byte 2 may point past the extension's own 128 bytes, where
  // the search by tag goes on reading.
  predicate Extension(cea: seq<nat>) {
    |cea| >= EXTENSION_SIZE && cea[2] < |cea|
  }

  function BlockAt(cea: seq<nat>, i: nat): Block
    requires i < |cea| && i + PayloadLen(cea[i]) < |cea|
  {
    Block(TagOf(cea[i]), cea[i + 1..i + 1 + PayloadLen(cea[i])])
  }

  // ----- The loop over all blocks -----

  // sde_cea_db_offsets: where the blocks end, or -1 for -ERANGE
  function EndOfBlocks(cea: seq<nat>): (end: int)
    requires |cea| >= EXTENSION_SIZE
    ensures end == -1 || FIRST_BLOCK <= end < EXTENSION_SIZE
  {
    if cea[2] == 0 then 127 else if cea[2] < FIRST_BLOCK || cea[2] > 127 then -1 else cea[2]
  }

  // The blocks sde_for_each_cea_db visits from i on
  function Walk(cea: seq<nat>, i: nat, end: nat): seq<Block>
    requires end < |cea|
    decreases |cea| - i
  {
    if i < end && i + PayloadLen(cea[i]) < end then
      [BlockAt(cea, i)] + Walk(cea, i + PayloadLen(cea[i]) + 1, end)
    else []
  }

  // Where the walk stops
  function WalkStop(cea: seq<nat>, i: nat, end: nat): nat
    requires end < |cea|
    decreases |cea| - i
  {
    if i < end && i + PayloadLen(cea[i]) < end then WalkStop(cea, i + PayloadLen(cea[i]) + 1, end) else i
  }

  // The data blocks of an extension: sde_cea_db_offsets, then the loop
  function DataBlocks(cea: seq<nat>): seq<Block>
    requires |cea| >= EXTENSION_SIZE
  {
    if EndOfBlocks(cea) < 0 then [] else Walk(cea, FIRST_BLOCK, EndOfBlocks(cea))
  }

  // ----- Searching by tag -----

  datatype Found = Nowhere | At(offset: nat)

  function Seek(cea: seq<nat>, i: nat, tag: nat): (f: Found)
    requires Extension(cea)
    ensures f.At? ==> i <= f.offset < cea[2] && f.offset + PayloadLen(cea[f.offset]) <= cea[2]
    decreases |cea| - i
  {
    if i >= cea[2] then Nowhere
    else if i + PayloadLen(cea[i]) <= cea[2] && TagOf(cea[i]) == tag then At(i)
    else Seek(cea, i + 1 + PayloadLen(cea[i]), tag)
  }

  // _sde_edid_find_block
  function FindBlock(cea: seq<nat>, i: nat, tag: nat): (f: Found)
    requires Extension(cea)
    ensures f.At? ==> i <= f.offset < cea[2] && f.offset + PayloadLen(cea[f.offset]) <= cea[2]
  {
    if cea[2] == 0 || cea[2] == 4 then Nowhere else Seek(cea, i, tag)
  }

  // Every block found by searching on from after the one before
  function FindAll(cea: seq<nat>, i: nat, tag: nat): seq<Block>
    requires Extension(cea)
    decreases |cea| - i
  {
    match FindBlock(cea, i, tag)
    case Nowhere => []
    case At(a) => [BlockAt(cea, a)] + FindAll(cea, a + 1 + PayloadLen(cea[a]), tag)
  }

  // ----- Extracting the audio blocks -----

  // The variables of the loop: where to search on, blocks taken so far, and the bytes copied
  datatype Audio = Audio(offset: nat, count: nat, data: seq<nat>)

  datatype Pass = Exit(s: Audio) | Again(s: Audio)

  predicate Usable(b: Block, count: nat) {
    |b.payload| <= MAX_AUDIO_SIZE && count < MAX_AUDIO_BLOCKS
  }

  // One pass through the do-while loop of _sde_edid_extract_audio_data_blocks, up to its condition
  function Body(cea: seq<nat>, s: Audio): Pass
    requires Extension(cea)
  {
    match FindBlock(cea, s.offset, AUDIO)
    case Nowhere => Exit(s)
    case At(a) =>
      var b := BlockAt(cea, a);
      if !Usable(b, s.count) then (if s.data == [] then Exit(s) else Again(s))
      else Again(Audio(a + 1 + |b.payload|, s.count + 1, s.data + b.payload))
  }

  // n passes, or fewer if the loop ends
  function Passes(cea: seq<nat>, s: Audio, n: nat): Pass
    requires Extension(cea)
    decreases n
  {
    if n == 0 then Again(s)
    else match Body(cea, s)
      case Exit(t) => Exit(t)
      case Again(t) => Passes(cea, t, n - 1)
  }

  // What becomes of the loop, given the audio blocks still to come: it ends, or a block it cannot use
  // comes up after some bytes were copied.
  datatype Fate = Ends(data: seq<nat>) | Spins

  function FateOf(bs: seq<Block>, count: nat, data: seq<nat>): Fate {
    if bs == [] then Ends(data)
    else if !Usable(bs[0], count) then (if data == [] then Ends(data) else Spins)
    else FateOf(bs[1..], count + 1, data + bs[0].payload)
  }

  function OfTag(bs: seq<Block>, tag: nat): seq<Block> {
    if bs == [] then [] else (if bs[0].tag == tag then [bs[0]] else []) + OfTag(bs[1..], tag)
  }

  function Payloads(bs: seq<Block>): seq<nat> {
    if bs == [] then [] else bs[0].payload + Payloads(bs[1..])
  }
}
