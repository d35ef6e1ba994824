/**
 The walk inverts serialisation, and searching by tag finds exactly the blocks of the tag that it visits, but
 for one that runs a byte past the end.
 */
module EdidProofs {
  import opened EdidModel

  ghost predicate AllProper(bs: seq<Block>) {
    forall i :: 0 <= i < |bs| ==> Proper(bs[i])
  }

  // The blocks fill the bytes from i up to the end exactly.
  ghost predicate Tiled(cea: seq<nat>, i: nat, end: nat, bs: seq<Block>) {
    AllProper(bs) && i <= end < |cea| && cea[i..end] == Serialize(bs)
  }

  // The first of the blocks that fill a range is the one at its start, and the rest fill the rest.
  lemma FirstTile(cea: seq<nat>, i: nat, end: nat, bs: seq<Block>)
    requires Tiled(cea, i, end, bs) && bs != []
    ensures i < end && PayloadLen(cea[i]) == |bs[0].payload| && TagOf(cea[i]) == bs[0].tag
    ensures i + |bs[0].payload| < end && BlockAt(cea, i) == bs[0]
    ensures Tiled(cea, i + |bs[0].payload| + 1, end, bs[1..])
  {
    var b, n := bs[0], |bs[0].payload|;
    assert Proper(b);
    assert cea[i..end] == [b.tag * 32 + n] + b.payload + Serialize(bs[1..]);
    Parts(cea, i, end, b.tag * 32 + n, b.payload, Serialize(bs[1..]));
    Header(b.tag, n);
  }

  lemma Parts(cea: seq<nat>, i: nat, end: nat, h: nat, payload: seq<nat>, rest: seq<nat>)
    requires i <= end < |cea| && cea[i..end] == [h] + payload + rest
    ensures i + |payload| < end && cea[i] == h
    ensures cea[i + 1..i + 1 + |payload|] == payload && cea[i + |payload| + 1..end] == rest
  {
    var n, s := |payload|, cea[i..end];
    assert |s| == end - i && |s| == 1 + n + |rest|;
    assert forall k :: 0 <= k < |s| ==> cea[i + k] == s[k];
    var p, r := cea[i + 1..i + 1 + n], cea[i + n + 1..end];
    assert cea[i + 0] == s[0];
    forall k | 0 <= k < n ensures p[k] == payload[k] {
      assert p[k] == cea[i + (1 + k)] == s[1 + k];
    }
    forall k | 0 <= k < |rest| ensures r[k] == rest[k] {
      assert r[k] == cea[i + (1 + n + k)] == s[1 + n + k];
    }
  }

  lemma Header(tag: nat, n: nat)
    requires n < 32
    ensures (tag * 32 + n) / 32 == tag && (tag * 32 + n) % 32 == n
  {
  }

  lemma NoTile(cea: seq<nat>, i: nat, end: nat)
    requires Tiled(cea, i, end, [])
    ensures i == end
  {
    assert |cea[i..end]| == 0;
  }

  lemma TileRange(cea: seq<nat>, i: nat, end: nat, bs: seq<Block>)
    requires Tiled(cea, i, end, bs)
    ensures i <= end < |cea|
  {
  }

  // ----- The walk -----

  /** Walking over serialised blocks enumerates exactly those blocks. */
  lemma {:induction false} WalkInverts(cea: seq<nat>, i: nat, end: nat, bs: seq<Block>)
    requires Tiled(cea, i, end, bs)
    ensures Walk(cea, i, end) == bs
    decreases |bs|
  {
    if bs == [] {
      NoTile(cea, i, end);
    } else {
      FirstTile(cea, i, end, bs);
      WalkInverts(cea, i + |bs[0].payload| + 1, end, bs[1..]);
    }
  }

  /** Whatever the bytes, what the walk enumerates is serialised at the start of them. */
  lemma {:induction false} WalkIsThere(cea: seq<nat>, i: nat, end: nat)
    requires i <= end < |cea| && forall k :: 0 <= k < |cea| ==> cea[k] < 256
    ensures AllProper(Walk(cea, i, end)) && Serialize(Walk(cea, i, end)) <= cea[i..end]
    decreases end - i
  {
    hide PayloadLen, TagOf;
    if i < end && i + PayloadLen(cea[i]) < end {
      var n := PayloadLen(cea[i]);
      var b, rest := BlockAt(cea, i), Walk(cea, i + n + 1, end);
      WalkIsThere(cea, i + n + 1, end);
      HeaderBack(cea[i]);
      Cut(cea, i, end, n);
      Starts(b, rest, cea[i..end], cea[i + n + 1..end]);
      assert Walk(cea, i, end) == [b] + rest;
    }
  }

  // The bytes of a block, and those after it.
  lemma Cut(cea: seq<nat>, i: nat, end: nat, n: nat)
    requires i + n < end <= |cea|
    ensures cea[i..end] == [cea[i]] + cea[i + 1..i + 1 + n] + cea[i + n + 1..end]
  {
    assert cea[i..end] == [cea[i]] + cea[i + 1..end];
    assert cea[i + 1..end] == cea[i + 1..i + 1 + n] + cea[i + 1 + n..end];
  }

  lemma HeaderBack(h: nat)
    requires h < 256
    ensures TagOf(h) * 32 + PayloadLen(h) == h && TagOf(h) < 8 && PayloadLen(h) < 32
  {
  }

  // Putting a block in front of bytes puts it in front of the blocks they start with.
  lemma Starts(b: Block, rest: seq<Block>, bytes: seq<nat>, after: seq<nat>)
    requires Serialize(rest) <= after && bytes == [b.tag * 32 + |b.payload|] + b.payload + after
    ensures Serialize([b] + rest) <= bytes
  {
    assert ([b] + rest)[1..] == rest;
    var front := [b.tag * 32 + |b.payload|] + b.payload;
    assert Serialize([b] + rest) == front + Serialize(rest);
    assert after == Serialize(rest) + after[|Serialize(rest)|..];
    assert bytes == (front + Serialize(rest)) + after[|Serialize(rest)|..];
  }

  // ----- Searching by tag -----

  lemma {:induction false} SeekFinds(cea: seq<nat>, i: nat, tag: nat, bs: seq<Block>) returns (skipped: nat)
    requires Extension(cea) && Tiled(cea, i, cea[2], bs)
    ensures match Seek(cea, i, tag)
      case Nowhere => OfTag(bs, tag) == []
      case At(a) =>
        && skipped < |bs| && BlockAt(cea, a) == bs[skipped] && OfTag(bs, tag) == [bs[skipped]] + OfTag(bs[skipped + 1..], tag)
        && Tiled(cea, a + 1 + PayloadLen(cea[a]), cea[2], bs[skipped + 1..])
    decreases |bs|
  {
    hide Tiled, Serialize, AllProper, PayloadLen, TagOf, Seek, OfTag;
    skipped := 0;
    SeekStep(cea, i, tag);
    OfTagStep(bs, tag);
    if bs == [] {
      NoTile(cea, i, cea[2]);
    } else {
      TileRange(cea, i, cea[2], bs);
      FirstTile(cea, i, cea[2], bs);
      if bs[0].tag != tag {
        var k := SeekFinds(cea, i + 1 + |bs[0].payload|, tag, bs[1..]);
        skipped := k + 1;
        if Seek(cea, i, tag).At? {
          assert bs[1..][k + 1..] == bs[skipped + 1..];
        }
      }
    }
  }

  lemma SeekStep(cea: seq<nat>, i: nat, tag: nat)
    requires Extension(cea)
    ensures Seek(cea, i, tag) ==
      if i >= cea[2] then Nowhere
      else if i + PayloadLen(cea[i]) <= cea[2] && TagOf(cea[i]) == tag then At(i)
      else Seek(cea, i + 1 + PayloadLen(cea[i]), tag)
  {
  }

  lemma OfTagStep(bs: seq<Block>, tag: nat)
    ensures bs == [] ==> OfTag(bs, tag) == []
    ensures bs != [] && bs[0].tag == tag ==> OfTag(bs, tag) == [bs[0]] + OfTag(bs[1..], tag)
    ensures bs != [] && bs[0].tag != tag ==> OfTag(bs, tag) == OfTag(bs[1..], tag)
  {
  }

  /** Searching on and on for a tag returns exactly the blocks of that tag, in order. */
  lemma {:induction false} FindsTheTag(cea: seq<nat>, i: nat, tag: nat, bs: seq<Block>)
    requires Extension(cea) && cea[2] > 4 && Tiled(cea, i, cea[2], bs)
    ensures FindAll(cea, i, tag) == OfTag(bs, tag)
    decreases |bs|
  {
    var k := SeekFinds(cea, i, tag, bs);
    match FindBlock(cea, i, tag) {
      case Nowhere =>
      case At(a) => FindsTheTag(cea, a + 1 + PayloadLen(cea[a]), tag, bs[k + 1..]);
    }
  }

  // The blocks fill the collection of the extension, wherever its byte 2 says that it ends.
  ghost predicate Filled(cea: seq<nat>, bs: seq<Block>) {
    |cea| >= EXTENSION_SIZE && EndOfBlocks(cea) >= 0 && Tiled(cea, FIRST_BLOCK, EndOfBlocks(cea), bs)
  }

  /** The data blocks of an extension are exactly those that fill its collection, which ends at 127 if byte 2 is 0. */
  lemma {:induction false} DataBlocksInvert(cea: seq<nat>, bs: seq<Block>)
    requires Filled(cea, bs)
    ensures DataBlocks(cea) == bs
  {
    WalkInverts(cea, FIRST_BLOCK, EndOfBlocks(cea), bs);
  }

  // The block at k runs one byte past the end, and has the tag.
  predicate Overruns(cea: seq<nat>, k: nat, tag: nat)
    requires Extension(cea)
  {
    k < cea[2] && k + PayloadLen(cea[k]) == cea[2] && TagOf(cea[k]) == tag
  }

  function Overrun(cea: seq<nat>, k: nat, tag: nat): seq<Block>
    requires Extension(cea)
  {
    if Overruns(cea, k, tag) then [BlockAt(cea, k)] else []
  }

  lemma FindAllStep(cea: seq<nat>, i: nat, tag: nat)
    requires Extension(cea) && cea[2] != 0 && cea[2] != 4
    ensures FindAll(cea, i, tag) ==
      if i >= cea[2] then []
      else if i + PayloadLen(cea[i]) <= cea[2] && TagOf(cea[i]) == tag then
        [BlockAt(cea, i)] + FindAll(cea, i + 1 + PayloadLen(cea[i]), tag)
      else FindAll(cea, i + 1 + PayloadLen(cea[i]), tag)
  {
    SeekStep(cea, i, tag);
  }

  /** Whatever the bytes, searching on and on for a tag finds the blocks of the tag that the walk to byte 2 visits, and
      after them the block where it stops, if that runs one byte past the end and has the tag. */
  lemma {:induction false} SearchIsWalkAndOverrun(cea: seq<nat>, i: nat, tag: nat)
    requires Extension(cea) && cea[2] != 0 && cea[2] != 4
    ensures FindAll(cea, i, tag) == OfTag(Walk(cea, i, cea[2]), tag) + Overrun(cea, WalkStop(cea, i, cea[2]), tag)
    decreases |cea| - i
  {
    hide FindAll, OfTag, PayloadLen, TagOf;
    FindAllStep(cea, i, tag);
    if i < cea[2] && i + PayloadLen(cea[i]) < cea[2] {
      var rest := Walk(cea, i + PayloadLen(cea[i]) + 1, cea[2]);
      SearchIsWalkAndOverrun(cea, i + PayloadLen(cea[i]) + 1, tag);
      assert Walk(cea, i, cea[2])[1..] == rest;
      OfTagStep(Walk(cea, i, cea[2]), tag);
    } else {
      OfTagStep([], tag);
      if i < cea[2] {
        FindAllStep(cea, i + 1 + PayloadLen(cea[i]), tag);
      }
    }
  }

  // What makes the search find the data blocks of the tag and nothing else: with byte 2 in range, that the walk does
  // not stop at a block of the tag that runs one byte past the end; with byte 2 at 0, where the search finds nothing,
  // or past 127, where there are no data blocks, that there is nothing to find.
  predicate SearchFits(cea: seq<nat>, tag: nat)
    requires Extension(cea)
  {
    if cea[2] == 0 then OfTag(Walk(cea, FIRST_BLOCK, 127), tag) == []
    else
      var stop := WalkStop(cea, FIRST_BLOCK, cea[2]);
      && (cea[2] > 127 ==> OfTag(Walk(cea, FIRST_BLOCK, cea[2]), tag) == [])
      && !Overruns(cea, stop, tag)
  }

  /** On every extension, the search by tag finds the data blocks of the tag exactly if it fits. */
  lemma {:induction false} SearchMatchesWalkIff(cea: seq<nat>, tag: nat)
    requires Extension(cea)
    ensures FindAll(cea, FIRST_BLOCK, tag) == OfTag(DataBlocks(cea), tag) <==> SearchFits(cea, tag)
  {
    hide OfTag, PayloadLen, TagOf;
    OfTagStep([], tag);
    if cea[2] <= FIRST_BLOCK {
      assert cea[2] != 0 ==> Walk(cea, FIRST_BLOCK, cea[2]) == [] && WalkStop(cea, FIRST_BLOCK, cea[2]) == FIRST_BLOCK;
      if cea[2] != 0 && cea[2] != 4 {
        FindAllStep(cea, FIRST_BLOCK, tag);
      }
    } else {
      var found := OfTag(Walk(cea, FIRST_BLOCK, cea[2]), tag);
      var more := Overrun(cea, WalkStop(cea, FIRST_BLOCK, cea[2]), tag);
      SearchIsWalkAndOverrun(cea, FIRST_BLOCK, tag);
      assert |found + more| == |found| + |more|;
    }
  }

  /** The search finds an audio block of one byte right before byte 5 ends the collection, and the walk does not. */
  lemma {:induction false} SearchOverruns(cea: seq<nat>)
    requires Extension(cea) && cea[2] == 5 && cea[4] == 33
    ensures FindAll(cea, FIRST_BLOCK, AUDIO) == [Block(AUDIO, [cea[5]])] && DataBlocks(cea) == []
  {
    hide FindAll;
    FindAllStep(cea, 4, AUDIO);
    FindAllStep(cea, 6, AUDIO);
    assert cea[5..6] == [cea[5]];
  }

  /** Two memories that agree on the extension's 128 bytes give the same search, if byte 2 stays among them. */
  lemma {:induction false} SearchStaysInside(cea: seq<nat>, other: seq<nat>, i: nat, tag: nat)
    requires Extension(cea) && Extension(other) && cea[..EXTENSION_SIZE] == other[..EXTENSION_SIZE]
    requires cea[2] < EXTENSION_SIZE
    ensures FindAll(cea, i, tag) == FindAll(other, i, tag)
    decreases |cea| - i
  {
    hide PayloadLen, TagOf, FindAll;
    assert cea[2] == cea[..EXTENSION_SIZE][2] == other[2];
    if cea[2] != 0 && cea[2] != 4 {
      FindAllStep(cea, i, tag);
      FindAllStep(other, i, tag);
      if i < cea[2] {
        assert cea[i] == cea[..EXTENSION_SIZE][i] == other[i];
        SearchStaysInside(cea, other, i + 1 + PayloadLen(cea[i]), tag);
        if i + PayloadLen(cea[i]) <= cea[2] {
          var e := i + 1 + PayloadLen(cea[i]);
          SameSlice(cea, other, i + 1, e);
        }
      }
    } else {
      NothingFound(cea, i, tag);
      NothingFound(other, i, tag);
    }
  }

  lemma SameSlice(cea: seq<nat>, other: seq<nat>, i: nat, e: nat)
    requires i <= e <= EXTENSION_SIZE <= |cea| && EXTENSION_SIZE <= |other|
    requires cea[..EXTENSION_SIZE] == other[..EXTENSION_SIZE]
    ensures cea[i..e] == other[i..e]
  {
    forall k | i <= k < e ensures cea[k] == other[k] {
      assert cea[k] == cea[..EXTENSION_SIZE][k] && other[k] == other[..EXTENSION_SIZE][k];
    }
  }

  lemma NothingFound(cea: seq<nat>, i: nat, tag: nat)
    requires Extension(cea) && (cea[2] == 0 || cea[2] == 4)
    ensures FindAll(cea, i, tag) == []
  {
  }
}
