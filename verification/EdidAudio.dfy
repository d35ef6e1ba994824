/**
 The extraction of audio blocks ends exactly when it meets no block it cannot use after bytes were copied.
 */
module EdidAudio {
  import opened EdidModel
  import opened EdidProofs

  ghost predicate Blocks(cea: seq<nat>, bs: seq<Block>) {
    Extension(cea) && FIRST_BLOCK < cea[2] && Tiled(cea, FIRST_BLOCK, cea[2], bs)
  }

  // ----- The audio blocks -----

  // One pass meets the next audio block that the search finds.
  lemma {:induction false} BodyMeets(cea: seq<nat>, s: Audio)
    requires Extension(cea)
    ensures var audio := FindAll(cea, s.offset, AUDIO);
      if audio == [] then Body(cea, s) == Exit(s)
      else if !Usable(audio[0], s.count) then Body(cea, s) == (if s.data == [] then Exit(s) else Again(s))
      else
        && Body(cea, s).Again? && FindAll(cea, Body(cea, s).s.offset, AUDIO) == audio[1..]
        && Body(cea, s).s.count == s.count + 1 && Body(cea, s).s.data == s.data + audio[0].payload
  {
    hide FindBlock, PayloadLen, TagOf;
    var audio := FindAll(cea, s.offset, AUDIO);
    match FindBlock(cea, s.offset, AUDIO) {
      case Nowhere =>
      case At(a) =>
        var rest := FindAll(cea, a + 1 + PayloadLen(cea[a]), AUDIO);
        assert audio == [BlockAt(cea, a)] + rest && audio[1..] == rest;
    }
  }

  lemma {:induction false} StaysPut(cea: seq<nat>, s: Audio, n: nat)
    requires Extension(cea) && Body(cea, s) == Again(s)
    ensures Passes(cea, s, n) == Again(s)
  {
    if n > 0 {
      StaysPut(cea, s, n - 1);
    }
  }

  // The loop ends after some number of passes with the bytes its fate names, or never.
  lemma {:induction false} FateIsMet(cea: seq<nat>, s: Audio) returns (n: nat)
    requires Extension(cea)
    ensures match FateOf(FindAll(cea, s.offset, AUDIO), s.count, s.data)
      case Ends(data) => Passes(cea, s, n).Exit? && Passes(cea, s, n).s.data == data
      case Spins => forall m: nat :: Passes(cea, s, m).Again?
    decreases |FindAll(cea, s.offset, AUDIO)|
  {
    hide FindAll, Body;
    var audio := FindAll(cea, s.offset, AUDIO);
    BodyMeets(cea, s);
    if audio == [] || (!Usable(audio[0], s.count) && s.data == []) {
      n := 1;
    } else if !Usable(audio[0], s.count) {
      n := 0;
      forall m: nat ensures Passes(cea, s, m).Again? {
        StaysPut(cea, s, m);
      }
    } else {
      var t := Body(cea, s).s;
      var k := FateIsMet(cea, t);
      n := k + 1;
      if FateOf(audio, s.count, s.data).Spins? {
        forall m: nat ensures Passes(cea, s, m).Again? {
          if m > 0 {
            assert Passes(cea, s, m) == Passes(cea, t, m - 1);
          }
        }
      }
    }
  }

  // When every block is usable the loop ends with all their payloads; the first unusable one makes it
  // spin unless nothing was copied before it.
  lemma {:induction false} FateIs(bs: seq<Block>, count: nat, data: seq<nat>)
    requires forall i :: 0 <= i < |bs| ==> Usable(bs[i], count + i)
    ensures FateOf(bs, count, data) == Ends(data + Payloads(bs))
  {
    if bs == [] {
      assert data + [] == data;
    } else {
      assert Usable(bs[0], count + 0);
      forall i | 0 <= i < |bs[1..]| ensures Usable(bs[1..][i], count + 1 + i) {
        assert bs[1..][i] == bs[i + 1] && Usable(bs[i + 1], count + (i + 1));
      }
      FateIs(bs[1..], count + 1, data + bs[0].payload);
      assert (data + bs[0].payload) + Payloads(bs[1..]) == data + Payloads(bs);
    }
  }

  // The place of the first audio block that cannot be used
  ghost predicate FirstUnusable(audio: seq<Block>, u: nat) {
    u < |audio| && !Usable(audio[u], u) && forall i :: 0 <= i < u ==> Usable(audio[i], i)
  }

  // A block that cannot be used comes up after some bytes were copied.
  ghost predicate Chokes(audio: seq<Block>) {
    exists u: nat :: FirstUnusable(audio, u) && Payloads(audio[..u]) != []
  }

  lemma {:induction false} SpinsIf(bs: seq<Block>, count: nat, data: seq<nat>, u: nat)
    requires u < |bs| && !Usable(bs[u], count + u) && forall i :: 0 <= i < u ==> Usable(bs[i], count + i)
    ensures FateOf(bs, count, data) == if data + Payloads(bs[..u]) == [] then Ends([]) else Spins
    decreases u
  {
    if u == 0 {
      assert data + [] == data;
    } else {
      assert Usable(bs[0], count + 0);
      forall i | 0 <= i < u - 1 ensures Usable(bs[1..][i], count + 1 + i) {
        assert bs[1..][i] == bs[i + 1] && Usable(bs[i + 1], count + (i + 1));
      }
      SpinsIf(bs[1..], count + 1, data + bs[0].payload, u - 1);
      assert bs[..u][0] == bs[0] && bs[..u][1..] == bs[1..][..u - 1];
      assert (data + bs[0].payload) + Payloads(bs[1..][..u - 1]) == data + Payloads(bs[..u]);
    }
  }

  const START: Audio := Audio(FIRST_BLOCK, 0, [])

  /** With at most five audio blocks of at most 30 bytes the extraction ends with their payloads, whatever the bytes. */
  lemma FoundAreExtracted(cea: seq<nat>) returns (n: nat)
    requires Extension(cea) && |FindAll(cea, FIRST_BLOCK, AUDIO)| <= MAX_AUDIO_BLOCKS
    requires var audio := FindAll(cea, FIRST_BLOCK, AUDIO);
      forall i :: 0 <= i < |audio| ==> |audio[i].payload| <= MAX_AUDIO_SIZE
    ensures Passes(cea, START, n).Exit? && Passes(cea, START, n).s.data == Payloads(FindAll(cea, FIRST_BLOCK, AUDIO))
  {
    hide FindAll, Passes;
    var audio := FindAll(cea, FIRST_BLOCK, AUDIO);
    FateIs(audio, 0, []);
    assert [] + Payloads(audio) == Payloads(audio);
    n := FateIsMet(cea, START);
  }

  /** With blocks that fill the collection, these are the blocks with the audio tag. */
  lemma AudioIsExtracted(cea: seq<nat>, bs: seq<Block>) returns (n: nat)
    requires Blocks(cea, bs) && |OfTag(bs, AUDIO)| <= MAX_AUDIO_BLOCKS
    requires forall i :: 0 <= i < |OfTag(bs, AUDIO)| ==> |OfTag(bs, AUDIO)[i].payload| <= MAX_AUDIO_SIZE
    ensures Passes(cea, START, n).Exit? && Passes(cea, START, n).s.data == Payloads(OfTag(bs, AUDIO))
  {
    FindsTheTag(cea, FIRST_BLOCK, AUDIO, bs);
    n := FoundAreExtracted(cea);
  }

  lemma {:induction false} SpinsAfter(cea: seq<nat>, u: nat)
    requires Extension(cea) && FirstUnusable(FindAll(cea, FIRST_BLOCK, AUDIO), u)
    requires Payloads(FindAll(cea, FIRST_BLOCK, AUDIO)[..u]) != []
    ensures forall n: nat :: Passes(cea, START, n).Again?
  {
    hide Passes, FindAll;
    var audio := FindAll(cea, FIRST_BLOCK, AUDIO);
    SpinsIf(audio, 0, [], u);
    assert [] + Payloads(audio[..u]) == Payloads(audio[..u]);
    var n := FateIsMet(cea, START);
  }

  lemma {:induction false} EndsOtherwise(cea: seq<nat>) returns (n: nat)
    requires Extension(cea) && !Chokes(FindAll(cea, FIRST_BLOCK, AUDIO))
    ensures Passes(cea, START, n).Exit?
  {
    hide Passes, FindAll;
    var audio := FindAll(cea, FIRST_BLOCK, AUDIO);
    if u: nat :| FirstUnusable(audio, u) {
      SpinsIf(audio, 0, [], u);
      assert Payloads(audio[..u]) == [];
      assert [] + Payloads(audio[..u]) == [];
    } else {
      AllUsable(audio, |audio|);
      FateIs(audio, 0, []);
    }
    n := FateIsMet(cea, START);
  }

  /** On every extension, the loop never ends exactly when an audio block that the search finds is the sixth or longer
      than 30 bytes and the ones before it were not all empty. */
  lemma AudioSpinsIff(cea: seq<nat>)
    requires Extension(cea)
    ensures (forall n: nat :: Passes(cea, START, n).Again?) <==> Chokes(FindAll(cea, FIRST_BLOCK, AUDIO))
  {
    hide Passes, FindAll, Payloads;
    var audio := FindAll(cea, FIRST_BLOCK, AUDIO);
    if u: nat :| FirstUnusable(audio, u) && Payloads(audio[..u]) != [] {
      SpinsAfter(cea, u);
    } else {
      var n := EndsOtherwise(cea);
      assert !Passes(cea, START, n).Again?;
    }
  }

  lemma {:induction false} AllUsable(audio: seq<Block>, n: nat)
    requires n <= |audio| && forall u: nat :: !FirstUnusable(audio, u)
    ensures forall i :: 0 <= i < n ==> Usable(audio[i], i)
  {
    if n > 0 {
      AllUsable(audio, n - 1);
      assert !FirstUnusable(audio, n - 1);
    }
  }

  // ----- Extensions on which it spins -----

  // Six audio blocks of one byte at the start of the collection.
  ghost predicate SixAudioBlocks(cea: seq<nat>) {
    && Extension(cea) && cea[2] >= 16
    && forall k {:trigger cea[k]} :: 4 <= k < 16 ==> cea[k] == if k % 2 == 0 then 33 else 7
  }

  lemma {:induction false} FoundInTurn(cea: seq<nat>, k: nat) returns (rest: seq<Block>)
    requires SixAudioBlocks(cea) && k <= 6
    ensures FindAll(cea, 16 - 2 * k, AUDIO) == seq(k, _ => Block(AUDIO, [7])) + rest
  {
    hide FindAll;
    var i := 16 - 2 * k;
    if k == 0 {
      rest := FindAll(cea, i, AUDIO);
      assert [] + rest == rest;
    } else {
      rest := FoundInTurn(cea, k - 1);
      FindAllStep(cea, i, AUDIO);
      assert cea[i] == 33 && cea[i + 1] == 7 && cea[i + 1..i + 2] == [7];
      assert [Block(AUDIO, [7])] + (seq(k - 1, _ => Block(AUDIO, [7])) + rest) == seq(k, _ => Block(AUDIO, [7])) + rest;
    }
  }

  /** It spins on every extension that starts with six of them, whatever follows. */
  lemma {:induction false} SixAudioBlocksSpin(cea: seq<nat>)
    requires SixAudioBlocks(cea)
    ensures forall n: nat :: Passes(cea, START, n).Again?
  {
    hide FindAll, Passes;
    var rest := FoundInTurn(cea, 6);
    var audio := FindAll(cea, FIRST_BLOCK, AUDIO);
    assert forall i :: 0 <= i < 6 ==> audio[i] == Block(AUDIO, [7]);
    assert Usable(audio[0], 0) && !Usable(audio[5], 5) && FirstUnusable(audio, 5);
    assert Payloads(audio[..5]) == audio[0].payload + Payloads(audio[..5][1..]);
    SpinsAfter(cea, 5);
  }

  // After the six comes the end of the collection, or a header whose payload would run past it.
  function Spinning(filled: bool): seq<nat> {
    seq(EXTENSION_SIZE, k =>
      if k == 0 then 2
      else if k == 1 then 3
      else if k == 2 then (if filled then 16 else 20)
      else if 4 <= k < 16 then (if k % 2 == 0 then 33 else 7)
      else if k == 16 && !filled then 31
      else 0)
  }

  /** Two of them: in one, blocks fill the collection; in the other, no blocks do. */
  lemma {:induction false} SpinningInputs()
    ensures SixAudioBlocks(Spinning(true)) && SixAudioBlocks(Spinning(false))
    ensures Blocks(Spinning(true), seq(6, _ => Block(AUDIO, [7])))
    ensures !exists bs :: Blocks(Spinning(false), bs)
  {
    SixFill(Spinning(true));
    if bs :| Blocks(Spinning(false), bs) {
      NotFilled(Spinning(false), bs);
    }
  }

  lemma {:induction false} SixFill(cea: seq<nat>)
    requires SixAudioBlocks(cea) && cea[2] == 16
    ensures Blocks(cea, seq(6, _ => Block(AUDIO, [7])))
  {
    hide Serialize;
    SixSerialized(6);
    assert cea[4..16] == seq(12, k => if k % 2 == 0 then 33 else 7);
  }

  lemma {:induction false} SixSerialized(n: nat)
    ensures Serialize(seq(n, _ => Block(AUDIO, [7]))) == seq(2 * n, k => if k % 2 == 0 then 33 else 7)
  {
    if n > 0 {
      SixSerialized(n - 1);
      var bs := seq(n, _ => Block(AUDIO, [7]));
      assert bs[1..] == seq(n - 1, _ => Block(AUDIO, [7]));
      assert Serialize(bs) == [33] + [7] + Serialize(bs[1..]);
    }
  }

  // Blocks that filled the collection would have to end where the seventh header is.
  lemma {:induction false} NotFilled(cea: seq<nat>, bs: seq<Block>)
    requires SixAudioBlocks(cea) && cea[2] == 20 && cea[16] == 31
    ensures !Blocks(cea, bs)
  {
    hide Tiled;
    if Blocks(cea, bs) {
      var rest := LastTile(cea, 4, bs, 6);
      assert rest == [] by {
        if rest != [] { FirstTile(cea, 16, 20, rest); }
      }
      NoTile(cea, 16, 20);
    }
  }

  // The blocks after the first k.
  lemma {:induction false} LastTile(cea: seq<nat>, i: nat, bs: seq<Block>, k: nat) returns (rest: seq<Block>)
    requires SixAudioBlocks(cea) && cea[2] == 20 && k <= 6 && i == 16 - 2 * k && Tiled(cea, i, 20, bs)
    ensures Tiled(cea, 16, 20, rest)
    decreases k
  {
    hide Tiled;
    if k == 0 {
      rest := bs;
    } else {
      if bs == [] {
        NoTile(cea, i, 20);
      } else {
        FirstTile(cea, i, 20, bs);
        assert cea[i] == 33;
        rest := LastTile(cea, i + 2, bs[1..], k - 1);
      }
    }
  }

  // ----- Counting passes -----

  // s is where the loop is after k passes.
  ghost predicate Reached(cea: seq<nat>, s: Audio, k: nat)
    requires Extension(cea)
  {
    forall n: nat :: Passes(cea, START, k + n) == Passes(cea, s, n)
  }

  lemma OneMorePass(cea: seq<nat>, s: Audio, k: nat)
    requires Extension(cea) && Reached(cea, s, k) && Body(cea, s).Again?
    ensures Reached(cea, Body(cea, s).s, k + 1)
  {
    hide Body;
    forall n: nat ensures Passes(cea, START, k + 1 + n) == Passes(cea, Body(cea, s).s, n) {
      assert Passes(cea, START, k + (n + 1)) == Passes(cea, s, n + 1);
    }
  }

  lemma ExitsNext(cea: seq<nat>, s: Audio, k: nat)
    requires Extension(cea) && Reached(cea, s, k) && Body(cea, s).Exit?
    ensures Passes(cea, START, k + 1) == Body(cea, s)
  {
    hide Body;
    assert Passes(cea, START, k + 1) == Passes(cea, s, 1);
  }

  // A loop that has ended stays ended.
  lemma {:induction false} StaysOut(cea: seq<nat>, s: Audio, n: nat, m: nat)
    requires Extension(cea) && Passes(cea, s, n).Exit? && n <= m
    ensures Passes(cea, s, m).Exit?
    decreases n
  {
    hide Body;
    if Body(cea, s).Again? {
      StaysOut(cea, Body(cea, s).s, n - 1, m - 1);
    }
  }

  lemma {:induction false} NeverExits(cea: seq<nat>, s: Audio, k: nat)
    requires Extension(cea) && Reached(cea, s, k) && Body(cea, s) == Again(s)
    ensures forall n: nat :: Passes(cea, START, n).Again?
  {
    hide Body;
    forall n: nat ensures Passes(cea, START, n).Again? {
      StaysPut(cea, s, n);
      assert Passes(cea, START, k + n) == Passes(cea, s, n);
      if Passes(cea, START, n).Exit? {
        StaysOut(cea, START, n, k + n);
      }
    }
  }
}
