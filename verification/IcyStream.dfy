/**
  A stream with ICY metadata: after every so many bytes of audio there is one byte n, and then 16 * n
  bytes of metadata. What is to be heard is the stream without them.
 */
module IcyStream {
  import opened Octets

  /** Where in the stream we are: so many bytes of audio, or of metadata, are still to come. */
  datatype Phase = Audio(left: nat) | Meta(left: nat)

  /** What a length byte stands for. */
  function MetaLength(n: byte): nat {
    16 * n as int
  }

  /** The stream without its length bytes and metadata. */
  function Clean(s: seq<byte>, p: Phase, metaInt: nat): seq<byte>
    decreases |s|, if p.Meta? then 1 else 0
  {
    if p.Audio? then
      if |s| <= p.left then s else s[..p.left] + Clean(s[p.left + 1..], Meta(MetaLength(s[p.left])), metaInt)
    else
      if |s| < p.left then [] else Clean(s[p.left..], Audio(metaInt), metaInt)
  }

  /** Where we are after the bytes. */
  function After(s: seq<byte>, p: Phase, metaInt: nat): Phase
    decreases |s|, if p.Meta? then 1 else 0
  {
    if p.Audio? then
      if |s| <= p.left then Audio(p.left - |s|) else After(s[p.left + 1..], Meta(MetaLength(s[p.left])), metaInt)
    else
      if |s| < p.left then Meta(p.left - |s|) else After(s[p.left..], Audio(metaInt), metaInt)
  }

  /** Cleaning a stream piece by piece is cleaning it as a whole. */
  lemma {:induction false} CleanInPieces(a: seq<byte>, b: seq<byte>, p: Phase, metaInt: nat)
    ensures Clean(a + b, p, metaInt) == Clean(a, p, metaInt) + Clean(b, After(a, p, metaInt), metaInt)
    ensures After(a + b, p, metaInt) == After(b, After(a, p, metaInt), metaInt)
    decreases |a|, if p.Meta? then 1 else 0
  {
    var l := p.left;
    if p.Audio? && |a| > l {
      assert (a + b)[..l] == a[..l] && (a + b)[l + 1..] == a[l + 1..] + b;
      CleanInPieces(a[l + 1..], b, Meta(MetaLength(a[l])), metaInt);
    } else if p.Audio? {
      if |a + b| > l {
        assert (a + b)[..l] == a + b[..l - |a|] && (a + b)[l + 1..] == b[l - |a| + 1..];
      }
    } else if |a| >= l {
      assert (a + b)[l..] == a[l..] + b;
      CleanInPieces(a[l..], b, Audio(metaInt), metaInt);
    } else if |a + b| >= l {
      assert (a + b)[l..] == b[l - |a|..];
    }
  }

  lemma {:induction false} CleanIsShort(s: seq<byte>, p: Phase, metaInt: nat)
    ensures |Clean(s, p, metaInt)| <= |s|
    ensures p.Audio? && |s| > p.left ==> |Clean(s, p, metaInt)| < |s|
    decreases |s|, if p.Meta? then 1 else 0
  {
    if p.Audio? && |s| > p.left {
      CleanIsShort(s[p.left + 1..], Meta(MetaLength(s[p.left])), metaInt);
    } else if p.Meta? && |s| >= p.left {
      CleanIsShort(s[p.left..], Audio(metaInt), metaInt);
    }
  }

  // ----- the format

  /** One interval of audio, and the metadata behind it, in units of 16 bytes. */
  datatype Block = Block(audio: seq<byte>, metadata: seq<byte>)

  predicate IsBlock(b: Block, metaInt: nat) {
    |b.audio| == metaInt && |b.metadata| % 16 == 0 && |b.metadata| <= 16 * 255
  }

  /** What a server sends. */
  function Interleaved(blocks: seq<Block>, metaInt: nat): seq<byte>
    requires forall i :: 0 <= i < |blocks| ==> IsBlock(blocks[i], metaInt)
  {
    if blocks == [] then []
    else
      assert IsBlock(blocks[0], metaInt);
      var units: byte := (|blocks[0].metadata| / 16) as byte;
      blocks[0].audio + [units] + blocks[0].metadata + Interleaved(blocks[1..], metaInt)
  }

  function AudioOf(blocks: seq<Block>): seq<byte> {
    if blocks == [] then [] else blocks[0].audio + AudioOf(blocks[1..])
  }

  /** Cleaning brings back the audio that was interleaved with metadata, and ends where the next interval starts. */
  lemma {:induction false} CleanUndoesInterleaving(blocks: seq<Block>, metaInt: nat)
    requires forall i :: 0 <= i < |blocks| ==> IsBlock(blocks[i], metaInt)
    ensures Clean(Interleaved(blocks, metaInt), Audio(metaInt), metaInt) == AudioOf(blocks)
    ensures After(Interleaved(blocks, metaInt), Audio(metaInt), metaInt) == Audio(metaInt)
    decreases |blocks|
  {
    if blocks != [] {
      var b, rest := blocks[0], Interleaved(blocks[1..], metaInt);
      assert IsBlock(b, metaInt);
      CleanUndoesInterleaving(blocks[1..], metaInt);
      var units: byte := (|b.metadata| / 16) as byte;
      var s := b.audio + [units] + b.metadata + rest;
      assert s[..metaInt] == b.audio && s[metaInt] == units && s[metaInt + 1..] == b.metadata + rest;
      assert MetaLength(units) == |b.metadata|;
      assert (b.metadata + rest)[|b.metadata|..] == rest;
    }
  }
}
