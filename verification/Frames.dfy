/** The wire format of delimited streams: a message is a list of chunks, each with a two-byte
    little-endian intro; the intro of the last chunk carries the end bit. */
module Frames {
  import opened Bytes

  const MAX_CHUNK_SIZE: nat := 0x7fff
  const CHUNK_SIZE_END_BIT: nat := 0x8000

  // chunk_size_to_net and chunk_size_from_net
  function Intro(n: nat): (r: seq<byte>)
    requires n < 0x1_0000
    ensures |r| == 2
  {
    [n % 256, n / 256]
  }

  function FromNet(low: byte, high: byte): nat {
    low + 256 * high
  }

  // The low byte comes first, and the top bit of the other is the end bit.
  lemma {:induction false} LittleEndian(n: nat)
    requires n < 0x1_0000
    ensures Intro(n)[0] as int + 256 * Intro(n)[1] as int == n
    ensures Intro(n)[1] >= 128 <==> n >= CHUNK_SIZE_END_BIT
  {
    assert n == 256 * (n / 256) + n % 256;
  }

  lemma {:induction false} IntroInverse(n: nat)
    requires n < 0x1_0000
    ensures FromNet(Intro(n)[0], Intro(n)[1]) == n
  {
    assert n == 256 * (n / 256) + n % 256;
  }

  predicate Sized(cs: seq<seq<byte>>) {
    forall i :: 0 <= i < |cs| ==> |cs[i]| <= MAX_CHUNK_SIZE
  }

  predicate NonEmpty(cs: seq<seq<byte>>) {
    forall i :: 0 <= i < |cs| ==> cs[i] != []
  }

  lemma {:induction false} NonEmptySnoc(cs: seq<seq<byte>>, c: seq<byte>)
    ensures NonEmpty(cs + [c]) <==> NonEmpty(cs) && c != []
  {
    assert (cs + [c])[|cs|] == c;
    assert forall i :: 0 <= i < |cs| ==> (cs + [c])[i] == cs[i];
  }

  // Complete chunks without the end bit.
  function Chunks(cs: seq<seq<byte>>): seq<byte>
    requires Sized(cs)
  {
    if cs == [] then [] else Intro(|cs[0]|) + cs[0] + Chunks(cs[1..])
  }

  function Joined(cs: seq<seq<byte>>): seq<byte> {
    if cs == [] then [] else cs[0] + Joined(cs[1..])
  }

  lemma {:induction false} ChunksSnoc(cs: seq<seq<byte>>, c: seq<byte>)
    requires Sized(cs) && |c| <= MAX_CHUNK_SIZE
    ensures Sized(cs + [c]) && Chunks(cs + [c]) == Chunks(cs) + Intro(|c|) + c
  {
    if cs == [] {
      assert cs + [c] == [c] && [c][1..] == [];
    } else {
      ChunksSnoc(cs[1..], c);
      assert (cs + [c])[1..] == cs[1..] + [c];
    }
  }

  lemma {:induction false} JoinedSnoc(cs: seq<seq<byte>>, c: seq<byte>)
    ensures Joined(cs + [c]) == Joined(cs) + c
  {
    if cs == [] {
      assert cs + [c] == [c] && [c][1..] == [];
    } else {
      JoinedSnoc(cs[1..], c);
      assert (cs + [c])[1..] == cs[1..] + [c];
    }
  }

  // A whole message: chunks, then the chunk with the end bit, which may be empty.
  datatype Frame = Frame(chunks: seq<seq<byte>>, last: seq<byte>)

  predicate WellFormed(f: Frame) {
    Sized(f.chunks) && NonEmpty(f.chunks) && |f.last| <= MAX_CHUNK_SIZE
  }

  function Wire(f: Frame): seq<byte>
    requires Sized(f.chunks) && |f.last| <= MAX_CHUNK_SIZE
  {
    Chunks(f.chunks) + Intro(CHUNK_SIZE_END_BIT + |f.last|) + f.last
  }

  function Message(f: Frame): seq<byte> {
    Joined(f.chunks) + f.last
  }

  function WireAll(fs: seq<Frame>): seq<byte>
    requires forall i :: 0 <= i < |fs| ==> WellFormed(fs[i])
  {
    if fs == [] then [] else assert WellFormed(fs[0]); Wire(fs[0]) + WireAll(fs[1..])
  }

  lemma {:induction false} WireAllSnoc(fs: seq<Frame>, f: Frame)
    requires (forall i :: 0 <= i < |fs| ==> WellFormed(fs[i])) && WellFormed(f)
    ensures WireAll(fs + [f]) == WireAll(fs) + Wire(f)
  {
    if fs == [] {
      assert fs + [f] == [f] && [f][1..] == [];
    } else {
      WireAllSnoc(fs[1..], f);
      assert (fs + [f])[1..] == fs[1..] + [f];
    }
  }
}
