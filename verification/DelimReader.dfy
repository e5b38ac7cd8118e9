/** Reading delimited sub-streams (src/delim_stream.c): the reader takes one frame off the underlying
    stream, through transfers of any size, and not a byte more. */
module DelimReader {
  import opened Bytes
  import opened DelimStates
  import opened Frames
  import opened Sequences
  import opened Streams

  // The frame that is left after the first chunk of f, or f itself when its last chunk comes first.
  function Rest(f: Frame): Frame {
    if f.chunks == [] then f else Frame(f.chunks[1..], f.last)
  }

  function Head(f: Frame): seq<byte> {
    if f.chunks == [] then f.last else f.chunks[0]
  }

  function HeadSize(f: Frame): (n: nat)
    requires SizedFrame(f)
    ensures n < 0x1_0000
  {
    if f.chunks == [] then CHUNK_SIZE_END_BIT + |f.last| else |f.chunks[0]|
  }

  predicate SizedFrame(f: Frame) {
    Sized(f.chunks) && |f.last| <= MAX_CHUNK_SIZE
  }

  // What follows the intro of the first chunk.
  function Body(f: Frame): seq<byte>
    requires SizedFrame(f)
  {
    Head(f) + (if f.chunks == [] then [] else Wire(Rest(f)))
  }

  lemma {:induction false} WireHead(f: Frame)
    requires SizedFrame(f)
    ensures Wire(f) == Intro(HeadSize(f)) + Body(f)
  {
    var after := Intro(CHUNK_SIZE_END_BIT + |f.last|);
    if f.chunks == [] {
      assert [] + after + f.last == after + f.last;
      assert f.last + [] == f.last;
    } else {
      Regroup(Intro(HeadSize(f)), Head(f), Chunks(f.chunks[1..]), after, f.last);
    }
  }

  lemma {:induction false} Regroup(a: seq<byte>, b: seq<byte>, c: seq<byte>, d: seq<byte>, e: seq<byte>)
    ensures a + b + c + d + e == a + (b + (c + d + e))
  {
    assert a + b + c + d + e == a + b + (c + d + e);
  }

  lemma {:induction false} MessageHead(f: Frame)
    ensures Message(f) == Left(PAYLOAD, f.chunks == [], Head(f), Rest(f))
  {
  }

  // What the wire has still to deliver of a frame: `cur` is left of the current chunk, and f holds
  // the chunks whose intro has not been read in full.
  function ToCome(state: nat, last: bool, cur: seq<byte>, f: Frame): seq<byte>
    requires SizedFrame(f)
  {
    if state <= CHUNK_INTRO_1 then Intro(HeadSize(f))[state..] + Body(f)
    else if state == PAYLOAD then cur + (if last then [] else Wire(f))
    else []
  }

  // What is left of the message.
  function Left(state: nat, last: bool, cur: seq<byte>, f: Frame): seq<byte> {
    if state <= CHUNK_INTRO_1 then Message(f)
    else if state == PAYLOAD then cur + (if last then [] else Message(f))
    else []
  }

  // The state once the payload has shrunk to cur.
  function AfterPayload(last: bool, cur: seq<byte>): nat {
    if cur != [] then PAYLOAD else if last then END else START
  }

  lemma {:induction false} Cut(a: seq<byte>, tail: seq<byte>, bytes: seq<byte>, data: seq<byte>)
    requires bytes + data == a + tail && |bytes| <= |a|
    ensures a == bytes + a[|bytes|..] && data == a[|bytes|..] + tail
  {
    var n := |bytes|;
    assert bytes == (bytes + data)[..n] == (a + tail)[..n] == a[..n];
    assert data == (bytes + data)[n..] == (a + tail)[n..] == a[n..] + tail;
  }

  lemma {:induction false} PayloadTaken(
      last: bool, cur: seq<byte>, f: Frame, r: seq<byte>, bytes: seq<byte>, d: seq<byte>, m: seq<byte>)
    requires SizedFrame(f) && |bytes| <= |cur|
    requires bytes + d + m == ToCome(PAYLOAD, last, cur, f) + r
    ensures d + m == ToCome(AfterPayload(last, cur[|bytes|..]), last, cur[|bytes|..], f) + r
    ensures Left(PAYLOAD, last, cur, f) == bytes + Left(AfterPayload(last, cur[|bytes|..]), last, cur[|bytes|..], f)
  {
    var left := cur[|bytes|..];
    var wire := if last then [] else Wire(f);
    var message := if last then [] else Message(f);
    Assoc(cur, wire, r);
    Assoc(bytes, d, m);
    Cut(cur, wire + r, bytes, d + m);
    Assoc(left, wire, r);
    Assoc(bytes, left, message);
    if left == [] {
      WireHead(f);
      Neutral(wire);
      Neutral(message);
    }
  }

  lemma {:induction false} NonEmptyHead(f: Frame)
    ensures NonEmpty(f.chunks) <==> (f.chunks == [] || (Head(f) != [] && NonEmpty(Rest(f).chunks)))
  {
    if f.chunks != [] {
      assert forall i :: 0 < i < |f.chunks| ==> f.chunks[i] == f.chunks[1..][i - 1];
    }
  }

  lemma {:induction false} IntroTaken(from: nat, f: Frame, r: seq<byte>, bytes: seq<byte>, d: seq<byte>, m: seq<byte>)
    requires SizedFrame(f) && from + |bytes| <= 2 && bytes != []
    requires bytes + d + m == ToCome(from, false, [], f) + r
    ensures from == START ==> bytes[0] == Intro(HeadSize(f))[0]
    ensures from + |bytes| == 1 ==> d + m == ToCome(CHUNK_INTRO_1, false, [], f) + r
    ensures from + |bytes| == 2 ==>
      && bytes[|bytes| - 1] == Intro(HeadSize(f))[1]
      && d + m == ToCome(PAYLOAD, f.chunks == [], Head(f), Rest(f)) + r
  {
    var intro := Intro(HeadSize(f));
    var left := intro[from + |bytes|..];
    assert intro[from..][|bytes|..] == left;
    Assoc(intro[from..], Body(f), r);
    Assoc(bytes, d, m);
    Cut(intro[from..], Body(f) + r, bytes, d + m);
    Assoc(left, Body(f), r);
    if left == [] {
      Neutral(Body(f));
    }
  }

  function Zeros(n: nat): (z: seq<byte>)
    ensures |z| == n
  {
    if n == 0 then [] else Zeros(n - 1) + [0]
  }

  // No contents of the underlying stream are left out: whatever it holds is a frame and what follows
  // it, or breaks off inside a frame.
  lemma {:induction false} EveryStream(data: seq<byte>) returns (f: Frame, r: seq<byte>, m: seq<byte>)
    ensures SizedFrame(f) && data + m == Wire(f) + r
    decreases |data|
  {
    if |data| < 2 {
      f, m := BrokenIntro(data);
      r := [];
      assert Wire(f) + r == Wire(f);
    } else {
      var n := FromNet(data[0], data[1]);
      var payload, pad, after := FirstChunk(data, if n < CHUNK_SIZE_END_BIT then n else n - CHUNK_SIZE_END_BIT);
      if n >= CHUNK_SIZE_END_BIT {
        f, r, m := Frame([], payload), after, pad;
        LastChunk(payload);
      } else {
        var f', r', m' := Frame([], []), [], Wire(Frame([], []));
        if pad == [] {
          f', r', m' := EveryStream(after);
        } else {
          assert after + m' == m' && Wire(f') + r' == m';
        }
        f, r, m := Frame([payload] + f'.chunks, f'.last), r', pad + m';
        OneMoreChunk(payload, f');
        Chained(data, pad, Intro(n) + payload, after, m', Wire(f'), r');
      }
    }
  }

  lemma {:induction false} BrokenIntro(data: seq<byte>) returns (f: Frame, m: seq<byte>)
    requires |data| < 2
    ensures SizedFrame(f) && f.chunks == [] && data + m == Wire(f)
  {
    var x: byte := if data == [] then 0 else data[0];
    var intro := Intro(CHUNK_SIZE_END_BIT + x);
    f, m := Frame([], Zeros(x)), intro[|data|..] + Zeros(x);
    LastChunk(Zeros(x));
    assert data == intro[..|data|];
    assert data + m == (data + intro[|data|..]) + Zeros(x);
  }

  // The first chunk of some data, padded if the data ends in it.
  lemma {:induction false} FirstChunk(data: seq<byte>, size: nat)
    returns (payload: seq<byte>, pad: seq<byte>, after: seq<byte>)
    requires |data| >= 2
    ensures |payload| == size && data + pad == Intro(FromNet(data[0], data[1])) + payload + after
    ensures |after| < |data| && (pad != [] ==> after == [])
  {
    IntroOf(data[0], data[1]);
    var a := if size < |data| - 2 then size else |data| - 2;
    pad, after := Zeros(size - a), data[2 + a..];
    payload := data[2..2 + a] + pad;
    assert data == data[..2] + data[2..2 + a] + after;
    if pad == [] {
      assert payload == data[2..2 + a] && data + pad == data;
    } else {
      assert after == [] && data + pad == data[..2] + (data[2..2 + a] + pad);
    }
  }

  lemma {:induction false} LastChunk(payload: seq<byte>)
    requires |payload| <= MAX_CHUNK_SIZE
    ensures Wire(Frame([], payload)) == Intro(CHUNK_SIZE_END_BIT + |payload|) + payload
  {
  }

  lemma {:induction false} Chained(
      data: seq<byte>, pad: seq<byte>, chunk: seq<byte>, after: seq<byte>, m: seq<byte>, wire: seq<byte>, r: seq<byte>)
    requires data + pad == chunk + after && after + m == wire + r
    ensures data + (pad + m) == (chunk + wire) + r
  {
    Assoc(data, pad, m);
    Assoc(chunk, after, m);
    Assoc(chunk, wire, r);
  }

  lemma {:induction false} IntroOf(low: byte, high: byte)
    ensures Intro(FromNet(low, high)) == [low, high]
  {
  }

  lemma {:induction false} OneMoreChunk(c: seq<byte>, f: Frame)
    requires SizedFrame(f) && |c| <= MAX_CHUNK_SIZE
    ensures SizedFrame(Frame([c] + f.chunks, f.last))
    ensures Wire(Frame([c] + f.chunks, f.last)) == Intro(|c|) + c + Wire(f)
  {
    var g := Frame([c] + f.chunks, f.last);
    assert Rest(g) == f;
    WireHead(g);
  }

  // struct delim_read: the sub-streams of one underlying stream, opened one after another.
  class DelimRead {
    const underlying: Source
    var open: bool               // current != NULL

    constructor (source: Source)
      ensures underlying == source && !open
    {
      underlying, open := source, false;
    }
  }

  // struct delim_read_stream
  class DelimReadStream {
    const delimRead: DelimRead
    const underlying: Source
    var state: nat
    var low: byte                // chunk_left.n while only its first byte has been read
    var chunkLeft: nat           // chunk_left.h
    var lastChunk: bool

    ghost var frame: Frame       // the chunks whose intro has not been read in full
    ghost var cur: seq<byte>     // the payload left of the current chunk
    ghost const rest: seq<byte>  // what follows the frame
    ghost const missing: seq<byte> // what the underlying stream ends without delivering

    // delim_read_next
    constructor (dr: DelimRead, ghost f: Frame, ghost r: seq<byte>, ghost m: seq<byte>)
      requires !dr.open && SizedFrame(f) && dr.underlying.data + m == Wire(f) + r
      modifies dr
      ensures Valid() && delimRead == dr && underlying == dr.underlying && dr.open
      ensures frame == f && cur == [] && state == START && rest == r && missing == m
    {
      delimRead, underlying := dr, dr.underlying;
      state, low, chunkLeft, lastChunk := START, *, *, false;
      frame, cur, rest, missing := f, [], r, m;
      WireHead(f);
      new;
      dr.open := true;
    }

    ghost predicate Valid()
      reads this, underlying
    {
      && SizedFrame(frame)
      && (state <= PAYLOAD || state == END)
      && underlying.data + missing == ToCome(state, lastChunk, cur, frame) + rest
      && (state == CHUNK_INTRO_1 ==> low == Intro(HeadSize(frame))[0])
      && (state == PAYLOAD ==> chunkLeft == |cur| && (lastChunk ==> cur != []))
      && (state < PAYLOAD ==> !lastChunk)
    }

    ghost function Pending(): seq<byte>
      reads this
    {
      Left(state, lastChunk, cur, frame)
    }

    // An empty chunk without the end bit lies ahead.
    ghost predicate Blocked()
      reads this
    {
      || (state < PAYLOAD && !NonEmpty(frame.chunks))
      || (state == PAYLOAD && !lastChunk && (cur == [] || !NonEmpty(frame.chunks)))
    }

    // STREAM_END is reported after the whole message, so that the assertion in close holds, if and only
    // if what never arrives is no more than what follows the frame.
    lemma {:induction false} CutShort()
      requires Valid() && (state == END || underlying.data == [])
      ensures state == END <==> |missing| <= |rest|
    {
      if state != END {
        assert |ToCome(state, lastChunk, cur, frame)| > 0;
      }
    }

    // read_payload
    method ReadPayload(len: nat) returns (res: int, bytes: seq<byte>)
      requires Valid() && state == PAYLOAD && len <= chunkLeft
      modifies this, underlying, delimRead
      ensures Valid() && (WriteResult(res, len) || (res == STREAM_END && underlying.data == []))
      ensures |bytes| == (if res > 0 then res else 0) && old(Pending()) == bytes + Pending()
      ensures Blocked() == old(Blocked())
      ensures delimRead.open == (old(delimRead.open) && state != END)
      ensures res <= 0 ==> state == PAYLOAD
      ensures old(underlying.data) == bytes + underlying.data
      ensures underlying.manner == Willing && res < 0 ==> res == STREAM_END
      ensures res == 0 && len > 0 ==> underlying.patience < old(underlying.patience)
      ensures Reliable(underlying.manner) && res < 0 ==>
        res == STREAM_END || (res == STREAM_WAITING && underlying.patience < old(underlying.patience))
      ensures res == underlying.answer
    {
      res, bytes := underlying.Read(len);
      if res > 0 {
        PayloadTaken(lastChunk, cur, frame, rest, bytes, underlying.data, missing);
        cur := cur[res..];
        chunkLeft := chunkLeft - res;
        if chunkLeft == 0 {
          state := START;
          if lastChunk {
            state := END;
            delimRead.open := false;
          }
        }
      } else {
        Neutral(underlying.data);
        Neutral(Pending());
      }
    }

    // Something has been read, or the stream has been idle.
    twostate predicate Progress()
      reads underlying
    {
      |underlying.data| < old(|underlying.data|)
      || (|underlying.data| == old(|underlying.data|) && underlying.patience < old(underlying.patience))
    }

    // Some intro bytes have been transferred.
    method TakeIntro(bytes: seq<byte>)
      requires SizedFrame(frame) && bytes != [] && state + |bytes| <= 2 && !lastChunk
      requires bytes + underlying.data + missing == ToCome(state, false, [], frame) + rest
      requires state == CHUNK_INTRO_1 ==> low == Intro(HeadSize(frame))[0]
      modifies this`low, this`state
      ensures state == old(state) + |bytes| && low == Intro(HeadSize(frame))[0]
      ensures state == CHUNK_INTRO_1 ==> Valid() && Pending() == Message(frame)
      ensures state == PAYLOAD ==>
        && bytes[|bytes| - 1] == Intro(HeadSize(frame))[1]
        && underlying.data + missing == ToCome(PAYLOAD, frame.chunks == [], Head(frame), Rest(frame)) + rest
    {
      IntroTaken(state, frame, rest, bytes, underlying.data, missing);
      if state == START {
        low := bytes[0];
      }
      state := state + |bytes|;
    }

    // stream_read on the underlying stream
    method Fetch(len: nat) returns (res: int, bytes: seq<byte>)
      requires len > 0
      modifies underlying
      ensures STREAM_END <= res <= len && |bytes| == (if res > 0 then res else 0)
      ensures res == STREAM_END ==> underlying.data == []
      ensures underlying.manner == Willing && res < 0 ==> res == STREAM_END
      ensures res <= 0 ==> underlying.data == old(underlying.data)
      ensures res > 0 ==> |underlying.data| < |old(underlying.data)|
      ensures res == 0 ==> underlying.patience < old(underlying.patience)
      ensures Reliable(underlying.manner) && res < 0 ==>
        res == STREAM_END || (res == STREAM_WAITING && underlying.patience < old(underlying.patience))
      ensures res == underlying.answer
      ensures bytes + underlying.data + missing == old(underlying.data) + missing
    {
      res, bytes := underlying.Read(len);
    }

    // The transfer of intro bytes that delim_read_stream_read starts with, unless the payload is
    // already due.
    method ReadIntro() returns (res: int)
      requires Valid() && state <= CHUNK_INTRO_1
      modifies this, underlying, delimRead
      ensures Valid() && (state <= PAYLOAD || state == END)
      ensures STREAM_END <= res <= 0 && (res == STREAM_END ==> state == END || underlying.data == [])
      ensures (state == PAYLOAD ==> res == STREAM_OK) && (state == END ==> res == STREAM_END)
      ensures underlying.manner == Willing && res < 0 ==> res == STREAM_END
      ensures res == 0 || state == END ==> Progress()
      ensures Reliable(underlying.manner) && res < 0 ==> res == STREAM_END || (res == STREAM_WAITING && Progress())
      ensures res < 0 && state != END ==> res == underlying.answer
      ensures res == 0 && state < PAYLOAD ==> underlying.answer == 0 || state == CHUNK_INTRO_1
      ensures |underlying.data| <= |old(underlying.data)|
      ensures Pending() == old(Pending()) && Blocked() == old(Blocked())
      ensures delimRead.open == (old(delimRead.open) && state != END)
    {
      var bytes: seq<byte>;
      res, bytes := Fetch(2 - state);
      if res <= 0 { return; }
      TakeIntro(bytes);
      if state < PAYLOAD { return 0; }
      res := HaveChunkLeft(bytes[|bytes| - 1]);
    }

    // have_chunk_left: the second byte of the intro is `high`.
    method HaveChunkLeft(high: byte) returns (res: int)
      requires SizedFrame(frame) && state == PAYLOAD && !lastChunk
      requires low == Intro(HeadSize(frame))[0] && high == Intro(HeadSize(frame))[1]
      requires underlying.data + missing == ToCome(PAYLOAD, frame.chunks == [], Head(frame), Rest(frame)) + rest
      modifies this, delimRead
      ensures Valid()
      ensures if state == END then res == STREAM_END else state == PAYLOAD && res == STREAM_OK
      ensures Pending() == old(Message(frame)) && Blocked() == !old(NonEmpty(frame.chunks))
      ensures delimRead.open == (old(delimRead.open) && state != END)
    {
      MessageHead(frame);
      NonEmptyHead(frame);
      IntroInverse(HeadSize(frame));
      chunkLeft := FromNet(low, high);
      frame, cur := Rest(frame), Head(frame);
      if chunkLeft >= CHUNK_SIZE_END_BIT {
        chunkLeft := chunkLeft - CHUNK_SIZE_END_BIT;
        if chunkLeft == 0 {
          state := END;
          delimRead.open := false;
          return STREAM_END;
        }
        lastChunk := true;
      }
      res := STREAM_OK;
    }

    // delim_read_stream_read, for a buffer of len bytes
    method Read(len: nat) returns (res: int, bytes: seq<byte>)
      requires Valid()
      modifies this, underlying, delimRead
      ensures Valid()
      // The bytes delivered are the next ones of the message.
      ensures |bytes| == (if res > 0 then res else 0) <= len && old(Pending()) == bytes + Pending()
      ensures WriteResult(res, len) || res == STREAM_END
      // The end is reported after the whole message, or because the underlying stream ended too soon.
      ensures res == STREAM_END ==> state == END || underlying.data == []
      ensures old(state) == END ==> res == STREAM_END && state == END && underlying.data == old(underlying.data)
      // An empty chunk without the end bit is never left behind, and nothing else is in the way.
      ensures Blocked() == old(Blocked())
      ensures delimRead.open == (old(delimRead.open) && (state != END || old(state) == END))
      ensures underlying.manner == Willing && res < 0 ==> res == STREAM_END
      ensures len > 0 && res >= 0 && !old(Blocked()) ==> Progress()
      ensures Reliable(underlying.manner) && res < 0 ==> res == STREAM_END || (res == STREAM_WAITING && Progress())
      ensures res < 0 && state != END ==> res == underlying.answer
      // It goes on to the payload whenever the intro is there; the result is then the underlying stream's own.
      ensures res > 0 ==> res == underlying.answer
      ensures res == 0 && len > 0 ==> underlying.answer == 0 || state == CHUNK_INTRO_1
    {
      bytes := [];
      Neutral(Pending());
      if state == END { return STREAM_END, []; }
      if state < PAYLOAD {
        res := ReadIntro();
        if res < 0 || state < PAYLOAD { return; }
      }
      res, bytes := ReadPayload(if len > chunkLeft then chunkLeft else len);
    }
  }
}
