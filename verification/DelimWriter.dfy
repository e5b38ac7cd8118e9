/** The states of a sub-stream (src/delim_stream.c), of a writer and of a reader alike. */
module DelimStates {
  // enum delim_state: the intro states count the bytes of the intro already moved.
  const START: nat := 0
  const CHUNK_INTRO_1: nat := 1
  const PAYLOAD: nat := 2
  const FINAL_CHUNK_INTRO_0: nat := 3
  const FINAL_CHUNK_INTRO_1: nat := 4
  const END: nat := 5
}

/** Writing delimited sub-streams (src/delim_stream.c): each message becomes a list of chunks, at most
    one message is open at a time, and any call may stop half-way and be taken up again later. */
module DelimWriter {
  import opened Bytes
  import opened DelimStates
  import opened Frames
  import opened Sequences
  import opened Streams

  // What a sub-stream has put on the wire: the chunks completed, then as much of the next intro and
  // its payload as `state` says.
  ghost function Sent(state: nat, chunks: seq<seq<byte>>, part: seq<byte>, left: nat): seq<byte>
    requires Sized(chunks) && |part| + left <= MAX_CHUNK_SIZE
  {
    if state == CHUNK_INTRO_1 then Chunks(chunks) + Intro(left)[..1]
    else if state == PAYLOAD then Chunks(chunks) + Intro(|part| + left) + part
    else if state == FINAL_CHUNK_INTRO_1 then Chunks(chunks) + Intro(CHUNK_SIZE_END_BIT)[..1]
    else if state >= END then Wire(Frame(chunks, []))
    else Chunks(chunks)
  }

  lemma {:induction false} IntroBytes(base: seq<byte>, chunks: seq<seq<byte>>, left: nat, from: nat, res: nat)
    requires Sized(chunks) && left <= MAX_CHUNK_SIZE && from + res <= 2
    ensures base + Sent(from, chunks, [], left) + Intro(left)[from..][..res]
         == base + Sent(from + res, chunks, [], left)
  {
    assert Intro(left)[..1] + Intro(left)[1..] == Intro(left);
    assert Sent(from, chunks, [], left) + Intro(left)[from..][..res] == Sent(from + res, chunks, [], left);
  }

  lemma {:induction false} FinalIntroBytes(chunks: seq<seq<byte>>, from: nat, res: nat)
    requires Sized(chunks) && from + res <= 2
    ensures Sent(FINAL_CHUNK_INTRO_0 + from, chunks, [], 0) + Intro(CHUNK_SIZE_END_BIT)[from..][..res]
         == Sent(FINAL_CHUNK_INTRO_0 + from + res, chunks, [], 0)
  {
    var cl := Intro(CHUNK_SIZE_END_BIT);
    assert cl[..1] + cl[1..] == cl;
    assert Wire(Frame(chunks, [])) == Chunks(chunks) + cl;
  }

  lemma {:induction false} PayloadBytes(
      base: seq<byte>, chunks: seq<seq<byte>>, part: seq<byte>, left: nat, bytes: seq<byte>)
    requires Sized(chunks) && |part| + left <= MAX_CHUNK_SIZE && |bytes| <= left
    ensures base + Sent(PAYLOAD, chunks, part, left) + bytes
         == base + Sent(PAYLOAD, chunks, part + bytes, left - |bytes|)
    ensures Joined(chunks) + part + bytes == Joined(chunks) + (part + bytes)
    ensures left == |bytes| ==>
      && Sized(chunks + [part + bytes])
      && base + Sent(PAYLOAD, chunks, part, left) + bytes == base + Sent(START, chunks + [part + bytes], [], 0)
      && Joined(chunks) + part + bytes == Joined(chunks + [part + bytes]) + []
  {
    assert Sent(PAYLOAD, chunks, part, left) + bytes == Sent(PAYLOAD, chunks, part + bytes, left - |bytes|);
    if left == |bytes| {
      ChunksSnoc(chunks, part + bytes);
      JoinedSnoc(chunks, part + bytes);
    }
  }

  // The frame that a sub-stream given up half-way would have become, had the payload it promised been
  // `filler` and had it then been closed.
  ghost function Intended(state: nat, chunks: seq<seq<byte>>, part: seq<byte>, filler: seq<byte>): Frame {
    Frame(if state == CHUNK_INTRO_1 || state == PAYLOAD then chunks + [part + filler] else chunks, [])
  }

  lemma {:induction false} GivenUp(state: nat, chunks: seq<seq<byte>>, part: seq<byte>, filler: seq<byte>)
    returns (m: seq<byte>)
    requires Sized(chunks) && |part| + |filler| <= MAX_CHUNK_SIZE && state < END && (state != PAYLOAD ==> part == [])
    ensures Sized(Intended(state, chunks, part, filler).chunks)
    ensures Sent(state, chunks, part, |filler|) + m == Wire(Intended(state, chunks, part, filler))
    ensures 0 < |m| <= |Wire(Intended(state, chunks, part, filler))|
  {
    var end := Intro(CHUNK_SIZE_END_BIT);
    if state == CHUNK_INTRO_1 || state == PAYLOAD {
      var intro := Intro(|part| + |filler|);
      ChunksSnoc(chunks, part + filler);
      m := (if state == CHUNK_INTRO_1 then intro[1..] + filler else filler) + end;
      Completed(Chunks(chunks), intro, part, filler, end);
      assert state == CHUNK_INTRO_1 ==> part + filler == filler;
    } else {
      m := if state == FINAL_CHUNK_INTRO_1 then end[1..] else end;
      assert end[..1] + end[1..] == end;
      assert Chunks(chunks) + end + [] == Chunks(chunks) + end;
      assert Chunks(chunks) + end[..1] + end[1..] == Chunks(chunks) + end;
    }
  }

  lemma {:induction false} Completed(c: seq<byte>, intro: seq<byte>, part: seq<byte>, filler: seq<byte>, end: seq<byte>)
    requires |intro| == 2
    ensures c + intro + part + (filler + end) == c + intro + (part + filler) + end + []
    ensures c + intro[..1] + (intro[1..] + filler + end) == c + intro + filler + end + []
  {
    assert intro[..1] + intro[1..] == intro;
  }

  // struct delim_write: the sub-streams of one underlying stream, opened one after another.
  class DelimWrite {
    const underlying: Sink
    var open: bool               // current != NULL

    constructor (sink: Sink)
      ensures underlying == sink && !open
    {
      underlying, open := sink, false;
    }
  }

  // struct delim_write_stream
  class DelimWriteStream {
    const delimWrite: DelimWrite
    const underlying: Sink
    var state: nat
    var chunkLeft: nat

    ghost const base: seq<byte>        // what had been written before this sub-stream was opened
    ghost var chunks: seq<seq<byte>>   // the chunks completed
    ghost var part: seq<byte>          // the part written of the current chunk

    // delim_write_next
    constructor (dw: DelimWrite)
      requires !dw.open
      modifies dw
      ensures Valid() && delimWrite == dw && underlying == dw.underlying && dw.open
      ensures base == underlying.written && state == START && chunks == [] && part == []
    {
      delimWrite, underlying := dw, dw.underlying;
      state, chunkLeft := START, *;
      base, chunks, part := dw.underlying.written, [], [];
      new;
      dw.open := true;
    }

    // Every byte on the wire is accounted for, however the transfers were cut.
    ghost predicate Valid()
      reads this, underlying
    {
      && Sized(chunks)
      && state <= END
      && (state != PAYLOAD ==> part == [])
      && (state == PAYLOAD && chunkLeft == 0 ==> part == [])
      && (Promised() ==> |part| + chunkLeft <= MAX_CHUNK_SIZE)
      && underlying.written == base + Sent(state, chunks, part, Owed())
    }

    // An intro on the wire, in whole or in part, promises chunkLeft bytes more.
    ghost predicate Promised()
      reads this
    {
      state == CHUNK_INTRO_1 || state == PAYLOAD
    }

    ghost function Owed(): nat
      reads this
    {
      if Promised() then chunkLeft else 0
    }

    // The payload that has been accepted from the caller.
    ghost function Accepted(): seq<byte>
      reads this
    {
      Joined(chunks) + part
    }

    // Every chunk completed or begun holds at least one byte.
    ghost predicate NoEmptyChunk()
      reads this
    {
      NonEmpty(chunks) && (Promised() ==> chunkLeft > 0)
    }

    // The bytes have joined the current chunk, or have completed it.
    ghost predicate Moves(before: seq<seq<byte>>, begun: seq<byte>, bytes: seq<byte>)
      reads this`chunks, this`part, this`state
    {
      || (chunks == before && part == begun + bytes)
      || (chunks == before + [begun + bytes] && part == [] && state == START)
    }

    // write_payload
    method WritePayload(buf: seq<byte>) returns (res: int)
      requires Valid() && state == PAYLOAD && |buf| <= chunkLeft
      modifies this, underlying
      ensures Valid() && WriteResult(res, |buf|)
      ensures underlying.written == old(underlying.written) + Moved(res, buf)
      ensures Accepted() == old(Accepted()) + Moved(res, buf)
      ensures Owed() == old(chunkLeft) - |Moved(res, buf)|
      ensures (state == START && res >= 0) || (state == PAYLOAD && (res >= 0 ==> chunkLeft > 0))
      ensures NoEmptyChunk() == old(NoEmptyChunk())
      ensures Moves(old(chunks), old(part), Moved(res, buf))
      ensures underlying.manner == Willing ==> res >= 0
      ensures res == 0 && buf != [] ==> underlying.patience < old(underlying.patience)
      ensures Reliable(underlying.manner) && res < 0 ==>
        res == STREAM_WAITING && underlying.patience < old(underlying.patience)
      ensures res == underlying.answer
    {
      res := underlying.Write(buf);
      PayloadBytes(base, chunks, part, chunkLeft, Moved(res, buf));
      if res >= 0 {
        part := part + Moved(res, buf);
        chunkLeft := chunkLeft - res;
        if chunkLeft == 0 {
          state := START;
          NonEmptySnoc(chunks, part);
          chunks, part := chunks + [part], [];
        }
      }
    }

    // The transfer of intro bytes that delim_write_stream_write starts with, unless the payload is
    // already due.
    method WriteIntro(left: nat) returns (res: int)
      requires Valid() && state <= CHUNK_INTRO_1 && left <= MAX_CHUNK_SIZE
      requires state == CHUNK_INTRO_1 ==> left == chunkLeft
      modifies this, underlying
      ensures Valid() && chunks == old(chunks) && part == [] && chunkLeft == left
      ensures res < 0 ==> res == STREAM_WAITING || res == STREAM_ERROR
      ensures state == old(state) + (if res > 0 then res else 0) && state <= PAYLOAD
      ensures res <= 0 <==> underlying.written == old(underlying.written)
      ensures underlying.manner == Willing ==> res >= 0
      ensures res == 0 ==> underlying.patience < old(underlying.patience)
      ensures Reliable(underlying.manner) && res < 0 ==>
        res == STREAM_WAITING && underlying.patience < old(underlying.patience)
      ensures res == underlying.answer
    {
      chunkLeft := left;
      res := underlying.Write(Intro(left)[state..]);
      if res <= 0 { return; }
      IntroBytes(base, chunks, left, state, res);
      state := state + res;
    }

    twostate predicate Further()
      reads this, underlying
    {
      state > old(state) || (state == old(state) && underlying.patience < old(underlying.patience))
    }

    // delim_write_stream_write.  The result counts the bytes of buf that have been accepted.
    method Write(buf: seq<byte>) returns (res: int)
      requires Valid() && state <= PAYLOAD
      modifies this, underlying
      ensures Valid() && state <= PAYLOAD && WriteResult(res, |buf|)
      ensures Accepted() == old(Accepted()) + Moved(res, buf)
      // A caller that goes on offering what is left of its message never comes to owe more than that.
      ensures Owed() + |Moved(res, buf)| <= (if old(Owed()) > 0 then old(Owed()) else |buf|)
      // The size of a chunk is settled when it begins, and kept to: as much as is offered, if it fits.
      ensures old(Promised()) ==> Owed() + |Moved(res, buf)| == old(Owed())
      ensures old(state) == START && (state != START || chunks != old(chunks)) ==>
        Owed() + |Moved(res, buf)| == if |buf| > MAX_CHUNK_SIZE then MAX_CHUNK_SIZE else |buf|
      ensures Moves(old(chunks), old(part), Moved(res, buf))
      // An empty chunk comes of writing nothing where a chunk begins, and of nothing else.
      ensures old(NoEmptyChunk()) && (buf != [] || old(state) != START) ==> NoEmptyChunk()
      ensures buf == [] && old(state) == START && underlying.written != old(underlying.written) ==> !NoEmptyChunk()
      ensures !old(NoEmptyChunk()) ==> !NoEmptyChunk()
      // A call that accepts nothing gets further with the intro, or the stream has been idle.
      ensures underlying.manner == Willing ==> res >= 0
      ensures res == 0 && buf != [] && old(NoEmptyChunk()) ==> Further()
      ensures Reliable(underlying.manner) && res < 0 ==> res == STREAM_WAITING && Further()
      ensures res < 0 ==> res == underlying.answer
      // It goes on to the payload whenever the intro is out; the result is then the underlying stream's own.
      ensures res > 0 ==> res == underlying.answer
      ensures res == 0 && buf != [] && old(NoEmptyChunk()) ==> underlying.answer == 0 || state == CHUNK_INTRO_1
    {
      if state <= CHUNK_INTRO_1 {
        var len := if state == CHUNK_INTRO_1 then chunkLeft
                   else if |buf| > MAX_CHUNK_SIZE then MAX_CHUNK_SIZE else |buf|;
        res := WriteIntro(len);
        Neutral(part);
        if res <= 0 { return; }
        if state < PAYLOAD { return 0; }
      }
      res := WriteAhead(buf);
    }

    // What is offered goes into the current chunk, as far as it has room.
    method WriteAhead(buf: seq<byte>) returns (res: int)
      requires Valid() && state == PAYLOAD
      modifies this, underlying
      ensures Valid() && WriteResult(res, |buf|) && WriteResult(res, old(chunkLeft))
      ensures underlying.written == old(underlying.written) + Moved(res, buf)
      ensures Accepted() == old(Accepted()) + Moved(res, buf)
      ensures Owed() == old(chunkLeft) - |Moved(res, buf)|
      ensures (state == START && res >= 0) || (state == PAYLOAD && (res >= 0 ==> chunkLeft > 0))
      ensures NoEmptyChunk() == old(NoEmptyChunk())
      ensures Moves(old(chunks), old(part), Moved(res, buf))
      ensures underlying.manner == Willing ==> res >= 0
      ensures res == 0 && buf != [] && old(chunkLeft) > 0 ==> underlying.patience < old(underlying.patience)
      ensures Reliable(underlying.manner) && res < 0 ==>
        res == STREAM_WAITING && underlying.patience < old(underlying.patience)
      ensures res == underlying.answer
    {
      var n: nat := if |buf| > chunkLeft then chunkLeft else |buf|;
      assert n == |buf| ==> buf[..n] == buf;
      res := WritePayload(buf[..n]);
      assert res > 0 ==> buf[..n][..res] == buf[..res];
    }

    // delim_write_stream_close
    method Close() returns (res: int)
      requires Valid() && (state == START || FINAL_CHUNK_INTRO_0 <= state < END)
      modifies this, underlying, delimWrite
      ensures Valid() && chunks == old(chunks) && FINAL_CHUNK_INTRO_0 <= state
      ensures res == STREAM_OK || res == STREAM_WAITING || res == STREAM_ERROR
      ensures (res == STREAM_OK <==> state == END) && (underlying.manner == Willing ==> res == STREAM_OK)
      ensures Reliable(underlying.manner) && res != STREAM_OK ==> res == STREAM_WAITING && Further()
      ensures res != STREAM_OK ==> res == underlying.answer
      ensures delimWrite.open == (old(delimWrite.open) && state != END)
    {
      if state == START {
        state := FINAL_CHUNK_INTRO_0;
        res := CloseIntro();
        if res < 0 { return; }
        if state == END {
          delimWrite.open := false;
          return STREAM_OK;
        }
      }
      while true
        invariant Valid() && chunks == old(chunks) && FINAL_CHUNK_INTRO_0 <= state < END
        invariant delimWrite.open == old(delimWrite.open)
        invariant state > old(state) || old(state) >= FINAL_CHUNK_INTRO_0
        invariant state > old(state) || (state == old(state) && underlying.patience <= old(underlying.patience))
        decreases END - state, underlying.patience
      {
        res := CloseIntro();
        if res < 0 { return; }
        if state >= END { break; }
      }
      delimWrite.open := false;
      res := STREAM_OK;
    }

    // One transfer of what is left of the closing intro.
    method CloseIntro() returns (res: int)
      requires Valid() && FINAL_CHUNK_INTRO_0 <= state < END
      modifies this, underlying
      ensures Valid() && chunks == old(chunks)
      ensures res < 0 ==> res == STREAM_WAITING || res == STREAM_ERROR
      ensures state == old(state) + (if res > 0 then res else 0) <= END
      ensures res == 0 ==> underlying.patience < old(underlying.patience)
      ensures Reliable(underlying.manner) && res < 0 ==>
        res == STREAM_WAITING && underlying.patience < old(underlying.patience)
      ensures res < 0 ==> res == underlying.answer
      ensures underlying.manner == Willing ==> res >= 0
    {
      var pos := state - FINAL_CHUNK_INTRO_0;
      res := underlying.Write(Intro(CHUNK_SIZE_END_BIT)[pos..]);
      if res <= 0 { return; }
      FinalIntroBytes(chunks, pos, res);
      assert base + Sent(state, chunks, [], 0) + Intro(CHUNK_SIZE_END_BIT)[pos..][..res]
          == base + (Sent(state, chunks, [], 0) + Intro(CHUNK_SIZE_END_BIT)[pos..][..res]);
      state := state + res;
    }
  }
}
