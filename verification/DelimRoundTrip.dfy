/** Messages sent through one delimited stream and read back through another: whatever the splits
    into writes, the buffer sizes, and the short, idle and waiting transfers on either side. */
module DelimRoundTrip {
  import opened Bytes
  import opened DelimStates
  import opened Frames
  import opened Sequences
  import opened Streams
  import W = DelimWriter
  import R = DelimReader

  ghost predicate FramesOf(fs: seq<Frame>, msgs: seq<seq<byte>>) {
    && |fs| == |msgs|
    && forall i :: 0 <= i < |fs| ==> WellFormed(fs[i]) && Message(fs[i]) == msgs[i]
  }

  lemma {:induction false} Advance(msg: seq<byte>, sent: nat, end: nat, res: int)
    requires sent < end <= |msg| && res <= end - sent
    ensures msg[..sent] + Moved(res, msg[sent..end]) == msg[..sent + (if res > 0 then res else 0)]
  {
  }

  // A caller that offers non-empty parts of what is left of its message finds the sub-stream ready
  // to be closed when it is done.  It gives up after `steps` calls, unless the stream is steady.
  method SendPayload(s: W.DelimWriteStream, msg: seq<byte>, steps: nat) returns (done: bool)
    requires s.Valid() && s.state == START && s.chunks == []
    modifies s, s.underlying
    ensures s.Valid() && s.state <= PAYLOAD && s.NoEmptyChunk() && s.Accepted() <= msg
    ensures done ==> s.state == START && Joined(s.chunks) == msg
    ensures Reliable(s.underlying.manner) ==> done
    ensures s.Owed() + |s.Accepted()| <= |msg|
  {
    var budget := steps;
    var sent := 0;
    while sent < |msg| && (budget > 0 || Reliable(s.underlying.manner))
      invariant sent <= |msg| && s.Valid() && s.state <= PAYLOAD && s.NoEmptyChunk()
      invariant s.Accepted() == msg[..sent] && s.Owed() <= |msg| - sent
      decreases if Reliable(s.underlying.manner) then 0 else budget, |msg| - sent, PAYLOAD - s.state,
        s.underlying.patience
    {
      var end :| sent < end <= |msg|;
      var res := s.Write(msg[sent..end]);
      Advance(msg, sent, end, res);
      if res > 0 {
        sent := sent + res;
      }
      if budget > 0 { budget := budget - 1; }
    }
    done := sent == |msg|;
    assert done ==> s.Owed() == 0 && msg[..sent] == msg;
  }

  // A message that is not sent to its end leaves the beginning of a frame, whose message is a beginning
  // of it; `missing` is the rest of the frame.
  method SendMessage(dw: W.DelimWrite, msg: seq<byte>, steps: nat)
    returns (done: bool, ghost frame: Frame, ghost missing: seq<byte>)
    requires !dw.open
    modifies dw, dw.underlying
    ensures WellFormed(frame) && Message(frame) <= msg && |missing| <= |Wire(frame)|
    ensures dw.underlying.written + missing == old(dw.underlying.written) + Wire(frame)
    ensures if done then !dw.open && Message(frame) == msg && missing == [] else missing != []
    ensures Reliable(dw.underlying.manner) ==> done
  {
    var s := new W.DelimWriteStream(dw);
    done := SendPayload(s, msg, steps);
    if !done {
      frame, missing := Abandoned(s, msg);
      return;
    }
    ghost var chunks := s.chunks;
    done := false;
    var budget := steps;
    while !done && (budget > 0 || Reliable(dw.underlying.manner))
      invariant s.Valid() && s.chunks == chunks && s.base == old(dw.underlying.written)
      invariant s.state == START || s.state >= FINAL_CHUNK_INTRO_0
      invariant done == (s.state == END) && dw.open == !done
      decreases if Reliable(dw.underlying.manner) then 0 else budget, if done then 0 else 1, END - s.state,
        dw.underlying.patience
    {
      var res := s.Close();
      done := res == STREAM_OK;
      if budget > 0 { budget := budget - 1; }
    }
    assert Joined(chunks) + [] == Joined(chunks);
    if done {
      frame, missing := Frame(chunks, []), [];
      assert dw.underlying.written + [] == dw.underlying.written;
    } else {
      frame, missing := Abandoned(s, msg);
    }
  }

  lemma {:induction false} Abandoned(s: W.DelimWriteStream, msg: seq<byte>) returns (frame: Frame, missing: seq<byte>)
    requires s.Valid() && s.state < END && s.NoEmptyChunk() && s.Accepted() <= msg
    requires s.Owed() + |s.Accepted()| <= |msg|
    ensures WellFormed(frame) && Message(frame) <= msg && 0 < |missing| <= |Wire(frame)|
    ensures s.underlying.written + missing == s.base + Wire(frame)
  {
    var sent := |s.Accepted()|;
    var filler := msg[sent..sent + s.Owed()];
    frame := W.Intended(s.state, s.chunks, s.part, filler);
    missing := W.GivenUp(s.state, s.chunks, s.part, filler);
    Assoc(s.base, W.Sent(s.state, s.chunks, s.part, s.Owed()), missing);
    assert s.Accepted() + filler == msg[..sent + s.Owed()];
    if s.Promised() {
      NonEmptySnoc(s.chunks, s.part + filler);
      JoinedSnoc(s.chunks, s.part + filler);
      Assoc(Joined(s.chunks), s.part, filler);
    } else {
      assert filler == [] && s.part == [];
      assert Joined(s.chunks) + [] == Joined(s.chunks) && s.Accepted() + [] == s.Accepted();
    }
    assert Joined(frame.chunks) + [] == Joined(frame.chunks);
  }

  // Messages are sent one after another; `sent` counts those sent in full, and `frame` is the one given
  // up, if any.
  method SendAll(dw: W.DelimWrite, msgs: seq<seq<byte>>, steps: nat)
    returns (sent: nat, ghost frames: seq<Frame>, ghost frame: Frame, ghost missing: seq<byte>)
    requires !dw.open
    modifies dw, dw.underlying
    ensures sent <= |msgs| && FramesOf(frames, msgs[..sent])
    ensures sent == |msgs| ==> dw.underlying.written == old(dw.underlying.written) + WireAll(frames)
    ensures sent < |msgs| ==>
      && WellFormed(frame) && Message(frame) <= msgs[sent] && 0 < |missing| <= |Wire(frame)|
      && dw.underlying.written + missing == old(dw.underlying.written) + WireAll(frames) + Wire(frame)
    ensures Reliable(dw.underlying.manner) ==> sent == |msgs|
  {
    sent, frames, frame, missing := 0, [], Frame([], []), [];
    while sent < |msgs|
      invariant sent <= |msgs| && FramesOf(frames, msgs[..sent]) && !dw.open
      invariant dw.underlying.written == old(dw.underlying.written) + WireAll(frames)
    {
      var done;
      done, frame, missing := SendMessage(dw, msgs[sent], steps);
      if !done { return; }
      WireAllSnoc(frames, frame);
      Assoc(old(dw.underlying.written), WireAll(frames), Wire(frame));
      assert dw.underlying.written + [] == dw.underlying.written;
      frames, sent := frames + [frame], sent + 1;
    }
  }

  lemma {:induction false} Append(a: seq<byte>, b: seq<byte>, c: seq<byte>)
    ensures a + (b + c) == (a + b) + c && a + b <= a + (b + c)
  {
    assert a + (b + c) == (a + b) + c;
  }

  // Reads one message, into buffers of any size, and gives up after `steps` calls; or goes on until it is
  // told that the stream is at its end, if the stream is steady and the frame can be read.  `m` is what
  // the stream never delivers, `done` whether the sub-stream can be closed.
  method ReceiveMessage(dr: R.DelimRead, ghost f: Frame, ghost rest: seq<byte>, ghost m: seq<byte>, steps: nat,
      persist: bool)
    returns (msg: seq<byte>, over: bool, done: bool)
    requires !dr.open && R.SizedFrame(f) && dr.underlying.data + m == Wire(f) + rest
    requires persist ==> Reliable(dr.underlying.manner) && NonEmpty(f.chunks)
    modifies dr, dr.underlying
    ensures msg <= Message(f) && (persist ==> over)
    ensures over ==> (done <==> |m| <= |rest|)
    ensures done ==> over && msg == Message(f) && !dr.open && dr.underlying.data + m == rest
    // A frame with an empty chunk before its last one is never read to its end.
    ensures done ==> NonEmpty(f.chunks)
  {
    var s := new R.DelimReadStream(dr, f, rest, m);
    var budget := steps;
    msg, over := [], false;
    while !over && (budget > 0 || persist)
      invariant s.Valid() && s.Blocked() == !NonEmpty(f.chunks) && s.rest == rest && s.missing == m
      invariant Message(f) == msg + s.Pending() && msg <= Message(f)
      invariant dr.open == (s.state != END)
      invariant over ==> s.state == END || s.underlying.data == []
      decreases if persist then 0 else budget, if over then 0 else 1, |dr.underlying.data|, dr.underlying.patience
    {
      var len: nat := *;
      if persist && len == 0 { len := 1; }
      var res, bytes := s.Read(len);
      Append(msg, bytes, s.Pending());
      msg := msg + bytes;
      over := res == STREAM_END;
      if budget > 0 { budget := budget - 1; }
    }
    done := over && s.state == END;
    if over {
      s.CutShort();
    }
    if done {
      assert [] + rest == rest && msg + [] == msg;
    }
  }

  // Reads the messages of `frames`; `partial` is what has been read of the one given up, if any.
  method ReceiveAll(dr: R.DelimRead, ghost frames: seq<Frame>, count: nat, ghost rest: seq<byte>, ghost m: seq<byte>,
      steps: nat)
    returns (msgs: seq<seq<byte>>, partial: seq<byte>)
    requires !dr.open && |frames| == count && (forall i :: 0 <= i < |frames| ==> WellFormed(frames[i]))
    requires dr.underlying.data + m == WireAll(frames) + rest && |m| <= |rest|
    modifies dr, dr.underlying
    ensures |msgs| <= count && FramesOf(frames[..|msgs|], msgs)
    ensures |msgs| == count ==> dr.underlying.data + m == rest && !dr.open
    ensures |msgs| < count ==> partial <= Message(frames[|msgs|])
    ensures Reliable(dr.underlying.manner) ==> |msgs| == count
  {
    msgs, partial := [], [];
    while |msgs| < count
      invariant |msgs| <= count && FramesOf(frames[..|msgs|], msgs) && !dr.open
      invariant dr.underlying.data + m == WireAll(frames[|msgs|..]) + rest
    {
      ghost var k := |msgs|;
      WireAllHead(frames[k..], rest);
      var msg, over, done := ReceiveMessage(dr, frames[k], WireAll(frames[k + 1..]) + rest, m, steps,
        Reliable(dr.underlying.manner));
      if !done { return msgs, msg; }
      msgs := msgs + [msg];
    }
    assert [] + rest == rest;
  }

  lemma {:induction false} WireAllHead(fs: seq<Frame>, rest: seq<byte>)
    requires fs != [] && forall i :: 0 <= i < |fs| ==> WellFormed(fs[i])
    ensures WireAll(fs) + rest == Wire(fs[0]) + (WireAll(fs[1..]) + rest)
  {
  }

  // The messages received are those sent, in order, and then a beginning of the next one, wherever the
  // sender or the reader gives up.  A steady reader gets all that were sent in full, a steady sender
  // sends them all; and when they have all arrived, nothing is left over.
  method RoundTrip(msgs: seq<seq<byte>>, sender: Manner, reader: Manner, steps: nat)
    returns (sent: nat, received: seq<seq<byte>>, partial: seq<byte>, left: seq<byte>)
    ensures sent <= |msgs| && (Reliable(sender) ==> sent == |msgs|)
    ensures received <= msgs[..sent] && (Reliable(reader) ==> received == msgs[..sent])
    ensures |received| < |msgs| ==> partial <= msgs[|received|]
    ensures received == msgs ==> partial == [] && left == []
  {
    var sink := new Sink(sender);
    var dw := new W.DelimWrite(sink);
    ghost var frames, frame, missing;
    sent, frames, frame, missing := SendAll(dw, msgs, steps);
    var source := new Source(reader, sink.written);
    var dr := new R.DelimRead(source);
    ghost var rest := if sent < |msgs| then Wire(frame) else [];
    if sent == |msgs| { missing := []; }
    assert [] + WireAll(frames) == WireAll(frames);
    assert sent == |msgs| ==> source.data + [] == WireAll(frames) + [];
    received, partial := ReceiveAll(dr, frames, sent, rest, missing, steps);
    if |received| == sent < |msgs| {
      var over, done;
      assert source.data + missing == Wire(frame) + [];
      partial, over, done := ReceiveMessage(dr, frame, [], missing, steps, Reliable(reader));
    } else if |received| == sent {
      partial := [];
    }
    left := source.data;
    if sent == |msgs| && |received| == sent { assert left + [] == left; }
  }

  // A stream that breaks off after one byte: the reader is told that the stream is at its end, and is not
  // in the state that closing the sub-stream asserts.
  method BrokenOff() returns (told: bool, atEnd: bool)
    ensures told && !atEnd
  {
    var source := new Source(Willing, [5]);
    var dr := new R.DelimRead(source);
    ghost var g, missing := R.BrokenIntro([5]);
    assert [5] + missing == Wire(g) + [];
    assert |Wire(g)| >= 2;
    var msg, over, done := ReceiveMessage(dr, g, [], missing, 0, true);
    told, atEnd := over, done;
  }

  // ---------------------------------------------------------------- the bytes on the wire

  // A message that fits into one chunk, on a steady stream: its size, low byte first, the message, and the
  // intro of an empty chunk with the end bit.
  method OneChunk(msg: seq<byte>) returns (wire: seq<byte>)
    requires 0 < |msg| <= 0x7fff
    ensures |wire| == |msg| + 4 && wire[0] as int + 256 * wire[1] as int == |msg|
    ensures wire[2..|msg| + 2] == msg && wire[|msg| + 2..] == [0, 128]
  {
    wire := WriteOne(msg);
    OneChunkWire(msg);
  }

  method WriteOne(msg: seq<byte>) returns (wire: seq<byte>)
    requires 0 < |msg| <= MAX_CHUNK_SIZE
    ensures wire == Wire(Frame([msg], []))
  {
    var sink := new Sink(Steady);
    var dw := new W.DelimWrite(sink);
    var s := new W.DelimWriteStream(dw);
    OfferAll(s, msg);
    CloseAll(s);
    wire := sink.written;
    Neutral(Wire(Frame([msg], [])));
  }

  // Everything that is left is offered in each call.
  method OfferAll(s: W.DelimWriteStream, msg: seq<byte>)
    requires s.Valid() && s.state == START && s.chunks == [] && s.part == [] && 0 < |msg| <= MAX_CHUNK_SIZE
    requires Reliable(s.underlying.manner)
    modifies s, s.underlying
    ensures s.Valid() && s.state == START && s.chunks == [msg]
  {
    var sent := 0;
    while sent < |msg|
      invariant Offering(s, msg, sent)
      decreases |msg| - sent, PAYLOAD - s.state, s.underlying.patience
    {
      sent := OfferRest(s, msg, sent);
    }
  }

  // The chunk is under way, and is as long as the message.
  ghost predicate Offering(s: W.DelimWriteStream, msg: seq<byte>, sent: nat)
    reads s, s.underlying
  {
    && s.Valid() && s.NoEmptyChunk() && s.state <= PAYLOAD && sent <= |msg|
    && if sent == |msg| then s.chunks == [msg] && s.state == START
       else s.chunks == [] && s.part == msg[..sent] && if s.state == START then sent == 0 else s.Owed() == |msg| - sent
  }

  method OfferRest(s: W.DelimWriteStream, msg: seq<byte>, sent: nat) returns (sent': nat)
    requires Offering(s, msg, sent) && sent < |msg| <= MAX_CHUNK_SIZE && Reliable(s.underlying.manner)
    modifies s, s.underlying
    ensures Offering(s, msg, sent')
    ensures sent' > sent || (sent' == sent && (s.state > old(s.state)
      || (s.state == old(s.state) && s.underlying.patience < old(s.underlying.patience))))
  {
    var res := s.Write(msg[sent..]);
    sent' := if res > 0 then sent + res else sent;
    Advance(msg, sent, |msg|, res);
    assert msg[..|msg|] == msg && [] + [msg] == [msg];
  }

  method CloseAll(s: W.DelimWriteStream)
    requires s.Valid() && s.state == START && Reliable(s.underlying.manner)
    modifies s, s.underlying, s.delimWrite
    ensures s.Valid() && s.state == END && s.chunks == old(s.chunks)
  {
    while s.state != END
      invariant s.Valid() && (s.state == START || s.state >= FINAL_CHUNK_INTRO_0) && s.chunks == old(s.chunks)
      decreases END - s.state, s.underlying.patience
    {
      var res := s.Close();
    }
  }

  lemma {:induction false} OneChunkWire(msg: seq<byte>)
    requires |msg| <= MAX_CHUNK_SIZE
    ensures var w := Wire(Frame([msg], []));
            && |w| == |msg| + 4 && w[0] as int + 256 * w[1] as int == |msg|
            && w[2..|msg| + 2] == msg && w[|msg| + 2..] == [0, 128]
  {
    LittleEndian(|msg|);
    LittleEndian(CHUNK_SIZE_END_BIT);
    assert [msg][1..] == [] && Chunks([msg]) == Intro(|msg|) + msg + [];
    var w, end := Wire(Frame([msg], [])), Intro(CHUNK_SIZE_END_BIT);
    assert w == Intro(|msg|) + msg + end;
    assert end == [0, 128];
  }
}
