/** Writing HTTP messages to a stream (src/http_writer.c, src/stream.c). */
module HttpWriter {
  import opened Bytes
  import opened Growbuf
  import opened Options
  import opened Sequences
  import opened Streams

  datatype WriterState = INIT | HEADERS | PREBODY | BODY

  const CRLF: seq<byte> := [13, 10]
  const COLON: seq<byte> := [58, 32]

  // stream_write_bytes
  method WriteBytes(stream: Sink, s: Slice) returns (res: int, rest: Slice)
    requires s.pos <= s.end <= s.buf.Length
    modifies stream
    ensures res == STREAM_END <==> s.pos == s.end
    ensures res != STREAM_END ==> WriteResult(res, s.end - s.pos)
    ensures rest == s.(pos := s.pos + (if res > 0 then res else 0))
    ensures stream.written == old(stream.written) + s.buf[s.pos..rest.pos]
    ensures res == 0 ==> stream.patience < old(stream.patience)
    ensures Reliable(stream.manner) && res < 0 ==>
      res == STREAM_END || (res == STREAM_WAITING && stream.patience < old(stream.patience))
    ensures stream.manner == Willing && res < 0 ==> res == STREAM_END
    ensures res != STREAM_END ==> res == stream.answer
  {
    rest := s;
    if s.pos == s.end { return STREAM_END, s; }
    res := stream.Write(s.buf[s.pos..s.end]);
    if res > 0 {
      rest := s.(pos := s.pos + res);
    }
  }

  class HttpWriter {
    const stream: Sink
    const prebody: Growbuf
    var state: WriterState
    var prebodyOut: Slice

    ghost var base: seq<byte>   // what had been written before the message
    ghost var head: seq<byte>   // its start line and headers so far
    ghost var body: seq<byte>   // the part of its body that has been accepted

    // http_writer_init
    constructor (s: Sink)
      ensures Valid() && stream == s && state == INIT && base == s.written && fresh(prebody) && fresh(prebody.buf)
    {
      stream := s;
      prebody := new Growbuf(1000);
      prebodyOut := *;
      state, base, head, body := INIT, s.written, [], [];
    }

    // Each byte of the message is either on the stream, once and in order, or still to be written.
    ghost predicate Valid()
      reads this, stream, prebody, prebody.buf
    {
      && prebody.Valid()
      && match state
         case INIT => stream.written == base
         case HEADERS => stream.written == base && !prebody.frozen && prebody.Contents() == head && body == []
         case PREBODY =>
           && prebody.Contents() == head + CRLF && body == []
           && prebodyOut.buf == prebody.buf && prebodyOut.pos <= prebodyOut.end == prebody.end
           && stream.written == base + (head + CRLF)[..prebodyOut.pos]
         case BODY => stream.written == base + (head + CRLF) + body
    }

    // http_writer_request, with the line that it prints
    method Request(line: seq<byte>)
      requires Valid() && state == INIT
      modifies this`state, this`head, this`body, prebody, prebody.buf
      ensures Valid() && state == HEADERS && (prebody.buf == old(prebody.buf) || fresh(prebody.buf))
      ensures head == Printed(old(prebody.buf.Length), 0, line)
    {
      prebody.Reset();
      prebody.Printf(line);
      state, head, body := HEADERS, prebody.Contents(), [];
    }

    // http_writer_response, with the message that the status code stands for
    method Response(message: seq<byte>)
      requires Valid() && state == INIT
      modifies this`state, this`head, this`body, prebody, prebody.buf
      ensures Valid() && state == HEADERS && (prebody.buf == old(prebody.buf) || fresh(prebody.buf))
      ensures head == message
    {
      prebody.Reset();
      prebody.Append(message);
      state, head, body := HEADERS, message, [];
    }

    // http_writer_header
    method Header(name: seq<byte>, value: seq<byte>)
      requires Valid() && state == HEADERS
      modifies this`head, prebody, prebody.buf
      ensures Valid() && (prebody.buf == old(prebody.buf) || fresh(prebody.buf))
      ensures head == old(head) + name + COLON + value + CRLF
    {
      prebody.Append(name);
      prebody.Append(COLON);
      prebody.Append(value);
      prebody.Append(CRLF);
      head := head + name + COLON + value + CRLF;
    }

    // http_writer_headerf, for a value that is formatted to `text`
    method Headerf(name: seq<byte>, text: seq<byte>) returns (ghost room: nat)
      requires Valid() && state == HEADERS
      modifies this`head, prebody, prebody.buf
      ensures Valid() && (prebody.buf == old(prebody.buf) || fresh(prebody.buf))
      ensures |old(head) + name + COLON| <= room
      ensures head == old(head) + name + COLON + Printed(room, |old(head) + name + COLON|, text) + CRLF
    {
      prebody.Append(name);
      prebody.Append(COLON);
      room := prebody.buf.Length;
      prebody.Printf(text);
      prebody.Append(CRLF);
      head := head + name + COLON + Printed(room, |head + name + COLON|, text) + CRLF;
    }

    // The part of finish_prebody that ends the headers.
    method Freeze()
      requires Valid() && state == HEADERS
      modifies this`state, this`prebodyOut, prebody, prebody.buf
      ensures Valid() && state == PREBODY && (prebody.buf == old(prebody.buf) || fresh(prebody.buf))
    {
      prebody.Append(CRLF);
      prebodyOut := prebody.ToBytes();
      state := PREBODY;
    }

    // One turn of its loop.
    method WriteSome() returns (res: int)
      requires Valid() && state == PREBODY
      modifies this`prebodyOut, stream
      ensures Valid()
      ensures res == STREAM_END <==> prebodyOut.pos == prebodyOut.end == old(prebodyOut.pos)
      ensures res < 0 ==> res == STREAM_END || res == STREAM_WAITING || res == STREAM_ERROR
      ensures stream.manner == Willing && res < 0 ==> res == STREAM_END
      ensures Reliable(stream.manner) && res == STREAM_WAITING ==> stream.patience < old(stream.patience)
      ensures Reliable(stream.manner) ==> res != STREAM_ERROR
      ensures res != STREAM_END ==> res == stream.answer
      ensures prebodyOut.end == old(prebodyOut.end) && (res == STREAM_WAITING ==> prebodyOut.pos == old(prebodyOut.pos))
      ensures res >= 0 && prebodyOut.pos <= old(prebodyOut.pos) ==>
        prebodyOut.pos == old(prebodyOut.pos) && stream.patience < old(stream.patience)
    {
      ghost var pos, text := prebodyOut.pos, head + CRLF;
      res, prebodyOut := WriteBytes(stream, prebodyOut);
      assert prebody.buf[pos..prebodyOut.pos] == text[pos..prebodyOut.pos];
      assert text[..pos] + text[pos..prebodyOut.pos] == text[..prebodyOut.pos];
    }

    // How much of the head has still to go out; the states on the way to the body count as well.
    ghost function ToGo(): nat
      requires Valid()
      reads this, stream, prebody, prebody.buf
    {
      match state
      case INIT => |head| + 5
      case HEADERS => |head| + 4
      case PREBODY => prebodyOut.end - prebodyOut.pos + 1
      case BODY => 0
    }

    // More of the head has gone out, or the stream has been idle.
    twostate predicate Further()
      requires old(Valid()) && Valid()
      reads this, stream, prebody, prebody.buf
    {
      ToGo() < old(ToGo()) || (ToGo() == old(ToGo()) && stream.patience < old(stream.patience))
    }

    // finish_prebody
    method FinishPrebody() returns (res: int)
      requires Valid() && state != INIT
      modifies this`state, this`prebodyOut, prebody, prebody.buf, stream
      ensures Valid() && (prebody.buf == old(prebody.buf) || fresh(prebody.buf))
      ensures res == 0 <==> state == BODY
      ensures res != 0 ==> state == PREBODY && (res == STREAM_WAITING || res == STREAM_ERROR)
      ensures stream.manner == Willing ==> res == 0
      ensures Reliable(stream.manner) && res != 0 ==> res == STREAM_WAITING && Further()
      ensures res != 0 ==> res == stream.answer
      ensures old(state) == BODY ==> stream.patience == old(stream.patience)
    {
      if state == HEADERS {
        Freeze();
      }
      if state == PREBODY {
        while true
          invariant Valid() && state == PREBODY && (prebody.buf == old(prebody.buf) || fresh(prebody.buf))
          invariant old(state) == PREBODY ==>
            Further() || (ToGo() == old(ToGo()) && stream.patience == old(stream.patience))
          decreases prebodyOut.end - prebodyOut.pos, stream.patience
        {
          res := WriteSome();
          if res < 0 {
            if res == STREAM_END { break; }
            return;
          }
        }
        assert (head + CRLF)[..prebodyOut.pos] == head + CRLF;
        state := BODY;
      }
      res := 0;
    }

    // At every moment the stream has had a beginning of the message.
    lemma {:induction false} Beginning(rest: seq<byte>)
      requires Valid() && state != INIT
      ensures base <= stream.written <= base + (head + CRLF + (body + rest))
    {
      var text := head + CRLF;
      if state == PREBODY {
        var p := prebodyOut.pos;
        assert text == text[..p] + text[p..];
        assert base + (text + (body + rest)) == base + text[..p] + (text[p..] + (body + rest));
      } else if state == BODY {
        assert base + (text + (body + rest)) == base + text + body + rest;
      }
    }

    // http_writer_write: the result counts the bytes of the body that have been accepted.
    method Write(buf: seq<byte>) returns (res: int)
      requires Valid() && state != INIT
      modifies this`state, this`prebodyOut, this`body, prebody, prebody.buf, stream
      ensures Valid() && state != INIT && (prebody.buf == old(prebody.buf) || fresh(prebody.buf))
      ensures WriteResult(res, |buf|) && body == old(body) + Moved(res, buf)
      ensures (stream.manner == Willing ==> res >= 0) && (res >= 0 ==> state == BODY)
      ensures res == 0 && buf != [] && old(state) == BODY ==> stream.patience < old(stream.patience)
      ensures Reliable(stream.manner) && res < 0 ==> res == STREAM_WAITING && Further()
      ensures res < 0 ==> res == stream.answer
    {
      res := FinishPrebody();
      if res >= 0 {
        res := stream.Write(buf);
        body := body + Moved(res, buf);
      }
    }

    // http_writer_end
    method End() returns (done: bool)
      requires Valid() && state != INIT
      modifies this`state, this`prebodyOut, this`base, prebody, prebody.buf, stream
      ensures Valid() && (prebody.buf == old(prebody.buf) || fresh(prebody.buf))
      ensures done ==> state == INIT && base == old(base) + (head + CRLF) + body
      ensures !done ==> state == PREBODY && base == old(base)
      ensures stream.manner == Willing ==> done
      ensures Reliable(stream.manner) && !done ==> Further()
    {
      var res := FinishPrebody();
      done := res == 0;
      if done {
        state, base := INIT, stream.written;
      }
    }
  }

  // A header line.
  function Line(name: seq<byte>, value: seq<byte>): seq<byte> {
    name + COLON + value + CRLF
  }

  function Lines(headers: seq<(seq<byte>, seq<byte>)>): seq<byte> {
    if headers == [] then []
    else Lines(headers[..|headers| - 1]) + Line(headers[|headers| - 1].0, headers[|headers| - 1].1)
  }

  // A response message (section 3 of RFC 7230): the status line, the headers in the order of the
  // calls, an empty line, and the body.
  function Rendered(status: seq<byte>, headers: seq<(seq<byte>, seq<byte>)>, body: seq<byte>): seq<byte> {
    (status + Lines(headers)) + CRLF + body
  }

  // A caller that sets the headers and goes on offering what is left of its body: when it is done, the
  // stream has had the message, and nothing else.  It gives up after `steps` calls, unless the stream
  // is steady.
  method Respond(w: HttpWriter, status: seq<byte>, headers: seq<(seq<byte>, seq<byte>)>, body: seq<byte>, steps: nat)
    returns (done: bool)
    requires w.Valid() && w.state == INIT
    modifies w, w.prebody, w.prebody.buf, w.stream
    ensures w.Valid() && w.stream.written <= old(w.stream.written) + Rendered(status, headers, body)
    ensures done ==> w.state == INIT && w.stream.written == old(w.stream.written) + Rendered(status, headers, body)
    ensures Reliable(w.stream.manner) ==> done
  {
    w.Response(status);
    SetHeaders(w, status, headers);
    var sent := SendBody(w, body, steps);
    if sent < |body| {
      w.Beginning(body[sent..]);
      assert body[..sent] + body[sent..] == body;
      return false;
    }
    assert body[..sent] == body;
    done := SendEnd(w, body, steps);
    if !done {
      w.Beginning([]);
      assert body + [] == body;
    }
  }

  // The caller offers parts of what is left of the body, and gives up after `steps` calls unless the
  // stream is steady.
  method SendBody(w: HttpWriter, body: seq<byte>, steps: nat) returns (sent: nat)
    requires w.Valid() && w.state == HEADERS && w.body == []
    modifies w, w.prebody, w.prebody.buf, w.stream
    ensures w.Valid() && w.state != INIT && w.base == old(w.base) && w.head == old(w.head)
    ensures w.prebody.buf == old(w.prebody.buf) || fresh(w.prebody.buf)
    ensures sent <= |body| && w.body == body[..sent] && (Reliable(w.stream.manner) ==> sent == |body|)
  {
    var budget := steps;
    sent := 0;
    while sent < |body| && (budget > 0 || Reliable(w.stream.manner))
      invariant w.Valid() && w.state != INIT && w.base == old(w.base) && w.head == old(w.head)
      invariant w.prebody.buf == old(w.prebody.buf) || fresh(w.prebody.buf)
      invariant sent <= |body| && w.body == body[..sent]
      decreases if Reliable(w.stream.manner) then 0 else budget, |body| - sent, w.ToGo(), w.stream.patience
    {
      var end :| sent < end <= |body|;
      var res := w.Write(body[sent..end]);
      if res > 0 {
        assert body[..sent] + body[sent..end][..res] == body[..sent + res];
        sent := sent + res;
      }
      if budget > 0 { budget := budget - 1; }
    }
  }

  method SendEnd(w: HttpWriter, body: seq<byte>, steps: nat) returns (done: bool)
    requires w.Valid() && w.state != INIT && w.body == body
    modifies w, w.prebody, w.prebody.buf, w.stream
    ensures w.Valid() && w.head == old(w.head) && w.body == body
    ensures if done then w.state == INIT && w.stream.written == old(w.base) + ((w.head + CRLF) + body)
            else w.state != INIT && w.base == old(w.base)
    ensures Reliable(w.stream.manner) ==> done
  {
    var budget := steps;
    done := false;
    while !done && (budget > 0 || Reliable(w.stream.manner))
      invariant w.Valid() && (w.prebody.buf == old(w.prebody.buf) || fresh(w.prebody.buf))
      invariant w.head == old(w.head) && w.body == body
      invariant if done then w.state == INIT && w.base == old(w.base) + ((w.head + CRLF) + body)
                else w.state != INIT && w.base == old(w.base)
      decreases if Reliable(w.stream.manner) then 0 else budget, if done then 0 else 1, w.ToGo(), w.stream.patience
    {
      done := w.End();
      Assoc(old(w.base), w.head + CRLF, body);
      if budget > 0 { budget := budget - 1; }
    }
  }

  method SetHeaders(w: HttpWriter, status: seq<byte>, headers: seq<(seq<byte>, seq<byte>)>)
    requires w.Valid() && w.state == HEADERS && w.head == status
    modifies w`head, w.prebody, w.prebody.buf
    ensures w.Valid() && w.head == status + Lines(headers)
    ensures w.prebody.buf == old(w.prebody.buf) || fresh(w.prebody.buf)
  {
    var i := 0;
    assert status + Lines([]) == status;
    while i < |headers|
      invariant w.Valid() && w.state == HEADERS && i <= |headers| && w.head == status + Lines(headers[..i])
      invariant w.prebody.buf == old(w.prebody.buf) || fresh(w.prebody.buf)
    {
      w.Header(headers[i].0, headers[i].1);
      assert headers[..i + 1][..i] == headers[..i];
      Regroup(status, Lines(headers[..i]), headers[i].0, headers[i].1);
      i := i + 1;
    }
    assert headers[..i] == headers;
  }

  lemma {:induction false} Regroup(status: seq<byte>, lines: seq<byte>, name: seq<byte>, value: seq<byte>)
    ensures status + lines + name + COLON + value + CRLF == status + (lines + Line(name, value))
  {
    assert status + lines + name + COLON + value + CRLF == status + lines + Line(name, value);
  }

  // ---------------------------------------------------------------- a reader of such messages

  // The text up to the first CR LF, and what follows it (section 3 of RFC 7230).
  function FirstLine(text: seq<byte>): Option<(seq<byte>, seq<byte>)> {
    if |text| < 2 then None
    else if text[0] == 13 && text[1] == 10 then Some(([], text[2..]))
    else
      match FirstLine(text[1..])
      case None => None
      case Some(found) => Some(([text[0]] + found.0, found.1))
  }

  // The field name up to the colon, and the value behind the space after it (section 3.2 of RFC 7230).
  function Field(line: seq<byte>): Option<(seq<byte>, seq<byte>)> {
    if |line| < 2 then None
    else if line[0] == 58 then (if line[1] == 32 then Some(([], line[2..])) else None)
    else
      match Field(line[1..])
      case None => None
      case Some(found) => Some(([line[0]] + found.0, found.1))
  }

  // The fields up to the empty line, and the body behind it.
  function Fields(text: seq<byte>): Option<(seq<(seq<byte>, seq<byte>)>, seq<byte>)>
    decreases |text|
  {
    match FirstLine(text)
    case None => None
    case Some(found) =>
      if found.0 == [] then Some(([], found.1))
      else if |found.1| >= |text| then None
      else
        match (Field(found.0), Fields(found.1))
        case (Some(field), Some(more)) => Some(([field] + more.0, more.1))
        case _ => None
  }

  predicate Plain(text: seq<byte>) {
    13 !in text
  }

  predicate PlainHeader(h: (seq<byte>, seq<byte>)) {
    58 !in h.0 && Plain(h.0) && Plain(h.1)
  }

  lemma {:induction false} LineRead(line: seq<byte>, rest: seq<byte>)
    requires Plain(line)
    ensures FirstLine(line + CRLF + rest) == Some((line, rest))
  {
    var text := line + CRLF + rest;
    if line == [] {
      assert text[2..] == rest;
    } else {
      LineRead(line[1..], rest);
      assert text[1..] == line[1..] + CRLF + rest;
      assert [line[0]] + line[1..] == line;
    }
  }

  lemma {:induction false} FieldRead(name: seq<byte>, value: seq<byte>)
    requires 58 !in name
    ensures Field(name + COLON + value) == Some((name, value))
  {
    var line := name + COLON + value;
    if name == [] {
      assert line[2..] == value;
    } else {
      FieldRead(name[1..], value);
      assert line[1..] == name[1..] + COLON + value;
      assert [name[0]] + name[1..] == name;
    }
  }

  lemma {:induction false} LinesHead(headers: seq<(seq<byte>, seq<byte>)>)
    requires headers != []
    ensures Lines(headers) == Line(headers[0].0, headers[0].1) + Lines(headers[1..])
  {
    var n := |headers| - 1;
    if n > 0 {
      LinesHead(headers[..n]);
      assert headers[..n][1..] == headers[1..][..n - 1];
      Assoc(Line(headers[0].0, headers[0].1), Lines(headers[1..][..n - 1]), Line(headers[n].0, headers[n].1));
    } else {
      assert headers[..0] == [] && headers[1..] == [];
    }
  }

  lemma {:induction false} FieldsRead(headers: seq<(seq<byte>, seq<byte>)>, body: seq<byte>)
    requires forall h :: h in headers ==> PlainHeader(h)
    ensures Fields(Lines(headers) + CRLF + body) == Some((headers, body))
  {
    var text := Lines(headers) + CRLF + body;
    if headers == [] {
      LineRead([], body);
      assert text == [] + CRLF + body;
    } else {
      var name, value := headers[0].0, headers[0].1;
      var line, rest := name + COLON + value, Lines(headers[1..]) + CRLF + body;
      assert PlainHeader(headers[0]);
      LinesHead(headers);
      assert text == line + CRLF + rest;
      LineRead(line, rest);
      FieldRead(name, value);
      FieldsRead(headers[1..], body);
      assert [headers[0]] + headers[1..] == headers;
    }
  }

  // A message that is rendered is read back as it was put together, if no part of it contains what ends it.
  lemma {:induction false} RenderedReadsBack(line: seq<byte>, headers: seq<(seq<byte>, seq<byte>)>, body: seq<byte>)
    requires Plain(line) && forall h :: h in headers ==> PlainHeader(h)
    ensures var found := FirstLine(Rendered(line + CRLF, headers, body));
            found.Some? && found.value.0 == line && Fields(found.value.1) == Some((headers, body))
  {
    var rest := Lines(headers) + CRLF + body;
    assert Rendered(line + CRLF, headers, body) == line + CRLF + rest;
    LineRead(line, rest);
    FieldsRead(headers, body);
  }
}
