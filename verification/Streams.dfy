/** The streams that sub-streams and HTTP messages are carried on (include/molerat/stream.h).

    The underlying stream is any stream at all: it may transfer less than it is offered, transfer
    nothing, make the caller wait, fail, or (when read) be at its end. */
module Streams {
  import opened Bytes

  const STREAM_OK: int := 0
  const STREAM_WAITING: int := -1
  const STREAM_ERROR: int := -2
  const STREAM_END: int := -3

  // What a transfer that returned `res` moved.
  function Moved(res: int, buf: seq<byte>): seq<byte>
    requires res <= |buf|
  {
    if res > 0 then buf[..res] else []
  }

  predicate WriteResult(res: int, len: nat) {
    res == STREAM_WAITING || res == STREAM_ERROR || 0 <= res <= len
  }

  // How a stream treats its callers.  One of any kind may make them wait and fail as it likes.  A steady
  // one does not fail, and turns them away (moves nothing, or makes them wait) at most `patience` times
  // running; a willing one is steady and never makes them wait.  A silent one delivers what it has as
  // asked, and makes its callers wait for ever after.
  datatype Manner = Any | Steady | Willing | Silent

  predicate Reliable(m: Manner) {
    m == Steady || m == Willing
  }

  // The stream written to.
  class Sink {
    const manner: Manner
    var written: seq<byte>
    var patience: nat
    ghost var answer: int        // to the last call

    constructor (manner: Manner)
      ensures written == [] && this.manner == manner
    {
      this.manner, written, patience := manner, [], *;
    }

    method Write(buf: seq<byte>) returns (res: int)
      modifies this
      ensures WriteResult(res, |buf|) && (manner == Willing ==> res >= 0) && answer == res
      ensures written == old(written) + Moved(res, buf)
      ensures res == 0 && buf != [] ==> patience < old(patience)
      ensures Reliable(manner) && res < 0 ==> res == STREAM_WAITING && patience < old(patience)
    {
      var n: nat :| n <= |buf|;
      var wait: bool, fail: bool := *, *;
      if manner == Steady && wait && patience > 0 {
        res, patience := STREAM_WAITING, patience - 1;
      } else if !Reliable(manner) && wait {
        res := STREAM_WAITING;
      } else if !Reliable(manner) && fail {
        res := STREAM_ERROR;
      } else if patience > 0 && n == 0 {
        res, patience := 0, patience - 1;
      } else {
        if n == 0 { n := |buf|; }
        res, written, patience := n, written + buf[..n], *;
      }
      answer := res;
    }
  }

  // The stream read from: `data` is what it has still to deliver.
  class Source {
    const manner: Manner
    var data: seq<byte>
    var patience: nat
    ghost var answer: int        // to the last call

    constructor (manner: Manner, d: seq<byte>)
      ensures data == d && this.manner == manner
    {
      this.manner, data, patience := manner, d, *;
    }

    method Read(len: nat) returns (res: int, bytes: seq<byte>)
      modifies this
      ensures WriteResult(res, len) || (res == STREAM_END && old(data) == [])
      ensures answer == res
      ensures |bytes| == (if res > 0 then res else 0) && old(data) == bytes + data
      ensures res == 0 && len > 0 ==> patience < old(patience)
      ensures manner == Willing && res < 0 ==> res == STREAM_END
      ensures Reliable(manner) && res < 0 ==> res == STREAM_END || (res == STREAM_WAITING && patience < old(patience))
      ensures manner == Silent ==>
        res == if old(data) == [] then STREAM_WAITING else if len < |old(data)| then len else |old(data)|
    {
      var n: nat :| n <= len && n <= |data|;
      var wait: bool, fail: bool, atEnd: bool := *, *, *;
      bytes := [];
      if manner == Silent {
        n := if len < |data| then len else |data|;
        assert data == data[..n] + data[n..];
        res, bytes, data := if data == [] then STREAM_WAITING else n, data[..n], data[n..];
      } else if manner == Steady && wait && patience > 0 {
        res, patience := STREAM_WAITING, patience - 1;
      } else if manner == Any && wait {
        res := STREAM_WAITING;
      } else if manner == Any && fail {
        res := STREAM_ERROR;
      } else if data == [] && (atEnd || (patience == 0 && len > 0)) {
        res := STREAM_END;
      } else if patience > 0 && n == 0 && len > 0 {
        res, patience := 0, patience - 1;
      } else {
        if n == 0 && len > 0 { n := 1; }
        assert data == data[..n] + data[n..];
        res, bytes, data, patience := n, data[..n], data[n..], *;
      }
      answer := res;
    }
  }
}
