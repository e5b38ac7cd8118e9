/** Growable buffers and slices of them (src/buffer.c, include/molerat/buffer.h). */
module Growbuf {
  import opened Bytes

  // struct bytes: a slice of a buffer that it does not own
  datatype Slice = Slice(buf: array<byte>, pos: nat, end: nat)

  // The room after `used` once a buffer has been doubled until `need` bytes fit.
  function Room(capacity: nat, used: nat, need: nat): (r: nat)
    requires 0 < capacity && used <= capacity
    ensures need <= r
    decreases used + need - capacity
  {
    if need <= capacity - used then capacity - used else Room(2 * capacity, used, need)
  }

  // What printing `text` adds to a buffer: vsnprintf keeps the last byte of the room for its NUL, but
  // text as long as the room is taken to have fitted.
  function Printed(capacity: nat, used: nat, text: seq<byte>): (r: seq<byte>)
    requires 0 < capacity && used <= capacity
  {
    if text != [] && Room(capacity, used, |text|) == |text| then text[..|text| - 1] + [0] else text
  }

  lemma {:induction false} PrintedFaithfully(capacity: nat, used: nat, text: seq<byte>)
    requires 0 < capacity && used <= capacity
    ensures Printed(capacity, used, text) == text
      <==> text == [] || Room(capacity, used, |text|) != |text| || text[|text| - 1] == 0
  {
    if text != [] {
      assert text == text[..|text| - 1] + [text[|text| - 1]];
      assert (text[..|text| - 1] + [0 as byte])[|text| - 1] == 0;
    }
  }

  // What memmove(buf + to, buf + from, len) does, going to the left.
  function MovedLeft(buf: seq<byte>, to: nat, from: nat, len: nat): (r: seq<byte>)
    requires to <= from && from + len <= |buf|
    ensures |r| == |buf|
  {
    buf[..to] + buf[from..from + len] + buf[to + len..]
  }

  // Three bytes printed into room for three: the last one is lost.
  lemma {:induction false} PrintedTruncated()
    ensures Printed(3, 0, [65, 66, 67]) == [65, 66, 0]
  {
    assert Room(3, 0, 3) == 3;
  }

  class Growbuf {
    var buf: array<byte>     // from start to limit
    var end: nat
    var frozen: bool

    // growbuf_init
    constructor (capacity: nat)
      requires capacity > 0
      ensures Valid() && Contents() == [] && !frozen && buf.Length == capacity && fresh(buf)
    {
      buf := new byte[capacity];
      end, frozen := 0, false;
    }

    ghost predicate Valid()
      reads this
    {
      end <= buf.Length && 0 < buf.Length
    }

    ghost function Contents(): seq<byte>
      requires Valid()
      reads this, buf
    {
      buf[..end]
    }

    // growbuf_reset
    method Reset()
      requires Valid()
      modifies this`end, this`frozen
      ensures Valid() && Contents() == [] && !frozen
    {
      end, frozen := 0, false;
    }

    // growbuf_shift: memmove copes with the overlap.
    method Shift(pos: nat)
      requires Valid() && !frozen && pos <= end
      modifies this`end, buf
      ensures Valid() && Contents() == old(Contents())[pos..]
    {
      ghost var was := Contents();
      assert was[0..] == was;
      if pos == 0 { return; }
      forall i | 0 <= i < end - pos { buf[i] := buf[pos + i]; }
      end := end - pos;
      assert forall i :: 0 <= i < end ==> buf[..end][i] == was[pos..][i];
    }

    // The reallocation that growbuf_grow and double_capacity end with.
    method Reallocate(capacity: nat)
      requires Valid() && buf.Length <= capacity
      modifies this`buf
      ensures Valid() && Contents() == old(Contents()) && fresh(buf) && buf.Length == capacity
    {
      var bigger := new byte[capacity];
      forall i | 0 <= i < buf.Length { bigger[i] := buf[i]; }
      buf := bigger;
    }

    // growbuf_grow ends, having doubled the capacity at least once, and no further than it must.
    method Grow(need: nat)
      requires Valid()
      modifies this`buf
      ensures Valid() && Contents() == old(Contents()) && fresh(buf)
      ensures end + need <= buf.Length
      ensures buf.Length == 2 * old(buf.Length) || buf.Length < 2 * (end + need)
    {
      var capacity := buf.Length * 2;
      while capacity - end < need
        invariant buf.Length * 2 <= capacity
        invariant capacity == 2 * buf.Length || capacity < 2 * (end + need)
        decreases end + need - capacity
      {
        capacity := capacity * 2;
      }
      Reallocate(capacity);
    }

    // growbuf_reserve: the capacity stays below twice what has been asked for.
    method Reserve(need: nat)
      requires Valid() && !frozen
      modifies this`buf
      ensures Valid() && Contents() == old(Contents()) && (buf == old(buf) || fresh(buf))
      ensures end + need <= buf.Length
      ensures buf == old(buf) || buf.Length < 2 * (end + need)
    {
      if need > buf.Length - end {
        Grow(need);
      }
    }

    // growbuf_append
    method Append(data: seq<byte>)
      requires Valid() && !frozen
      modifies this`buf, this`end, buf
      ensures Valid() && Contents() == old(Contents()) + data && (buf == old(buf) || fresh(buf))
    {
      Reserve(|data|);
      forall i | 0 <= i < |data| { buf[end + i] := data[i]; }
      end := end + |data|;
      assert buf[..end] == old(Contents()) + data;
    }

    // stream_read puts data in the room reserved, and growbuf_advance takes it in.
    method Receive(data: seq<byte>)
      requires Valid() && end + |data| <= buf.Length
      modifies this`end, buf
      ensures Valid() && Contents() == old(Contents()) + data
    {
      forall i | 0 <= i < |data| { buf[end + i] := data[i]; }
      end := end + |data|;
      assert buf[..end] == old(Contents()) + data;
    }

    // memmove, to the left, within the buffer
    method Memmove(to: nat, from: nat, len: nat)
      requires Valid() && to <= from && from + len <= end
      modifies buf
      ensures Contents() == MovedLeft(old(Contents()), to, from, len)
    {
      forall i | 0 <= i < len { buf[to + i] := buf[from + i]; }
    }

    // growbuf_vprintf, for a format and arguments that come to `text`
    method Printf(text: seq<byte>)
      requires Valid() && !frozen
      modifies this`buf, this`end, buf
      ensures Valid() && (buf == old(buf) || fresh(buf))
      ensures Contents() == old(Contents()) + Printed(old(buf.Length), old(end), text)
    {
      while true
        invariant Valid() && Contents() == old(Contents()) && end == old(end) && (buf == old(buf) || fresh(buf))
        invariant Room(buf.Length, end, |text|) == Room(old(buf.Length), end, |text|)
        decreases end + |text| - buf.Length
      {
        var space := buf.Length - end;
        Vsnprintf(space, text);
        if |text| <= space {
          end := end + |text|;
          assert Contents() == old(Contents()) + Printed(old(buf.Length), old(end), text);
          break;
        }
        Reallocate(buf.Length * 2);
      }
    }

    // vsnprintf (section 7.19.6.12 of ISO C99), writing at `end`
    method Vsnprintf(space: nat, text: seq<byte>)
      requires Valid() && end + space == buf.Length
      modifies buf
      ensures Contents() == old(Contents())
      ensures |text| < space ==> buf[end..end + |text|] == text
      ensures |text| >= space > 0 ==> buf[end..] == text[..space - 1] + [0]
    {
      if space == 0 { return; }
      var n := if |text| < space then |text| else space - 1;
      forall i | 0 <= i < n { buf[end + i] := text[i]; }
      buf[end + n] := 0;
    }

    // growbuf_to_bytes
    method ToBytes() returns (s: Slice)
      requires Valid()
      modifies this`frozen
      ensures Valid() && frozen && s == Slice(buf, 0, end)
    {
      frozen := true;
      s := Slice(buf, 0, end);
    }
  }
}
