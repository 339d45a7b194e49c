/** A sliding window over a byte array: data is appended at the end and consumed from the start. */
module FifoBuffer {
  import opened Basics

  class FifoBuffer {
    var buffer: array<Byte>
    var start: nat
    var end: nat

    ghost predicate Valid()
      reads this
    {
      start <= end <= buffer.Length && buffer.Length > 0
    }

    /** The bytes in the buffer. */
    ghost function Contents(): seq<Byte>
      reads this, buffer
      requires Valid()
    {
      buffer[start..end]
    }

    constructor (size: nat)
      requires size > 0
      ensures Valid() && Contents() == [] && buffer.Length == size && fresh(buffer)
    {
      buffer := new Byte[size];
      start, end := 0, 0;
    }

    /** `fifo_buffer_move()`: moves the data to the beginning of the array. */
    method Move()
      requires Valid()
      modifies this`start, this`end, buffer
      ensures Valid() && Contents() == old(Contents()) && start == 0
      ensures end == old(end - start)
    {
      if start == 0 {
        return;
      }
      ghost var data := buffer[start..end];
      for i := 0 to end - start
        modifies buffer
        invariant buffer[..i] == data[..i]
        invariant buffer[start + i..end] == data[i..]
      {
        assert buffer[start + i] == data[i] by { assert buffer[start + i] == buffer[start + i..end][0]; }
        buffer[i] := buffer[start + i];
      }
      end := end - start;
      start := 0;
    }

    /** The part of `fifo_buffer_realloc()` that keeps the buffer. */
    method Resize(newSize: nat)
      requires Valid() && newSize > 0 && newSize >= |Contents()|
      modifies this, buffer
      ensures Valid() && Contents() == old(Contents()) && buffer.Length == newSize && fresh(buffer)
    {
      ghost var data := Contents();
      if end > newSize {
        Move();
      }
      assert buffer[start..end] == data;
      var bigger := new Byte[newSize];
      var n := if buffer.Length < newSize then buffer.Length else newSize;
      for i := 0 to n
        modifies bigger
        invariant forall j :: 0 <= j < i ==> bigger[j] == buffer[j]
        invariant buffer[start..end] == data
      {
        bigger[i] := buffer[i];
      }
      assert start <= end <= n;
      forall j | 0 <= j < end - start ensures bigger[start..end][j] == data[j] {
        assert bigger[start + j] == buffer[start + j] && buffer[start..end][j] == buffer[start + j];
      }
      assert bigger[start..end] == data;
      buffer := bigger;
    }

    /** `fifo_buffer_available()` */
    method Available() returns (n: nat)
      requires Valid()
      ensures n == |Contents()|
    {
      n := end - start;
    }

    /** `fifo_buffer_clear()` */
    method Clear()
      requires Valid()
      modifies this`start, this`end
      ensures Valid() && Contents() == []
    {
      start, end := 0, 0;
    }

    /** `fifo_buffer_read()` */
    method Read() returns (data: Option<seq<Byte>>)
      requires Valid()
      ensures data == if Contents() == [] then None else Some(Contents())
    {
      if start == end {
        return None;
      }
      return Some(buffer[start..end]);
    }

    /** `fifo_buffer_consume()` */
    method Consume(length: nat)
      requires Valid() && length <= |Contents()|
      modifies this`start
      ensures Valid() && Contents() == old(Contents())[length..]
    {
      start := start + length;
    }

    /** `fifo_buffer_write()`: how much may be appended; nothing exactly when the data fills the array. */
    method PrepareWrite() returns (room: Option<nat>)
      requires Valid()
      modifies this`start, this`end, buffer
      ensures Valid() && Contents() == old(Contents())
      ensures room.None? <==> |Contents()| == buffer.Length
      ensures room.Some? ==> room.value > 0 && end + room.value == buffer.Length
    {
      if end == buffer.Length {
        Move();
        if end == buffer.Length {
          return None;
        }
      } else if start > 0 && start == end {
        start, end := 0, 0;
      }
      return Some(buffer.Length - end);
    }

    /** `fifo_buffer_append()` of data that has been stored at the end of the window. */
    method Append(data: seq<Byte>)
      requires Valid() && end + |data| <= buffer.Length
      modifies this`end, buffer
      ensures Valid() && Contents() == old(Contents()) + data
    {
      ghost var before := buffer[start..end];
      for i := 0 to |data|
        modifies buffer
        invariant buffer[start..end] == before
        invariant buffer[end..end + i] == data[..i]
      {
        buffer[end + i] := data[i];
      }
      assert data[..|data|] == data;
      end := end + |data|;
      assert buffer[start..end] == before + data;
    }

    /** `fifo_buffer_is_full()` */
    method IsFull() returns (full: bool)
      requires Valid()
      ensures full <==> |Contents()| == buffer.Length
    {
      full := start == 0 && end == buffer.Length;
    }
  }

  /** `fifo_buffer_realloc()`, which also creates a buffer from nothing and frees it by size zero. */
  method Realloc(buffer: FifoBuffer?, newSize: nat) returns (r: FifoBuffer?)
    requires buffer != null ==> buffer.Valid() && newSize >= |buffer.Contents()|
    modifies if buffer == null then {} else {buffer, buffer.buffer}
    ensures newSize == 0 ==> r == null
    ensures newSize > 0 ==>
      && r != null && r.Valid() && r.buffer.Length == newSize && (buffer != null ==> r == buffer)
      && r.Contents() == if buffer == null then [] else old(buffer.Contents())
  {
    if buffer == null {
      if newSize > 0 {
        r := new FifoBuffer(newSize);
      } else {
        r := null;
      }
      return;
    }
    if newSize == 0 {
      return null;
    }
    buffer.Resize(newSize);
    return buffer;
  }
}
