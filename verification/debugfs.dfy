/**
 * The display-item file of samples/tb_rust/debugfs.rs: one open file renders its item once, as
 * "tb:debugfs:read: <item>\n", and hands the line out in chunks; an empty remainder is the end.
 * The session state lives in a heap box that `private_data` points to; `live` says whether that
 * box is still allocated.
 */
module DebugfsDisplay {
  import opened Types

  /** "tb:debugfs:read: " in ASCII. */
  const PREFIX: Bytes := [116, 98, 58, 100, 101, 98, 117, 103, 102, 115, 58, 114, 101, 97, 100, 58, 32]

  /** The line rendered for an item whose `Display` text is `item`. */
  function ReadLine(item: Bytes): (r: Bytes)
    ensures |r| == |PREFIX| + |item| + 1 && r[|r| - 1] == NEWLINE
  {
    PREFIX + item + [NEWLINE]
  }

  /** `DebugfsState`: the line being handed out (`None` until the first read) and the item. */
  class DebugfsState {
    var buf: Option<Bytes>
    /** The `Display` text of the item the file shows; rendering is opaque here. */
    const item: Bytes
    /** The box behind `private_data` has not been freed. */
    var live: bool

    /** Everything the file still delivers: the whole line before the first read, then the rest of it. */
    function Stream(): Bytes
      reads this
    {
      if buf.Some? then buf.value else ReadLine(item)
    }

    constructor (item: Bytes)
      ensures this.item == item && buf == None && live
      ensures Stream() == ReadLine(item)
    {
      this.item := item;
      buf := None;
      live := true;
    }

    /**
     * `flush_buf`: copy `n = min(len, buf.len())` bytes to the user and keep the rest as the new
     * line, possibly empty; the line never goes back to `None`. `delivered` is what reached the
     * user's buffer. A failed copy, or a failure to allocate the remainder, returns -EFAULT and
     * keeps the line.
     */
    method FlushBuf(len: nat, writeOk: bool, allocOk: bool) returns (ret: int, delivered: Bytes)
      modifies this`buf
      ensures ret == 0 || ret == -EFAULT || 0 < ret <= len
      ensures ret == 0 <==> old(buf).None? || Min(len, |old(buf).value|) == 0
      ensures ret <= 0 ==> buf == old(buf)
      ensures ret == 0 ==> delivered == []
      ensures ret == -EFAULT ==> delivered == (if writeOk then old(buf).value[..Min(len, |old(buf).value|)] else [])
      ensures ret == -EFAULT ==> !writeOk || !allocOk
      ensures old(buf).Some? && Min(len, |old(buf).value|) > 0 && (!writeOk || !allocOk) ==> ret == -EFAULT
      ensures ret > 0 ==>
        && old(buf).Some? && buf.Some?
        && ret == |delivered| == Min(len, |old(buf).value|)
        && delivered + buf.value == old(buf).value
      ensures old(buf).Some? ==> buf.Some?
    {
      delivered := [];
      if buf.Some? {
        var b := buf.value;
        var n := Min(len, |b|);
        if n > 0 {
          if !writeOk {
            return -EFAULT, [];
          }
          delivered := b[..n];
          if !allocOk {
            return -EFAULT, delivered;
          }
          buf := Some(b[n..]);
          return n, delivered;
        }
      }
      ret := 0;
    }

    /**
     * `debugfs_read`, with the state kept alive on every path. An empty line is the end of the
     * file, and every later read returns 0 again. The line is rendered on the first read only.
     * A positive result is the number of bytes delivered, which are exactly the next bytes of the
     * stream, and the file offset moves by that much; on -EFAULT nothing of the stream is lost.
     */
    method Read(len: nat, off: nat, fmtOk: bool, writeOk: bool, allocOk: bool)
      returns (ret: int, newOff: nat, delivered: Bytes)
      requires live
      modifies this`buf
      ensures live
      ensures old(buf) == Some([]) ==> ret == 0 && buf == Some([])
      ensures fmtOk && writeOk && allocOk ==> ret == Min(len, |old(Stream())|)
      ensures old(buf).Some? ==> buf.Some?
      ensures ret == 0 || ret == -EFAULT || 0 < ret <= len
      ensures ret > 0 ==> |delivered| == ret && delivered + Stream() == old(Stream()) && newOff == off + ret
      ensures ret <= 0 ==> newOff == off && Stream() == old(Stream())
      ensures ret == 0 && len > 0 ==> old(Stream()) == []
    {
      newOff := off;
      if buf.Some? && |buf.value| == 0 {
        return 0, newOff, [];
      }
      if buf.None? {
        if !fmtOk {
          return -EFAULT, newOff, [];
        }
        buf := Some(ReadLine(item));
      }
      ret, delivered := FlushBuf(len, writeOk, allocOk);
      if ret > 0 {
        newOff := off + ret;
      }
    }

    /**
     * `debugfs_read` as written: the state is taken back with `Box::from_raw`, and the early
     * returns at the end of the file and when the line cannot be made (`!fmtOk`: formatting or
     * boxing it failed) drop that box, freeing the state
     * while `private_data` still points to it. Only the flush path gives the box back.
     */
    method ReadAsWritten(len: nat, off: nat, fmtOk: bool, writeOk: bool, allocOk: bool)
      returns (ret: int, newOff: nat, delivered: Bytes)
      requires live
      modifies this
      ensures !live <==> old(buf) == Some([]) || (old(buf).None? && !fmtOk)
      ensures old(buf) == Some([]) ==> ret == 0
      ensures fmtOk && writeOk && allocOk ==> ret == Min(len, |old(Stream())|)
      ensures old(buf).Some? ==> buf.Some?
      ensures ret == 0 || ret == -EFAULT || 0 < ret <= len
      ensures ret > 0 ==> |delivered| == ret && delivered + Stream() == old(Stream()) && newOff == off + ret
      ensures ret <= 0 ==> newOff == off
    {
      newOff := off;
      if buf.Some? && |buf.value| == 0 {
        live := false;
        return 0, newOff, [];
      }
      if buf.None? {
        if !fmtOk {
          live := false;
          return -EFAULT, newOff, [];
        }
        buf := Some(ReadLine(item));
      }
      ret, delivered := FlushBuf(len, writeOk, allocOk);
      if ret > 0 {
        newOff := off + ret;
      }
    }
  }

  /** `debugfs_open`: a fresh session with no line yet, or -EFAULT when the box cannot be allocated. */
  method DebugfsOpen(item: Bytes, allocOk: bool) returns (ret: int, s: DebugfsState?)
    ensures allocOk ==> ret == 0 && s != null && fresh(s) && s.buf == None && s.live && s.item == item
    ensures !allocOk ==> ret == -EFAULT && s == null
  {
    if !allocOk {
      return -EFAULT, null;
    }
    s := new DebugfsState(item);
    ret := 0;
  }

  /**
   * Reading a file to its end, as written: a read large enough for the whole line delivers it,
   * the next read returns 0 and frees the state, so the read after that is a use after free.
   */
  method EndOfFileAsWritten(item: Bytes) returns (first: int, second: int, live: bool)
    ensures first == |ReadLine(item)| && second == 0 && !live
  {
    var s := new DebugfsState(item);
    var off, delivered;
    first, off, delivered := s.ReadAsWritten(|ReadLine(item)|, 0, true, true, true);
    second, off, delivered := s.ReadAsWritten(|ReadLine(item)|, off, true, true, true);
    live := s.live;
  }

  /** Reading on past the end with the state kept alive: every read after the line returns 0. */
  method EndOfFile(item: Bytes) returns (first: int, second: int, third: int, live: bool)
    ensures first == |ReadLine(item)| && second == 0 && third == 0 && live
  {
    var s := new DebugfsState(item);
    var off, delivered;
    first, off, delivered := s.Read(|ReadLine(item)|, 0, true, true, true);
    second, off, delivered := s.Read(|ReadLine(item)|, off, true, true, true);
    third, off, delivered := s.Read(|ReadLine(item)|, off, true, true, true);
    live := s.live;
  }
}
