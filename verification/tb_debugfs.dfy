/**
 * The chunked-read prototype of samples/tb_rust/tb_debugfs.rs: a session holds a countdown
 * collection and at most one rendered line; each read pulls a new item only when the line has
 * been handed out completely, and hands out as much of the line as the user asked for.
 */
module TbDebugfs {
  import opened Types

  /** "tb_rs_read: data: MyObject: " in ASCII. */
  const PREFIX: Bytes := [116, 98, 95, 114, 115, 95, 114, 101, 97, 100, 58, 32, 100, 97, 116, 97,
                          58, 32, 77, 121, 79, 98, 106, 101, 99, 116, 58, 32]

  /** The line `tb_rs_read` renders for the item `MyObject { data }`. */
  function ItemLine(data: nat): (r: Bytes)
    ensures r != [] && r[|r| - 1] == NEWLINE
  {
    PREFIX + Decimal(data) + [NEWLINE]
  }

  /** The lines of `items`, one after the other. */
  function Lines(items: seq<nat>): (r: Bytes)
    ensures r == [] <==> items == []
  {
    if items == [] then [] else ItemLine(items[0]) + Lines(items[1..])
  }

  /** The items a collection holding `n` still yields: `n - 1` down to `1`. */
  function Countdown(n: nat): (r: seq<nat>)
    ensures |r| == if n == 0 then 0 else n - 1
    ensures forall i :: 0 <= i < |r| ==> r[i] == n - 1 - i
  {
    if n <= 1 then [] else seq(n - 1, i => n - 1 - i)
  }

  /** Taking one item off a countdown leaves the countdown from one less. */
  lemma CountdownStep(n: nat)
    requires n > 1
    ensures Countdown(n) == [n - 1] + Countdown(n - 1)
  {
    assert Countdown(n)[1..] == Countdown(n - 1);
  }

  /** Bytes handed out from the front of the pending line come off the front of the stream. */
  lemma HandedOut(delivered: Bytes, pending: Bytes, before: Bytes, lines: Bytes)
    requires delivered + pending == before
    ensures delivered + (pending + lines) == before + lines
  {
  }

  /** `MyCollection`: an iterator counting `num_objects` (a `usize`) down. */
  class MyCollection {
    var numObjects: u64

    ghost function Remaining(): seq<nat>
      reads this
    {
      Countdown(numObjects)
    }

    constructor (numObjects: u64)
      ensures this.numObjects == numObjects
    {
      this.numObjects := numObjects;
    }

    /**
     * `next`, with the decrement saturating at zero: it yields exactly the items of `Remaining()`,
     * in order, and then `None` for good.
     */
    method Next() returns (item: Option<nat>)
      modifies this
      ensures numObjects == if old(numObjects) > 0 then old(numObjects) - 1 else 0
      ensures item == if numObjects > 0 then Some(numObjects) else None
      ensures item.Some? ==> old(Remaining()) == [item.value] + Remaining()
      ensures item.None? <==> old(Remaining()) == []
      ensures item.None? ==> Remaining() == []
    {
      if numObjects > 1 {
        CountdownStep(numObjects);
      }
      if numObjects > 0 {
        numObjects := numObjects - 1;
      }
      if numObjects > 0 {
        item := Some(numObjects);
      } else {
        item := None;
      }
    }

    /**
     * `next` as written: `num_objects -= 1` on a `usize` with no guard. On an exhausted collection
     * the subtraction wraps around (or panics where overflow checks are on), and the iterator
     * starts over at `usize::MAX`.
     */
    method NextAsWritten() returns (item: Option<nat>)
      modifies this
      ensures numObjects == (old(numObjects) - 1) % U64_LIMIT
      ensures item == if numObjects > 0 then Some(numObjects) else None
      ensures old(numObjects) > 0 ==> item.Some? ==> old(Remaining()) == [item.value] + Remaining()
      ensures old(numObjects) > 0 ==> (item.None? <==> old(Remaining()) == [])
      ensures old(numObjects) == 0 ==> old(Remaining()) == [] && item == Some(U64_MAX)
    {
      if numObjects > 1 {
        CountdownStep(numObjects);
      }
      numObjects := (numObjects - 1) % U64_LIMIT;
      if numObjects > 0 {
        item := Some(numObjects);
      } else {
        item := None;
      }
    }
  }

  /** The state of one open file: the line being handed out and the collection behind it. */
  class DebugfsState {
    var buf: Option<Bytes>
    const data: MyCollection

    /** The bytes of the current line not yet handed out. */
    function Pending(): Bytes
      reads this
    {
      if buf.Some? then buf.value else []
    }

    /** Everything the file still delivers: the rest of the current line, then one line per item. */
    ghost function Stream(): Bytes
      reads this, data
    {
      Pending() + Lines(data.Remaining())
    }

    constructor (numObjects: u64)
      ensures fresh(data) && buf == None && data.numObjects == numObjects
    {
      buf := None;
      data := new MyCollection(numObjects);
    }

    /**
     * `flush_buf`: copy `n = min(len, buf.len())` bytes to the user and keep the rest, or drop the
     * line once it has been copied completely. `delivered` is what reached the user's buffer.
     * A failed copy, or a failure to allocate the remainder, returns -EFAULT and keeps the line.
     */
    method FlushBuf(len: nat, writeOk: bool, allocOk: bool) returns (ret: int, delivered: Bytes)
      modifies this`buf
      ensures ret == 0 || ret == -EFAULT || 0 < ret <= len
      ensures ret == 0 <==> Min(len, |old(Pending())|) == 0
      ensures Min(len, |old(Pending())|) == 0 ==> ret == 0 && delivered == [] && buf == old(buf)
      ensures Min(len, |old(Pending())|) > 0 && !writeOk ==> ret == -EFAULT && delivered == [] && buf == old(buf)
      ensures ret == -EFAULT ==> buf == old(buf)
      ensures ret == -EFAULT && writeOk ==> !allocOk && delivered == old(Pending())[..Min(len, |old(Pending())|)]
      ensures Min(len, |old(Pending())|) > 0 && len < |old(Pending())| && !allocOk ==> ret == -EFAULT
      ensures Min(len, |old(Pending())|) > 0 && writeOk && (len >= |old(Pending())| || allocOk) ==>
        ret == Min(len, |old(Pending())|) > 0
      ensures ret > 0 ==>
        && ret == |delivered|
        && delivered + Pending() == old(Pending())
        && (buf == None <==> Pending() == [])
    {
      delivered := [];
      if buf.Some? {
        var b := buf.value;
        var n := Min(len, |b|);
        if n > 0 {
          if !writeOk {
            return -EFAULT, [];
          }
          delivered := b[..n];
          var newBuf := None;
          if n < |b| {
            if !allocOk {
              return -EFAULT, delivered;
            }
            newBuf := Some(b[n..]);
          }
          buf := newBuf;
          return n, delivered;
        }
      }
      ret := 0;
    }

    /**
     * The refill step of `tb_rs_read`: when the line is gone or empty, take the next item and
     * render it. `ready` says the flush may go ahead; otherwise `ret` is what the read returns:
     * 0 at the end of the collection, -EFAULT when the line cannot be made (`!fmtOk`: formatting
     * or boxing it failed), which loses the item.
     */
    method Refill(fmtOk: bool) returns (ready: bool, ret: int)
      modifies this, data
      ensures old(Pending()) != [] ==> ready && buf == old(buf) && data.numObjects == old(data.numObjects)
      ensures ready ==> Pending() != [] && Stream() == old(Stream())
      ensures !ready ==> ret == 0 || ret == -EFAULT
      ensures !ready && ret == 0 ==> old(Stream()) == [] && Stream() == []
      ensures old(Stream()) == [] ==> !ready && ret == 0
      ensures old(Pending()) == [] && old(data.Remaining()) != [] && !fmtOk ==> !ready && ret == -EFAULT
      ensures old(Pending()) == [] && old(data.Remaining()) != [] && fmtOk ==>
        ready && buf == Some(ItemLine(old(data.Remaining())[0]))
      ensures !ready && ret == -EFAULT ==>
        && !fmtOk && old(Pending()) == [] && Pending() == [] && old(data.Remaining()) != []
        && data.Remaining() == old(data.Remaining())[1..]
    {
      ready, ret := true, 0;
      if buf.None? || |buf.value| == 0 {
        var item := data.Next();
        if item.None? {
          return false, 0;
        }
        assert Lines(old(data.Remaining())) == ItemLine(item.value) + Lines(data.Remaining());
        assert data.Remaining() == old(data.Remaining())[1..];
        if !fmtOk {
          return false, -EFAULT;
        }
        buf := Some(ItemLine(item.value));
      }
    }

    /**
     * `tb_rs_read`: refill from the collection only when the line is gone or empty, then flush.
     * A positive result is the number of bytes delivered, which are exactly the next bytes of the
     * stream, and the file offset moves by that much. A failure to render the line loses the item.
     */
    method TbRsRead(len: nat, off: nat, fmtOk: bool, writeOk: bool, allocOk: bool)
      returns (ret: int, newOff: nat, delivered: Bytes)
      modifies this, data
      ensures ret == 0 || ret == -EFAULT || 0 < ret <= len
      ensures ret > 0 ==> |delivered| == ret && delivered + Stream() == old(Stream()) && newOff == off + ret
      ensures ret <= 0 ==> newOff == off
      ensures ret == 0 ==> Stream() == old(Stream())
      ensures ret == 0 && len > 0 ==> old(Stream()) == []
      ensures ret == -EFAULT ==>
        || Stream() == old(Stream())
        || (!fmtOk && old(Pending()) == [] && Pending() == [] && old(data.Remaining()) != []
            && data.Remaining() == old(data.Remaining())[1..])
      ensures old(Pending()) != [] ==> data.numObjects == old(data.numObjects)
      ensures old(Stream()) == [] ==> ret == 0
      ensures fmtOk && writeOk && allocOk && old(Pending()) != [] ==> ret == Min(len, |old(Pending())|)
      ensures fmtOk && writeOk && allocOk && old(Pending()) == [] && old(data.Remaining()) != [] ==>
        ret == Min(len, |ItemLine(old(data.Remaining())[0])|)
    {
      newOff := off;
      var ready;
      ready, ret := Refill(fmtOk);
      if !ready {
        return ret, newOff, [];
      }
      ghost var before := Pending();
      ghost var lines := Lines(data.Remaining());
      ret, delivered := FlushBuf(len, writeOk, allocOk);
      if ret > 0 {
        newOff := off + ret;
        HandedOut(delivered, Pending(), before, lines);
      }
    }
    /**
     * The refill step of `tb_rs_read` as written, over the unguarded `next`: on a line that is gone
     * or empty, `num_objects` drops by one modulo 2^64. A collection holding 1 ends the file, but
     * one already at 0 wraps to `usize::MAX` and the file starts producing lines again.
     */
    method RefillAsWritten(fmtOk: bool) returns (ready: bool, ret: int)
      modifies this, data
      ensures old(Pending()) != [] ==> ready && buf == old(buf) && data.numObjects == old(data.numObjects)
      ensures old(Pending()) == [] ==> data.numObjects == (old(data.numObjects) - 1) % U64_LIMIT
      ensures old(Pending()) == [] && old(data.numObjects) == 1 ==> !ready && ret == 0
      ensures !ready ==> buf == old(buf)
      ensures old(Pending()) == [] && old(data.numObjects) != 1 && !fmtOk ==> !ready && ret == -EFAULT
      ensures old(Pending()) == [] && old(data.numObjects) != 1 && fmtOk ==>
        ready && buf == Some(ItemLine(data.numObjects))
    {
      ready, ret := true, 0;
      if buf.None? || |buf.value| == 0 {
        var item := data.NextAsWritten();
        if item.None? {
          return false, 0;
        }
        if !fmtOk {
          return false, -EFAULT;
        }
        buf := Some(ItemLine(item.value));
      }
    }

    /**
     * `tb_rs_read` as written: the read that follows the end of the file makes `next` wrap, so
     * instead of returning 0 again it renders the item `usize::MAX` and hands out its line.
     */
    method TbRsReadAsWritten(len: nat, off: nat, fmtOk: bool, writeOk: bool, allocOk: bool)
      returns (ret: int, newOff: nat, delivered: Bytes)
      modifies this, data
      ensures ret == 0 || ret == -EFAULT || 0 < ret <= len
      ensures ret > 0 ==> |delivered| == ret && newOff == off + ret
      ensures ret <= 0 ==> newOff == off
      ensures old(Pending()) == [] && old(data.numObjects) == 1 ==> ret == 0 && data.numObjects == 0 && buf == old(buf)
      ensures old(Pending()) == [] && old(data.numObjects) == 0 && fmtOk && writeOk && allocOk ==>
        ret == Min(len, |ItemLine(U64_MAX)|) && delivered == ItemLine(U64_MAX)[..ret]
    {
      newOff := off;
      var ready;
      ready, ret := RefillAsWritten(fmtOk);
      if !ready {
        return ret, newOff, [];
      }
      ghost var line := Pending();
      ret, delivered := FlushBuf(len, writeOk, allocOk);
      if ret > 0 {
        newOff := off + ret;
        assert delivered == line[..ret];
      }
    }
  }

  /** `tb_rs_open`: a fresh session over a collection of seven, or null when allocation fails. */
  method TbRsOpen(allocOk: bool) returns (s: DebugfsState?)
    ensures !allocOk ==> s == null
    ensures allocOk ==> s != null && fresh(s) && fresh(s.data) && s.buf == None
    ensures allocOk ==> s.data.numObjects == 7 && s.data.Remaining() == [6, 5, 4, 3, 2, 1]
    ensures allocOk ==> s.Stream() == Lines([6, 5, 4, 3, 2, 1])
  {
    if !allocOk {
      return null;
    }
    s := new DebugfsState(7);
  }

  /**
   * Reading on at the end of the file, as written, on a session whose collection has one object
   * left (where every session ends up once its items are read): the first read returns 0, and
   * the next one wraps the collection and hands out the line of `usize::MAX`.
   */
  method ReadAfterEndAsWritten() returns (first: int, second: int)
    ensures first == 0 && second == |ItemLine(U64_MAX)|
  {
    var s := new DebugfsState(1);
    var off, delivered;
    first, off, delivered := s.TbRsReadAsWritten(|ItemLine(U64_MAX)|, 0, true, true, true);
    second, off, delivered := s.TbRsReadAsWritten(|ItemLine(U64_MAX)|, off, true, true, true);
  }

  /** The same two reads with the saturating `next`: the file stays at its end. */
  method ReadAfterEnd() returns (first: int, second: int)
    ensures first == 0 && second == 0
  {
    var s := new DebugfsState(1);
    var off, delivered;
    first, off, delivered := s.TbRsRead(|ItemLine(U64_MAX)|, 0, true, true, true);
    second, off, delivered := s.TbRsRead(|ItemLine(U64_MAX)|, off, true, true, true);
  }
}
