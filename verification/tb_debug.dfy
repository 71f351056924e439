/**
 * The read/write test file of fs/bcachefs/tb_debug.c. Each open file has a `tb_state`: the bytes
 * last written (`data`, `len` of them) and how far reads have got (`pos`). A write replaces the
 * data and rewinds; a read hands out at most what is left. The file offset `*ppos` is not used.
 */
module TbDebug {
  import opened Types

  /** The largest write `tb_write` accepts. */
  const MAX_WRITE: nat := 4096

  /** `n` zero bytes, what `kzalloc` leaves where nothing was copied. */
  function Zeros(n: nat): (r: Bytes)
    ensures |r| == n && forall i :: 0 <= i < n ==> r[i] == 0
  {
    seq(n, _ => 0)
  }

  /** `struct tb_state`; a NULL `data` is the empty sequence. */
  class TbState {
    var data: Bytes
    var pos: nat
    var len: nat

    ghost predicate Valid()
      reads this
    {
      len == |data| && pos <= len
    }

    /** The bytes reads have not handed out yet. */
    function Unread(): Bytes
      reads this
      requires Valid()
    {
      data[pos..]
    }

    /** The zeroed state `kzalloc` gives. */
    constructor ()
      ensures Valid() && data == [] && pos == 0 && len == 0
    {
      data := [];
      pos := 0;
      len := 0;
    }

    /**
     * `tb_read` as written: `bytes = min(size, len - pos)` bytes are copied from the START of
     * `data`, and the count of bytes `copy_to_user` could not copy (`notCopied`, at most `bytes`)
     * is tested with `n < 0`, which an unsigned value never satisfies. So it always returns
     * `bytes` and moves `pos` by `bytes`, whatever reached the user.
     */
    method ReadAsWritten(size: nat, notCopied: nat) returns (ret: int, delivered: Bytes)
      requires Valid()
      modifies this`pos
      ensures Valid()
      ensures ret == Min(size, old(len) - old(pos)) && pos == old(pos) + ret
      ensures delivered == data[..ret - Min(notCopied, ret)]
    {
      var amt := len - pos;
      var bytes := Min(size, amt);
      var n := Min(notCopied, bytes);
      delivered := data[..bytes - n];
      pos := pos + bytes;
      ret := bytes;
    }

    /**
     * `tb_read` as evidently intended: the bytes copied start at `data + pos`, and a copy that
     * leaves anything uncopied is -EFAULT with `pos` unchanged. A read delivers exactly the next
     * `min(size, len - pos)` unread bytes, which are never handed out again.
     */
    method Read(size: nat, notCopied: nat) returns (ret: int, delivered: Bytes)
      requires Valid()
      modifies this`pos
      ensures Valid()
      ensures Min(notCopied, Min(size, old(len) - old(pos))) > 0 ==> ret == -EFAULT && pos == old(pos)
      ensures Min(notCopied, Min(size, old(len) - old(pos))) == 0 ==>
        && ret == Min(size, old(len) - old(pos)) == |delivered|
        && delivered + Unread() == old(Unread())
      ensures old(pos) == old(len) ==> ret == 0 && delivered == []
    {
      var amt := len - pos;
      var bytes := Min(size, amt);
      var n := Min(notCopied, bytes);
      delivered := data[pos..pos + bytes - n];
      if n > 0 {
        return -EFAULT, delivered;
      }
      pos := pos + bytes;
      ret := bytes;
    }

    /**
     * `tb_write` as written: over 4096 bytes is -ERANGE and a failed allocation -ENOMEM, both
     * leaving the state alone. Otherwise the new data is what `copy_from_user` copied followed by
     * zeros for the `notCopied` bytes it could not, yet the write reports all `size` bytes: the
     * `n < 0` test on the unsigned count never holds.
     */
    method WriteAsWritten(user: Bytes, allocOk: bool, notCopied: nat) returns (ret: int)
      requires Valid()
      modifies this
      ensures Valid()
      ensures |user| > MAX_WRITE ==> ret == -ERANGE && data == old(data) && pos == old(pos)
      ensures |user| <= MAX_WRITE && !allocOk ==> ret == -ENOMEM && data == old(data) && pos == old(pos)
      ensures |user| <= MAX_WRITE && allocOk ==>
        && ret == |user| && pos == 0 && len == |user|
        && data == user[..|user| - Min(notCopied, |user|)] + Zeros(Min(notCopied, |user|))
    {
      var size := |user|;
      if size > MAX_WRITE {
        return -ERANGE;
      }
      if !allocOk {
        return -ENOMEM;
      }
      var n := Min(notCopied, size);
      var buf := user[..size - n] + Zeros(n);
      data := buf;
      len := size;
      pos := 0;
      ret := size;
    }

    /**
     * `tb_write` as evidently intended: as written, except that a copy that leaves anything
     * uncopied is -EFAULT and changes nothing. A successful write holds exactly the user's bytes,
     * all of them unread.
     */
    method Write(user: Bytes, allocOk: bool, notCopied: nat) returns (ret: int)
      requires Valid()
      modifies this
      ensures Valid()
      ensures ret < 0 ==> data == old(data) && pos == old(pos)
      ensures |user| > MAX_WRITE ==> ret == -ERANGE
      ensures |user| <= MAX_WRITE && !allocOk ==> ret == -ENOMEM
      ensures |user| <= MAX_WRITE && allocOk && Min(notCopied, |user|) > 0 ==> ret == -EFAULT
      ensures |user| <= MAX_WRITE && allocOk && Min(notCopied, |user|) == 0 ==>
        ret == |user| && Unread() == user
    {
      var size := |user|;
      if size > MAX_WRITE {
        return -ERANGE;
      }
      if !allocOk {
        return -ENOMEM;
      }
      var n := Min(notCopied, size);
      if n > 0 {
        return -EFAULT;
      }
      data := user;
      len := size;
      pos := 0;
      ret := size;
    }
  }

  /** `tb_open`: the zeroed state, or -ENOMEM when it cannot be allocated. */
  method TbOpen(allocOk: bool) returns (ret: int, s: TbState?)
    ensures allocOk ==> ret == 0 && s != null && fresh(s) && s.Valid() && s.Unread() == [] && s.len == 0
    ensures !allocOk ==> ret == -ENOMEM && s == null
  {
    if !allocOk {
      return -ENOMEM, null;
    }
    s := new TbState();
    ret := 0;
  }

  /** Two reads of two bytes, as written, both hand out the first two bytes written. */
  method RereadAsWritten() returns (first: Bytes, second: Bytes)
    ensures first == [1, 2] && second == [1, 2]
  {
    var s := new TbState();
    var ret := s.WriteAsWritten([1, 2, 3, 4], true, 0);
    ret, first := s.ReadAsWritten(2, 0);
    ret, second := s.ReadAsWritten(2, 0);
  }

  /** The same two reads with the copy taken from `data + pos` hand out the whole data in order. */
  method Reread() returns (first: Bytes, second: Bytes)
    ensures first == [1, 2] && second == [3, 4]
  {
    var s := new TbState();
    var ret := s.Write([1, 2, 3, 4], true, 0);
    ret, first := s.Read(2, 0);
    assert first == (first + s.Unread())[..2];
    ret, second := s.Read(2, 0);
    assert second == (second + s.Unread())[..2];
  }

  /** A read whose copy fails completely, as written, still reports both bytes and moves on. */
  method FailedCopyAsWritten() returns (ret: int, delivered: Bytes, pos: nat)
    ensures ret == 2 && delivered == [] && pos == 2
  {
    var s := new TbState();
    var w := s.WriteAsWritten([1, 2, 3, 4], true, 0);
    ret, delivered := s.ReadAsWritten(2, 2);
    pos := s.pos;
  }

  /** A write whose copy stops after two of four bytes, as written, reports four and stores zeros. */
  method PartialWriteAsWritten() returns (ret: int, data: Bytes)
    ensures ret == 4 && data == [1, 2, 0, 0]
  {
    var s := new TbState();
    ret := s.WriteAsWritten([1, 2, 3, 4], true, 2);
    data := s.data;
  }
}
