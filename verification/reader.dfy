/**
 * The buffered-reader protocol of rust/kernel/reader.rs. `BufRead` is a contract between a
 * producer and its consumer; here it is stated over two views every reader gives of itself:
 *   - `unread`: the bytes it has buffered and not yet seen consumed (what `fill_buf` returns);
 *   - `stream`: every byte it will still deliver, `unread` first.
 * Each reader in this model proves that its `fill_buf` and `consume` meet these predicates.
 */
module Reader {
  import opened Types

  /** A reader's views agree: the buffered bytes are the head of the stream. */
  ghost predicate Coherent(unread: Bytes, stream: Bytes) {
    unread <= stream
  }

  /**
   * `BufRead::fill_buf`: buffered bytes are returned as they are; with none buffered the reader
   * fetches more, and an empty result means the stream is over. An error loses nothing.
   */
  ghost predicate FillBufSpec(unread: Bytes, stream: Bytes, r: Result<Bytes>, unread': Bytes, stream': Bytes) {
    && Coherent(unread', stream')
    && stream' == stream
    && (unread != [] ==> r == Ok(unread) && unread' == unread)
    && (r.Ok? ==> r.value == unread' && (r.value == [] <==> stream' == []))
  }

  /** `BufRead::consume`: the `amt` bytes handed out are dropped from the stream, never returned again. */
  ghost predicate ConsumeSpec(unread: Bytes, stream: Bytes, amt: nat, unread': Bytes, stream': Bytes) {
    Coherent(unread, stream) && amt <= |unread| ==> Coherent(unread', stream') && unread' == unread[amt..] && stream' == stream[amt..]
  }

  /**
   * A `read` layered on `BufRead` (fill, copy a prefix of at most `len` bytes, consume what was
   * copied) delivers exactly the next bytes of the stream, and what it leaves is the rest.
   */
  lemma ReadOnBufRead(unread: Bytes, stream: Bytes, r: Result<Bytes>, unread1: Bytes, stream1: Bytes,
                      len: nat, unread2: Bytes, stream2: Bytes)
    requires FillBufSpec(unread, stream, r, unread1, stream1)
    requires r.Ok?
    requires ConsumeSpec(unread1, stream1, Min(len, |r.value|), unread2, stream2)
    ensures r.value[..Min(len, |r.value|)] + stream2 == stream
    ensures len > 0 && stream != [] ==> Min(len, |r.value|) > 0
  {
    var n := Min(len, |r.value|);
    calc {
      r.value[..n] + stream2;
      stream1[..n] + stream1[n..];
      stream;
    }
  }

  /** Once `fill_buf` has reported the end of the stream, every later `fill_buf` reports it again. */
  lemma EndOfStreamIsFinal(unread: Bytes, stream: Bytes, r: Result<Bytes>, unread': Bytes, stream': Bytes)
    requires Coherent(unread, stream) && stream == []
    requires FillBufSpec(unread, stream, r, unread', stream')
    ensures r.Ok? ==> r.value == []
    ensures stream' == [] && unread' == []
  {
  }
}
