# bcachefs Rust debugfs readers, cursor and bit-fields — a Dafny model

This project models the sequential core of the Rust side of bcachefs and its debugfs test
files. It covers:

- **Key positions** (`struct bpos`): the triple (inode, offset, snapshot), its constructors and
  constants, and the lexicographic unsigned ordering behind `Ord`, `PartialEq` and `PartialOrd`.
- **The B-tree cursor** (`BtreeIter`): an abstract cursor over the keys of one B-tree, which are
  held in ascending position order. A peek finds the first key at or after the cursor. `advance`
  moves the cursor just past that key (`bpos_successor`). The engine's raw key pointer is decoded
  through the error-pointer rule.
- **Error pointers** (`errptr_to_result_c`): the top 4095 addresses carry a negated error number.
- **Bindgen bit-fields**: the one-byte unit of `struct bkey` and the 64-bit unit of
  `struct bch_extent_ptr`, with their getters, setters and `new_bitfield_1`.
- **`Printbuf`**: `new`, `len`, `as_slice`, `reset` and `newline`, over the allocated storage
  and the write position `pos`.
- **The buffered-reader protocol** (`BufRead::fill_buf` / `consume`, `IntoBufReader`):
  - `Reader.FillBufSpec` and `Reader.ConsumeSpec` state it over two views of a reader: the bytes
    buffered and unread, and the whole stream the reader will still deliver.
  - The two producers are proved to meet it. `BchBtreeReader` renders one B-tree key per refill
    and remembers where to resume. `MyReader` hands out "hello bufreader\n" `data` times.
- **The per-filesystem debugfs registry**: a lazily allocated array with one slot per B-tree.
- **Three chunked-read prototypes**:
  - `tb_rs_read` over a counting iterator;
  - the display-item file's `debugfs_read`;
  - the C `tb_read` / `tb_write` pair over `(data, pos, len)`.

  Each hands out the next `min(len, remaining)` bytes of what it renders. The model proves that
  the bytes delivered are exactly the next bytes of the stream and are never delivered again.

Steps the model cannot see are parameters of the operations:
- Rendering: `render` for a key, `item` for a display item, and `fmtOk` for whether formatting
  succeeds.
- Whether an allocation succeeds (`allocOk`).
- Whether a user copy succeeds (`writeOk`) and how many bytes it leaves uncopied (`notCopied`).
- Whether the engine reports an error (`fault`).

Machine integers are unbounded integers with explicit ranges. Three conversions are written out:
- the 32-bit cast `amt as c_uint` in `consume`, with the `+=` wrapping around;
- the `i32` cast in error decoding;
- the `usize` wrap of `num_objects -= 1`. It is modelled as written in
  `MyCollection.NextAsWritten` and `DebugfsState.TbRsReadAsWritten`, and saturating in the
  corrected `MyCollection.Next` and `DebugfsState.TbRsRead`.

## Model

| member | source | states |
|---|---|---|
| Bpos.Spos | fs/bcachefs/btree.rs:18-24 | `spos` builds the position with exactly the three fields given |
| Bpos.Pos | fs/bcachefs/btree.rs:26-28 | `pos(i, o)` is `spos(i, o, 0)`, a position in snapshot 0 |
| Bpos.Cmp | fs/bcachefs/btree.rs:48-61 | `Less` exactly when a is lexicographically before b on (inode, offset, snapshot), `Greater` exactly when b is before a, `Equal` exactly when all three fields agree |
| Bpos.Eq | fs/bcachefs/btree.rs:34-38 | two positions are equal exactly when all three fields are equal |
| Bpos.PartialCmp | fs/bcachefs/btree.rs:42-46 | `partial_cmp` is always `Some`, with the same three cases as `cmp` |
| Bpos.CmpReflexive | fs/bcachefs/btree.rs:48-61 | every position compares `Equal` to itself |
| Bpos.CmpAntisymmetric | fs/bcachefs/btree.rs:48-61 | `cmp(a,b)` is `Less` iff `cmp(b,a)` is `Greater`, and `Equal` iff `cmp(b,a)` is `Equal` |
| Bpos.CmpTransitive | fs/bcachefs/btree.rs:48-61 | `<` and `<=` are transitive, including the mixed cases |
| Bpos.CmpTotal | fs/bcachefs/btree.rs:48-61 | any two positions are ordered one way or are equal, and `a <= b` iff not `b < a` |
| Bpos.PosMinIsLeast | fs/bcachefs/btree.rs:30 | `POS_MIN <= p` for every position, strictly unless `p` is `POS_MIN` |
| Bpos.SposMaxIsGreatest | fs/bcachefs/btree.rs:32 | `p <= SPOS_MAX` for every position, strictly unless `p` is `SPOS_MAX` |
| Bpos.PosMaxBelowSposMax | fs/bcachefs/btree.rs:31-32 | `POS_MAX < SPOS_MAX`, and they differ only in the snapshot (0 against `u32::MAX`) |
| Btree.KeysFrom | fs/bcachefs/btree.rs:120-138 | the keys a walk from a position visits are exactly the tree's keys at or after it |
| Btree.Successor | fs/bcachefs/btree.rs:162-166 | the position `advance` moves to lies strictly after every position below `SPOS_MAX`; `SPOS_MAX` stays put |
| Btree.SuccessorIsNext | fs/bcachefs/btree.rs:162-166 | below `SPOS_MAX`, the position `advance` moves to is after the old one, and no position lies strictly between them |
| Btree.KeysFromSorted | fs/bcachefs/btree.rs:120-138 | a walk over a sorted tree visits keys in ascending order |
| Btree.FirstKeyFromIsLeast | fs/bcachefs/btree.rs:120-138 | the first key a walk finds is the least key at or after the start |
| Btree.KeysFromAll | fs/bcachefs/btree.rs:120-138 | a walk from a position below every key visits the whole tree |
| Btree.KeysFromSuccessor | fs/bcachefs/btree.rs:162-170 | advancing just past the first key found drops exactly that key from the walk: nothing is skipped, nothing is visited twice |
| Btree.EnginePeek | fs/bcachefs/btree.rs:124-125 | the engine's peek returns an error-range pointer exactly when it fails; otherwise null or a key pointer, and the key pointed to is in the tree, at or after the cursor and at or before `end` |
| Btree.DecodePeek | fs/bcachefs/btree.rs:126-136 | an error-range pointer gives `Err` with the pointer's error number, a null key gives `Ok(None)`, any other pointer gives `Ok(Some(key))` |
| Btree.PeekUptoSpec | fs/bcachefs/btree.rs:120-138 | a peek fails exactly when the engine does, passing its error on; it gives `Ok(None)` exactly when no key lies in `[pos, end]`; a key returned is in the tree, in range and the least one at or after `pos` |
| Btree.BtreeIter.constructor | fs/bcachefs/btree.rs:96-118 | a new cursor walks the given tree from the given position |
| Btree.BtreeIter.PeekUpto | fs/bcachefs/btree.rs:120-138 | the result is the decoded engine peek from the cursor's position, and a key found becomes the cursor's position |
| Btree.BtreeIter.Peek | fs/bcachefs/btree.rs:140-142 | `peek` gives what `peek_upto(SPOS_MAX)` gives, with the same cursor update |
| Btree.BtreeIter.PeekAndRestart | fs/bcachefs/btree.rs:144-160 | `peek_and_restart` gives the decoded peek to `SPOS_MAX`, with the same cursor update |
| Btree.BtreeIter.Advance | fs/bcachefs/btree.rs:162-166 | the cursor moves to the successor of its position |
| Btree.PeekAdvancePeekIncreases | fs/bcachefs/btree.rs:120-170 | a peek, an advance and another peek return strictly increasing positions |
| ErrCode.AsI32 | fs/bcachefs/errcode.rs:11-12 | `x as i32` is in the `i32` range and congruent to `x` modulo 2^32 |
| ErrCode.ErrptrToResult | fs/bcachefs/errcode.rs:7-17 | `Ok` exactly for addresses up to `(usize)-4096`, with the address unchanged; otherwise `Err(2^64 - addr)`, which lies in 1..4095 |
| ErrCode.ErrorAddressTruncation | fs/bcachefs/errcode.rs:11-12 | for an error address, the `i32` truncation is exactly `addr - 2^64` |
| ErrCode.NullIsOk | fs/bcachefs/errcode.rs:7-17 | the null address decodes to `Ok(0)` |
| ErrCode.BoundaryIsOk | fs/bcachefs/errcode.rs:10-15 | the test is a strict `>`: `(usize)-4096` is `Ok` and the next address is `Err(4095)` |
| ErrCode.ErrorRoundTrip | fs/bcachefs/errcode.rs:9-13 | for every error number 1..4095, the address `2^64 - e` decodes to `Err(e)` |
| Bindings.Bkey.Format | fs/bcachefs/bindings/bindings_special.rs:16-18 | `format` is at most 7 bits wide |
| Bindings.Bkey.NeedsWhiteout | fs/bcachefs/bindings/bindings_special.rs:27-29 | `needs_whiteout` is one bit |
| Bindings.Bkey.SetFormat | fs/bcachefs/bindings/bindings_special.rs:20-25 | afterwards `format()` reads `val mod 128` and `needs_whiteout()` is unchanged |
| Bindings.Bkey.SetNeedsWhiteout | fs/bcachefs/bindings/bindings_special.rs:31-36 | afterwards `needs_whiteout()` reads `val mod 2` and `format()` is unchanged |
| Bindings.Bkey.NewBitfield1 | fs/bcachefs/bindings/bindings_special.rs:38-52 | the unit built reads back `format mod 128` and `needs_whiteout mod 2` |
| Bindings.BkeyLayout | fs/bcachefs/bindings/bindings_special.rs:16-36 | bits 0-6 and bit 7 are disjoint and together fill the byte |
| Bindings.PtrField.Width | fs/bcachefs/bindings/bindings_special.rs:63-139 | every field has a width of 1 to 64 bits and ends within the 64-bit unit |
| Bindings.FieldMaskValues | fs/bcachefs/bindings/bindings_special.rs:63-139 | the bits of each `bch_extent_ptr` field: type bit 0, cached bit 1, unused bit 2, unwritten bit 3, offset bits 4-47, dev bits 48-55, gen bits 56-63 |
| Bindings.ExtentPtrLayout | fs/bcachefs/bindings/bindings_special.rs:63-139 | the seven fields are pairwise disjoint and together cover all 64 bits |
| Bindings.GetAfterSet | fs/bcachefs/bindings/bindings_special.rs:67-139 | after a field is set, it reads back the value masked to its width |
| Bindings.SetLeavesOthers | fs/bcachefs/bindings/bindings_special.rs:67-139 | setting a field leaves every other field unchanged |
| Bindings.SetFieldReads | fs/bcachefs/bindings/bindings_special.rs:67-139 | one `set` combines both: its own field reads back masked, all other fields are kept |
| Bindings.ExtentPtr.Get | fs/bcachefs/bindings/bindings_special.rs:63-139 | a field's value never exceeds its width's mask |
| Bindings.ExtentPtr.SetFieldValue | fs/bcachefs/bindings/bindings_special.rs:67-139 | the unit is updated so that only the field set changes, to the value masked |
| Bindings.ExtentPtr.Type | fs/bcachefs/bindings/bindings_special.rs:64-66 | `type_` is one bit |
| Bindings.ExtentPtr.Cached | fs/bcachefs/bindings/bindings_special.rs:75-77 | `cached` is one bit |
| Bindings.ExtentPtr.Unused | fs/bcachefs/bindings/bindings_special.rs:86-88 | `unused` is one bit |
| Bindings.ExtentPtr.Unwritten | fs/bcachefs/bindings/bindings_special.rs:97-99 | `unwritten` is one bit |
| Bindings.ExtentPtr.Offset | fs/bcachefs/bindings/bindings_special.rs:108-110 | `offset` is at most 44 bits wide |
| Bindings.ExtentPtr.Dev | fs/bcachefs/bindings/bindings_special.rs:119-121 | `dev` is at most 8 bits wide |
| Bindings.ExtentPtr.Gen | fs/bcachefs/bindings/bindings_special.rs:130-132 | `gen` is at most 8 bits wide |
| Bindings.ExtentPtr.SetType | fs/bcachefs/bindings/bindings_special.rs:68-73 | `type_` reads `val mod 2`, and every other field is unchanged |
| Bindings.ExtentPtr.SetCached | fs/bcachefs/bindings/bindings_special.rs:79-84 | `cached` reads `val mod 2`, and every other field is unchanged |
| Bindings.ExtentPtr.SetUnused | fs/bcachefs/bindings/bindings_special.rs:90-95 | `unused` reads `val mod 2`, and every other field is unchanged |
| Bindings.ExtentPtr.SetUnwritten | fs/bcachefs/bindings/bindings_special.rs:101-106 | `unwritten` reads `val mod 2`, and every other field is unchanged |
| Bindings.ExtentPtr.SetOffset | fs/bcachefs/bindings/bindings_special.rs:112-117 | `offset` reads `val mod 2^44`, and every other field is unchanged |
| Bindings.ExtentPtr.SetDev | fs/bcachefs/bindings/bindings_special.rs:123-128 | `dev` reads `val mod 256`, and every other field is unchanged |
| Bindings.ExtentPtr.SetGen | fs/bcachefs/bindings/bindings_special.rs:134-139 | `gen` reads `val mod 256`, and every other field is unchanged |
| Bindings.ExtentPtr.NewBitfield1 | fs/bcachefs/bindings/bindings_special.rs:141-180 | all seven fields of the unit built read back their arguments masked to their widths |
| Printbuf.Printbuf.constructor | fs/bcachefs/printbuf.rs:12-18 | a new printbuf is empty, length 0, marked heap-allocated, with no allocation failure |
| Printbuf.Printbuf.Len | fs/bcachefs/printbuf.rs:27-29 | `len()` is the length of `as_slice()`, i.e. `pos` |
| Printbuf.Printbuf.AsSlice | fs/bcachefs/printbuf.rs:32-35 | `as_slice()` is the first `pos` bytes of the storage |
| Printbuf.Printbuf.Reset | fs/bcachefs/printbuf.rs:40-46 | `pos` becomes 0; `allocation_failure`, `indent`, `nr_tabstops` and `cur_tabstop` are cleared; the storage is kept, so a second reset changes nothing more |
| Printbuf.Printbuf.Write | fs/bcachefs/btree_debugfs.rs:153 | the text becomes the old text followed by `s` when it fits in a `c_uint` length; otherwise the text is kept and the sticky failure flag is set |
| Printbuf.Printbuf.Newline | fs/bcachefs/printbuf.rs:49-53 | one line terminator is appended to the text |
| Reader.ReadOnBufRead | rust/kernel/reader.rs:7-21 | a `read` built from `fill_buf`, a copy of at most `len` bytes and `consume` delivers exactly the next bytes of the stream, and it makes progress whenever the stream is not over |
| Reader.EndOfStreamIsFinal | rust/kernel/reader.rs:13-21 | once the stream is over, every later `fill_buf` reports an empty slice again |
| BtreeDebugfs.BchFs.SetupBtree | fs/bcachefs/btree_debugfs.rs:33-76 | the array is allocated (all empty) only when null; a failed allocation changes nothing; otherwise exactly slot `bd.id` is written and every other slot keeps its value |
| BtreeDebugfs.BchFs.Cleanup | fs/bcachefs/btree_debugfs.rs:80-86 | the array is freed exactly when it was allocated, and the registry is otherwise unchanged; no setup follows a free |
| BtreeDebugfs.Line | fs/bcachefs/btree_debugfs.rs:141-154 | a freshly reset printbuf holds a key's text followed by a newline, never nothing |
| BtreeDebugfs.Lines | fs/bcachefs/btree_debugfs.rs:125-161 | the rendered walk is empty exactly when there are no keys left |
| BtreeDebugfs.PeekStep | fs/bcachefs/btree_debugfs.rs:144-157 | the peek from `btree_pos` succeeds; it finds nothing exactly when the walk is over; otherwise it finds the walk's first key, whose line heads the rendered walk, followed by the walk resumed just past it |
| BtreeDebugfs.BchBtreeReader.constructor | fs/bcachefs/btree_debugfs.rs:91-113 | a new reader has an empty buffer, `buf_pos = 0`, `btree_pos = POS_MIN`, and its stream is one line per key of the whole tree |
| BtreeDebugfs.BchBtreeReader.FillBuf | fs/bcachefs/btree_debugfs.rs:125-161 | meets `BufRead::fill_buf`; unread bytes are returned with nothing changed; otherwise `buf_pos` becomes 0 and the peek decides: its error is passed on, no key gives an empty slice, a key gives its line with `btree_pos` just past it |
| BtreeDebugfs.BchBtreeReader.RenderLine | fs/bcachefs/btree_debugfs.rs:153-154 | after `write_to_printbuf` and `newline` on the reset buffer, it holds exactly the key's line |
| BtreeDebugfs.BchBtreeReader.Consume | fs/bcachefs/btree_debugfs.rs:163-165 | `buf_pos` grows by the low 32 bits of `amt`, wrapping around modulo 2^32; meets `BufRead::consume`: consumed bytes leave the stream |
| SampleReader.MyReader.constructor | samples/tb_rust/my_collection.rs:34-42 | a new reader has no line, `pos = 0`, and a stream of `data` lines |
| SampleReader.MyReader.FillBuf | samples/tb_rust/my_collection.rs:46-64 | meets `BufRead::fill_buf`; a used-up line with lines left is replaced by "hello bufreader\n" with `pos = 0` and `data` one less; exactly when the allocation fails, the result is `ENOMEM` with nothing changed; otherwise the rest of the line, possibly empty, is returned; `data` never grows |
| SampleReader.MyReader.Consume | samples/tb_rust/my_collection.rs:66-68 | `pos` grows by `amt`; meets `BufRead::consume` |
| SampleReader.IntoBufReader | samples/tb_rust/my_collection.rs:16-18 | each call yields a fresh reader whose stream is `data` lines |
| Types.Decimal | samples/tb_rust/tb_debugfs.rs:16-20 | `Display` of an unsigned number is a non-empty string of ASCII digits, a single digit exactly for numbers below 10, with no leading zero |
| Types.DecimalValue | samples/tb_rust/tb_debugfs.rs:16-20 | the digits `Display` writes spell the number back |
| TbDebugfs.ItemLine | samples/tb_rust/tb_debugfs.rs:16-20 | an item's line is never empty and ends with a newline |
| TbDebugfs.Lines | samples/tb_rust/tb_debugfs.rs:77-112 | the rendered items are empty exactly when there are no items |
| TbDebugfs.Countdown | samples/tb_rust/tb_debugfs.rs:25-35 | a collection holding `n` yields `n-1` items, `n-1` down to 1 |
| TbDebugfs.CountdownStep | samples/tb_rust/tb_debugfs.rs:25-35 | taking the first item off a countdown from `n` leaves the countdown from `n-1` |
| TbDebugfs.MyCollection.Next | samples/tb_rust/tb_debugfs.rs:25-35 | with the decrement saturating, `next` yields the remaining items in order, then `None` for good |
| TbDebugfs.MyCollection.NextAsWritten | samples/tb_rust/tb_debugfs.rs:25-35 | `num_objects` drops by one modulo 2^64; while it was positive `next` yields the remaining items in order; on an exhausted collection it wraps and yields `usize::MAX` |
| TbDebugfs.MyCollection.constructor | samples/tb_rust/tb_debugfs.rs:119-121 | a collection holds the `num_objects` given |
| TbDebugfs.DebugfsState.constructor | samples/tb_rust/tb_debugfs.rs:117-122 | a new session has no line and a fresh collection of the size given |
| TbDebugfs.DebugfsState.FlushBuf | samples/tb_rust/tb_debugfs.rs:44-74 | returns 0, changing nothing, when there is nothing to copy; when there is something to copy, a failed copy, or a failed allocation of a remainder, is -EFAULT with the line kept, and every -EFAULT is one of those; otherwise `min(len, line)` bytes are delivered, the line keeps exactly the rest, and it becomes `None` once fully written |
| TbDebugfs.DebugfsState.Refill | samples/tb_rust/tb_debugfs.rs:84-101 | over the corrected, saturating `next`: a new item is pulled only when the line is gone or empty; the read returns 0 exactly when the stream is over; otherwise the line becomes the next item's line, or, exactly when making it fails, the result is -EFAULT and that item is lost |
| TbDebugfs.DebugfsState.TbRsRead | samples/tb_rust/tb_debugfs.rs:77-112 | over the corrected, saturating `next`: when every step succeeds it delivers `min(len, line)` bytes of the pending line, or of the next item's line when none is pending; a positive result is the count of bytes delivered, which are the next bytes of the stream, and the offset grows by it; an empty stream always gives 0, and 0 otherwise only for `len = 0`, with nothing changed; -EFAULT loses nothing, except the item whose line could not be made |
| TbDebugfs.DebugfsState.RefillAsWritten | samples/tb_rust/tb_debugfs.rs:84-101 | over the `next` as written: on a gone or empty line `num_objects` drops by one modulo 2^64; a collection holding 1 ends the file with 0, but one at 0 wraps and the line becomes that of the item `usize::MAX` |
| TbDebugfs.DebugfsState.TbRsReadAsWritten | samples/tb_rust/tb_debugfs.rs:77-112 | as written: with no line pending, a collection holding 1 returns 0, and one at 0 then delivers the first `min(len, line)` bytes of the line of `usize::MAX` |
| TbDebugfs.TbRsOpen | samples/tb_rust/tb_debugfs.rs:114-126 | a new session has no line and a collection of 7, so it will deliver the lines of 6, 5, 4, 3, 2, 1 |
| TbDebugfs.ReadAfterEndAsWritten | samples/tb_rust/tb_debugfs.rs:25-35 | as written, the read after the one that returned 0 at the end of the file returns a whole new line |
| TbDebugfs.ReadAfterEnd | samples/tb_rust/tb_debugfs.rs:25-35 | with the saturating `next`, the read after the end of the file returns 0 again |
| DebugfsDisplay.ReadLine | samples/tb_rust/debugfs.rs:129-141 | the rendered line is "tb:debugfs:read: ", the item's text and a newline |
| DebugfsDisplay.DebugfsState.constructor | samples/tb_rust/debugfs.rs:93-98 | a new session has no line yet, and its stream is the item's whole line |
| DebugfsDisplay.DebugfsState.FlushBuf | samples/tb_rust/debugfs.rs:198-226 | returns 0, changing nothing, when there is no line or nothing to copy; otherwise a failed copy or a failed allocation of the remainder is -EFAULT with the line kept, and every -EFAULT is one of those; otherwise `min(len, line)` bytes are delivered and the line becomes exactly the rest, never `None` again |
| DebugfsDisplay.DebugfsState.Read | samples/tb_rust/debugfs.rs:112-154 | with the session kept alive: an empty line returns 0 for good; the line is rendered on the first read only; a positive result is the count of bytes delivered, which are the next bytes of the stream, and the offset grows by it; otherwise nothing of the stream is lost |
| DebugfsDisplay.DebugfsState.ReadAsWritten | samples/tb_rust/debugfs.rs:112-154 | as written, the session is freed exactly when the line is empty or the first rendering fails; the flush path behaves as in `Read` |
| DebugfsDisplay.DebugfsOpen | samples/tb_rust/debugfs.rs:85-104 | a new session has no line, or the open fails with -EFAULT when allocation fails |
| DebugfsDisplay.EndOfFileAsWritten | samples/tb_rust/debugfs.rs:112-154 | as written, reading the whole line and then reading again returns 0 and frees the session still in use |
| DebugfsDisplay.EndOfFile | samples/tb_rust/debugfs.rs:112-154 | with the session kept alive, every read after the whole line returns 0 |
| TbDebug.TbState.constructor | fs/bcachefs/tb_debug.c:19 | the zeroed state: no data, `pos = len = 0` |
| TbDebug.TbOpen | fs/bcachefs/tb_debug.c:14-28 | the state is zeroed, or the open fails with -ENOMEM |
| TbDebug.TbState.ReadAsWritten | fs/bcachefs/tb_debug.c:39-56 | returns `min(size, len - pos)`, and `pos` grows by it; the bytes copied come from the start of `data`; a failed copy still counts as success |
| TbDebug.TbState.Read | fs/bcachefs/tb_debug.c:39-56 | copies from `data + pos`: delivers exactly the next `min(size, len - pos)` unread bytes, which are never handed out again; 0 at the end; -EFAULT with `pos` unchanged when the copy fails |
| TbDebug.TbState.WriteAsWritten | fs/bcachefs/tb_debug.c:58-82 | over 4096 bytes is -ERANGE, and a failed allocation -ENOMEM, with the state unchanged; otherwise `len = size`, `pos = 0`, it returns `size`, and the data is the bytes copied followed by zeros |
| TbDebug.TbState.Write | fs/bcachefs/tb_debug.c:58-82 | as written, except that a copy that fails is -EFAULT; a successful write leaves exactly the user's bytes unread |
| TbDebug.RereadAsWritten | fs/bcachefs/tb_debug.c:49 | as written, two reads of two bytes after writing 1,2,3,4 both hand out 1,2 |
| TbDebug.Reread | fs/bcachefs/tb_debug.c:39-56 | copying from `data + pos`, the same reads hand out 1,2 then 3,4 |
| TbDebug.FailedCopyAsWritten | fs/bcachefs/tb_debug.c:49-53 | as written, a read whose copy fails completely reports 2 bytes, delivers none and moves `pos` to 2 |
| TbDebug.PartialWriteAsWritten | fs/bcachefs/tb_debug.c:72-81 | as written, a write that copies 2 of 4 bytes reports 4 and stores 1,2,0,0 |

## Left out

- `BufRead` and `IntoBufReader` are traits. They are modelled as the predicates
  `Reader.FillBufSpec` and `Reader.ConsumeSpec`, which each reader's `fill_buf` and `consume`
  are proved to meet, not as one polymorphic interface.
- The storage engine behind `BtreeTrans` and `BtreeIter` is not modelled: `bch2_trans_get`/`put`,
  iterator init and exit, and transaction restart and retry. The cursor is a position over a
  sorted sequence of keys. An engine failure is the parameter `fault`.
- `BtreeIter::new`'s flags (`BTREE_ITER_PREFETCH`, `BTREE_ITER_ALL_SNAPSHOTS`) are not modelled.
  The model walks every snapshot of every key.
- Btree.BtreeIter.CurPos is a plain accessor with no contract. It is a function, so it cannot
  change the cursor.
- BtreeDebugfs.BchBtreeReader.FillBuf requires a tree with no key at `SPOS_MAX`. `advance`
  calls the C `bch2_btree_iter_advance`, which is not part of this model. The model lets the
  cursor stay at `SPOS_MAX` there, and then the walk would revisit that key.
- BtreeDebugfs.BchBtreeReader.Consume states its stream property only for `amt` up to the unread
  length. That is what `BufRead::consume` demands of its callers. Beyond it, only `buf_pos` is
  stated.
- BtreeDebugfs.BchBtreeReader.Consume wraps `buf_pos += ...` around modulo 2^32. It does not
  model the panic a kernel built with overflow checks raises on that addition.
- TbDebugfs.DebugfsState.TbRsRead and TbDebugfs.DebugfsState.Refill use the corrected,
  saturating `next`. With `next` as written, the read after the end of the file wraps
  `num_objects` and produces lines again. `TbRsReadAsWritten` and `RefillAsWritten` state only
  that behaviour at the end of the collection, not the full stream equation.
- Key rendering (`write_to_printbuf`, `bch2_bkey_val_to_text`) and the `Display` of the item in
  `samples/tb_rust/debugfs.rs` are opaque. The model uses a `render` function and an `item` text.
  `MyObject`'s `Display` in `samples/tb_rust/tb_debugfs.rs` is modelled concretely, as
  `"MyObject: "` followed by the decimal digits of its number. Whether
  `CString::try_from_fmt` succeeds is a parameter.
- In `tb_rs_read` and `debugfs_read`, the parameter `fmtOk` says whether making the line
  succeeded. It covers both `CString::try_from_fmt` and the `Box::try_new` that follows, because
  both failures take the same path.
- Printbuf.Printbuf.Newline does not model the indentation that `bch2_prt_newline` adds after the
  newline, because its C body is not part of this model.
- How the printbuf storage grows, and the `Drop` that frees it (`bch2_printbuf_exit`), are not
  modelled. Storage is a sequence, and a write either fits or sets the sticky failure flag.
- `DebugfsReader::create_file` and the debugfs registration, `file_operations` tables and module
  lifecycle are not modelled. The source of `create_file` is not part of this model.
- Raw pointers, `Box::into_raw`/`from_raw`, `container_of!` and the `Sync` impls are not
  modelled. Only the use after free they cause in `debugfs_read` is modelled, as the `live` flag.
- Memory leaks are not modelled. They are `debugfs_release`, which never frees its box, and the
  old `data` that `tb_write` overwrites without `kfree`. The release functions (`tb_release`,
  `tb_rs_release`, `debugfs_release`) are not modelled, because they change nothing a session
  delivers.
- Concurrency between sessions is not modelled. Each session is sequential and independent.
- SampleReader.MyReader.Consume uses an unbounded `pos`. It does not model a `usize` overflow of
  `pos += amt`.
- File offsets (`*off`, `*ppos`) are unbounded. They do not model a `loff_t` overflow.
- `copy_to_user` and `UserSliceWriter::write_slice` either succeed or fail as a whole in the Rust
  prototypes (`writeOk`). A write that fails part-way is modelled as delivering nothing.
- `tb_rs_read` and `debugfs.rs` return -14 (`EFAULT`) for allocation failures. The model keeps
  those values rather than `ENOMEM`.
- `From<bch_errcode>` in fs/bcachefs/bindings/mod.rs is not modelled, because it calls C code.
  Errors are plain error numbers.
- `samples/tb_rust/debugfs_iter.rs` is not modelled. Its read is a stub.

## Findings

| source | as written | input that shows it | evidently intended | confidence | as-written member | corrected member |
|---|---|---|---|---|---|---|
| fs/bcachefs/tb_debug.c:49 | `copy_to_user(buf, s->data, bytes)` copies from the start of `data` on every read | write 1,2,3,4, then read 2 bytes twice: both reads return 1,2 | copy from `s->data + s->pos`, so the second read returns 3,4 | high, not executed | TbDebug.RereadAsWritten | TbDebug.Reread |
| fs/bcachefs/tb_debug.c:49-51 | `copy_to_user` returns the unsigned count of bytes not copied, and `n < 0` never holds | a read of 2 bytes whose copy copies nothing returns 2 and moves `pos` past bytes the user never got | treat any uncopied byte as -EFAULT and leave `pos` alone | high, not executed | TbDebug.FailedCopyAsWritten | TbDebug.TbState.Read |
| fs/bcachefs/tb_debug.c:72-74 | the same `n < 0` test after `copy_from_user` never holds | a write of 1,2,3,4 that copies only 2 bytes returns 4 and stores 1,2,0,0 | treat any uncopied byte as -EFAULT and keep the old data | high, not executed | TbDebug.PartialWriteAsWritten | TbDebug.TbState.Write |
| samples/tb_rust/tb_debugfs.rs:25-35 | `next` decrements `num_objects` with no guard, so `tb_rs_read` after the end of the file calls it on 0 | a session with one object left: the first read returns 0, and the second wraps `num_objects` (or panics) and returns the line of item `usize::MAX` | stop at 0 and keep returning `None`, so every read after the end returns 0 | high, not executed | TbDebugfs.ReadAfterEndAsWritten | TbDebugfs.ReadAfterEnd |
| samples/tb_rust/debugfs.rs:120-138 | `debugfs_read` takes the state back with `Box::from_raw`, and the early returns at the end of the file and on a failed rendering drop the box while `private_data` still points to it | read the whole line, then read again: the second read returns 0 and frees the state, and a third read uses freed memory | give the box back (`into_raw`) on every path | high, not executed | DebugfsDisplay.EndOfFileAsWritten | DebugfsDisplay.EndOfFile |
