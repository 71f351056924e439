/**
 * The debugfs side of fs/bcachefs/btree_debugfs.rs: the per-filesystem registry of B-trees that
 * have a debugfs file, and `BchBtreeReader`, the buffered reader that renders one key per refill
 * and remembers where to resume.
 */
module BtreeDebugfs {
  import opened Types
  import opened Bpos
  import opened Btree
  import ErrCode
  import Reader
  import PB = Printbuf

  // ---------------------------------------------------------------------------------------------
  // The registry of debugfs entries, one slot per B-tree id

  /** `BtreeDebug`: a reference to the `btree_debug` entry of B-tree `id`. */
  datatype BtreeDebug = BtreeDebug(id: nat)

  /** The part of `struct bch_fs` that holds the lazily allocated `DebugArray`. */
  class BchFs {
    /** `BTREE_ID_NR`, the number of B-trees, fixed by the C headers. */
    const nBtrees: nat
    var debugArray: array?<Option<BtreeDebug>>
    /** Whether `bch_debugfs_cleanup` has given the array back to the allocator. */
    ghost var freed: bool

    ghost predicate Valid()
      reads this
    {
      debugArray != null ==> debugArray.Length == nBtrees
    }

    constructor (nBtrees: nat)
      ensures Valid() && this.nBtrees == nBtrees && debugArray == null && !freed
    {
      this.nBtrees := nBtrees;
      debugArray := null;
      freed := false;
    }

    /**
     * `bch_debugfs_setup_btree`: allocate the array (all slots empty) if there is none yet, then
     * fill slot `bd.id`. When the allocation fails nothing changes and setup is silently skipped.
     */
    method SetupBtree(bd: BtreeDebug, allocOk: bool)
      requires Valid() && !freed && bd.id < nBtrees
      modifies this, debugArray
      ensures Valid() && !freed
      ensures old(debugArray) == null && !allocOk ==> debugArray == null
      ensures old(debugArray) == null && allocOk ==>
        && debugArray != null && fresh(debugArray)
        && debugArray[bd.id] == Some(bd)
        && forall i :: 0 <= i < nBtrees && i != bd.id ==> debugArray[i] == None
      ensures old(debugArray) != null ==>
        && debugArray == old(debugArray)
        && debugArray[bd.id] == Some(bd)
        && forall i :: 0 <= i < nBtrees && i != bd.id ==> debugArray[i] == old(debugArray[i])
    {
      if debugArray == null {
        if !allocOk {
          return;
        }
        debugArray := new Option<BtreeDebug>[nBtrees](_ => None);
      }
      debugArray[bd.id] := Some(bd);
    }

    /**
     * `bch_debugfs_cleanup`: the array is freed exactly when it was ever allocated, and nothing
     * else changes. Freeing it twice is undefined behaviour, so it is called at most once.
     */
    method Cleanup()
      requires !freed
      modifies this
      ensures freed <==> old(debugArray) != null
      ensures debugArray == old(debugArray)
    {
      if debugArray != null {
        freed := true;
      }
    }
  }

  // ---------------------------------------------------------------------------------------------
  // The reader

  /** The text one key leaves in a freshly reset printbuf: its rendering, then a newline. */
  function Line(text: Bytes): (r: Bytes)
    ensures r != []
    ensures |text| < U32_MAX ==> r == text + [NEWLINE]
  {
    PB.Appended(PB.Appended([], text), [NEWLINE])
  }

  /** Everything a walk over `keys` renders, one line per key. */
  function Lines(render: Bkey -> Bytes, keys: seq<Bkey>): (r: Bytes)
    ensures r == [] <==> keys == []
  {
    if keys == [] then [] else Line(render(keys[0])) + Lines(render, keys[1..])
  }

  /** The trees a reader can walk: sorted, and with no key at `SPOS_MAX`, where advancing stops. */
  ghost predicate Walkable(keys: seq<Bkey>) {
    Sorted(keys) && forall i :: 0 <= i < |keys| ==> keys[i].p != SPOS_MAX
  }

  /**
   * What a refill's peek from `from` finds: nothing exactly when the walk from `from` is over,
   * and otherwise its first key, whose line heads what the walk renders; the rest of the walk
   * resumes just past that key.
   */
  lemma PeekStep(tree: seq<Bkey>, render: Bkey -> Bytes, from: Bpos)
    requires Walkable(tree)
    ensures var r := DecodePeek(EnginePeek(tree, from, SPOS_MAX, None));
      && r.Ok?
      && (r.value.None? <==> KeysFrom(tree, from) == [])
      && (r.value.Some? ==>
            && r.value.value == KeysFrom(tree, from)[0]
            && Lines(render, KeysFrom(tree, from))
               == Line(render(r.value.value)) + Lines(render, KeysFrom(tree, Successor(r.value.value.p))))
  {
    var rest := KeysFrom(tree, from);
    if rest != [] {
      SposMaxIsGreatest(rest[0].p);
      assert rest[0] in tree;
      KeysFromSuccessor(tree, from);
    }
  }

  /** Dropping a prefix of the unread bytes drops it from the front of the whole stream. */
  lemma ConsumedPrefix(unread: Bytes, lines: Bytes, amt: nat)
    requires amt <= |unread|
    ensures (unread + lines)[amt..] == unread[amt..] + lines
  {
  }

  /** `BchBtreeReader`: one reader of one B-tree's debugfs file. */
  class BchBtreeReader {
    /** The B-tree this reader walks, as the engine behind `fs` sees it. */
    const tree: seq<Bkey>
    /** `write_to_printbuf`: how one key is rendered; opaque here. */
    const render: Bkey -> Bytes
    const btree: BtreeDebug
    const buf: PB.Printbuf
    var bufPos: u32
    var btreePos: Bpos

    ghost predicate Valid()
      reads this, buf
    {
      buf.Valid() && Walkable(tree)
    }

    /** The rendered bytes not yet consumed. */
    function Unread(): Bytes
      reads this, buf
      requires Valid()
    {
      if bufPos < buf.Len() then buf.AsSlice()[bufPos..] else []
    }

    /** Everything this reader still delivers: the unread bytes, then one line per remaining key. */
    ghost function Stream(): Bytes
      reads this, buf
      requires Valid()
    {
      Unread() + Lines(render, KeysFrom(tree, btreePos))
    }

    /** `BtreeDebug::into_bufreader`: an empty buffer and a walk starting at `POS_MIN`. */
    constructor (btree: BtreeDebug, tree: seq<Bkey>, render: Bkey -> Bytes)
      requires Walkable(tree)
      ensures Valid() && fresh(buf)
      ensures this.btree == btree && this.tree == tree && this.render == render
      ensures bufPos == 0 && btreePos == POS_MIN && buf.Len() == 0
      ensures Unread() == [] && Stream() == Lines(render, tree)
    {
      this.btree := btree;
      this.tree := tree;
      this.render := render;
      buf := new PB.Printbuf();
      bufPos := 0;
      btreePos := POS_MIN;
      new;
      forall i | 0 <= i < |tree| ensures Le(POS_MIN, tree[i].p) {
        PosMinIsLeast(tree[i].p);
      }
      KeysFromAll(tree, POS_MIN);
    }

    /**
     * `fill_buf`. Unread bytes are returned without touching the engine. Otherwise the buffer is
     * reset and a fresh cursor peeks at `btree_pos`: an error is passed on, no key gives an empty
     * slice, and a key is rendered with a newline while `btree_pos` moves just past it.
     */
    method FillBuf(fault: Option<ErrCode.ErrorCode>) returns (r: Result<Bytes>)
      requires Valid()
      modifies this, buf
      ensures Valid()
      ensures Reader.FillBufSpec(old(Unread()), old(Stream()), r, Unread(), Stream())
      ensures old(bufPos < buf.Len()) ==>
        r == Ok(old(Unread())) && bufPos == old(bufPos) && btreePos == old(btreePos) && buf.AsSlice() == old(buf.AsSlice())
      ensures !old(bufPos < buf.Len()) ==> bufPos == 0
      ensures !old(bufPos < buf.Len()) && fault.Some? ==> r == Err(fault.value) && btreePos == old(btreePos)
      ensures !old(bufPos < buf.Len()) && fault.None? && KeysFrom(tree, old(btreePos)) == [] ==>
        r == Ok([]) && btreePos == old(btreePos)
      ensures !old(bufPos < buf.Len()) && fault.None? && KeysFrom(tree, old(btreePos)) != [] ==>
        && r == Ok(Line(render(KeysFrom(tree, old(btreePos))[0])))
        && btreePos == Successor(KeysFrom(tree, old(btreePos))[0].p)
    {
      if bufPos >= buf.Len() {
        var iter := new BtreeIter(tree, btreePos);
        bufPos := 0;
        buf.Reset();
        var peeked := iter.PeekAndRestart(fault);
        if peeked.Err? {
          ErrCode.ErrorRoundTrip(fault.value);
          return Err(peeked.error);
        }
        PeekStep(tree, render, btreePos);
        if peeked.value.None? {
          return Ok([]);
        }
        var k := peeked.value.value;
        ghost var stream := Lines(render, KeysFrom(tree, btreePos));
        RenderLine(k);
        iter.Advance();
        btreePos := iter.CurPos();
        assert Unread() == Line(render(k));
        assert Stream() == stream;
      }
      r := Ok(Unread());
    }

    /** `write_to_printbuf` then `newline` on the freshly reset buffer: it holds the key's line. */
    method RenderLine(k: Bkey)
      requires Valid() && buf.AsSlice() == []
      modifies buf
      ensures Valid() && buf.AsSlice() == Line(render(k))
    {
      buf.Write(render(k));
      buf.Newline();
    }

    /**
     * `consume`: `buf_pos += amt as c_uint`. The cast keeps the low 32 bits of `amt`; the addition
     * wraps around here, where a kernel built with overflow checks would panic instead.
     */
    method Consume(amt: nat)
      requires Valid()
      modifies this`bufPos
      ensures Valid()
      ensures bufPos == (old(bufPos) + amt % U32_LIMIT) % U32_LIMIT
      ensures Reader.ConsumeSpec(old(Unread()), old(Stream()), amt, Unread(), Stream())
    {
      ghost var unread := Unread();
      ghost var lines := Lines(render, KeysFrom(tree, btreePos));
      var step := amt % U32_LIMIT;
      var sum := bufPos + step;
      bufPos := if sum < U32_LIMIT then sum else sum - U32_LIMIT;
      if amt <= |unread| {
        assert step == amt;
        assert Unread() == unread[amt..];
        ConsumedPrefix(unread, lines, amt);
      }
    }
  }
}
