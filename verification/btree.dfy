/**
 * The cursor of fs/bcachefs/btree.rs (`BtreeIter`), seen from above the storage engine. The engine
 * is modelled by what it walks: the keys of one B-tree in ascending position order. A peek finds
 * the first key at or after the cursor's position; `advance` moves the position just past it.
 */
module Btree {
  import opened Types
  import opened Bpos
  import ErrCode

  /** A key and its value as the engine hands them out (`bkey_s_c`). */
  datatype Bkey = Bkey(p: Bpos, val: Bytes)

  /** The keys of a B-tree: strictly ascending by position. */
  ghost predicate Sorted(keys: seq<Bkey>) {
    forall i, j :: 0 <= i < j < |keys| ==> Lt(keys[i].p, keys[j].p)
  }

  /** The keys at or after `from`, in order: what a forward walk starting at `from` visits. */
  function KeysFrom(keys: seq<Bkey>, from: Bpos): (r: seq<Bkey>)
    ensures |r| <= |keys|
    ensures forall k :: k in r <==> k in keys && Le(from, k.p)
  {
    if keys == [] then []
    else if Le(from, keys[0].p) then [keys[0]] + KeysFrom(keys[1..], from)
    else KeysFrom(keys[1..], from)
  }

  /**
   * The position just after `p` (`bpos_successor`): the snapshot counts up and carries into the
   * offset, then the inode. `SPOS_MAX` has no successor; advancing from it stays put.
   */
  function Successor(p: Bpos): (r: Bpos)
    ensures p != SPOS_MAX ==> Lt(p, r)
    ensures p == SPOS_MAX ==> r == p
  {
    if p.snapshot < U32_MAX then Bpos(p.inode, p.offset, p.snapshot + 1)
    else if p.offset < U64_MAX then Bpos(p.inode, p.offset + 1, 0)
    else if p.inode < U64_MAX then Bpos(p.inode + 1, 0, 0)
    else p
  }

  /** No position lies strictly between a position and its successor. */
  lemma SuccessorIsNext(p: Bpos, q: Bpos)
    requires p != SPOS_MAX
    ensures Lt(p, Successor(p))
    ensures Lt(p, q) <==> Le(Successor(p), q)
  {
  }

  /** Filtering a sorted sequence keeps it sorted. */
  lemma {:induction false} KeysFromSorted(keys: seq<Bkey>, from: Bpos)
    requires Sorted(keys)
    ensures Sorted(KeysFrom(keys, from))
  {
    if keys != [] {
      KeysFromSorted(keys[1..], from);
    }
  }

  /** The first key found from `from` is the least key at or after `from`. */
  lemma FirstKeyFromIsLeast(keys: seq<Bkey>, from: Bpos, k: Bkey)
    requires Sorted(keys) && KeysFrom(keys, from) != []
    requires k in keys && Le(from, k.p)
    ensures Le(KeysFrom(keys, from)[0].p, k.p)
  {
    KeysFromSorted(keys, from);
    var r := KeysFrom(keys, from);
    var i :| 0 <= i < |r| && r[i] == k;
    if i > 0 {
      CmpTransitive(r[0].p, r[i].p, r[i].p);
    }
  }

  /** When every key is at or after `from`, a walk from `from` visits them all. */
  lemma {:induction false} KeysFromAll(keys: seq<Bkey>, from: Bpos)
    requires forall i :: 0 <= i < |keys| ==> Le(from, keys[i].p)
    ensures KeysFrom(keys, from) == keys
  {
    if keys != [] {
      KeysFromAll(keys[1..], from);
    }
  }

  /**
   * Moving just past the first key found drops exactly that key from the walk: nothing is
   * skipped and nothing is visited twice.
   */
  lemma {:induction false} KeysFromSuccessor(keys: seq<Bkey>, from: Bpos)
    requires Sorted(keys)
    requires KeysFrom(keys, from) != []
    requires KeysFrom(keys, from)[0].p != SPOS_MAX
    ensures KeysFrom(keys, Successor(KeysFrom(keys, from)[0].p)) == KeysFrom(keys, from)[1..]
  {
    var k := KeysFrom(keys, from)[0];
    if Le(from, keys[0].p) {
      assert k == keys[0];
      forall i | 0 <= i < |keys[1..]|
        ensures Le(Successor(k.p), keys[1..][i].p) && Le(from, keys[1..][i].p)
      {
        assert Lt(k.p, keys[i + 1].p);
        SuccessorIsNext(k.p, keys[i + 1].p);
        CmpTransitive(from, k.p, keys[i + 1].p);
      }
      KeysFromAll(keys[1..], Successor(k.p));
      KeysFromAll(keys[1..], from);
      SuccessorIsNext(k.p, k.p);
    } else {
      KeysFromSuccessor(keys[1..], from);
      assert k in keys && Le(from, k.p);
      CmpTotal(from, keys[0].p);
      CmpTransitive(keys[0].p, from, k.p);
      SuccessorIsNext(k.p, keys[0].p);
      CmpTransitive(keys[0].p, k.p, Successor(k.p));
    }
  }

  /** A non-null, non-error address standing for "a pointer to the key found". */
  const KEY_ADDR: u64 := 0x1000

  /** What the engine's peek returns: the raw `k` pointer and the key it points to when valid. */
  datatype RawKey = RawKey(k: u64, key: Bkey)

  const NULL_KEY: Bkey := Bkey(POS_MIN, [])

  /**
   * The engine's `bch2_btree_iter_peek_upto` from `from`: an error pointer when the engine fails
   * with `fault`, else the first key at or after `from` if it is at or before `end`, else null.
   */
  function EnginePeek(keys: seq<Bkey>, from: Bpos, end: Bpos, fault: Option<ErrCode.ErrorCode>): (r: RawKey)
    ensures fault.Some? <==> r.k > ErrCode.MAX_ERR
    ensures r.k == KEY_ADDR ==> r.key in keys && Le(from, r.key.p) && Le(r.key.p, end)
    ensures fault.None? ==> r.k == 0 || r.k == KEY_ADDR
  {
    if fault.Some? then RawKey(ErrCode.ErrAddr(fault.value), NULL_KEY)
    else if KeysFrom(keys, from) != [] && Le(KeysFrom(keys, from)[0].p, end) then RawKey(KEY_ADDR, KeysFrom(keys, from)[0])
    else RawKey(0, NULL_KEY)
  }

  /** The decoding in `peek_upto`/`peek_and_restart`: error pointer, null key or key. */
  function DecodePeek(raw: RawKey): (r: Result<Option<Bkey>>)
    ensures raw.k > ErrCode.MAX_ERR <==> r.Err?
    ensures r.Err? ==> r.error == U64_LIMIT - raw.k
    ensures raw.k == 0 ==> r == Ok(None)
    ensures 0 < raw.k <= ErrCode.MAX_ERR ==> r == Ok(Some(raw.key))
  {
    match ErrCode.ErrptrToResult(raw.k)
    case Err(e) => Err(e)
    case Ok(_) => Ok(if raw.k != 0 then Some(raw.key) else None)
  }

  /** What a peek from `from` up to `end` promises, in terms of the keys of the tree. */
  lemma PeekUptoSpec(keys: seq<Bkey>, from: Bpos, end: Bpos, fault: Option<ErrCode.ErrorCode>)
    requires Sorted(keys)
    ensures var r := DecodePeek(EnginePeek(keys, from, end, fault));
      && (r.Err? <==> fault.Some?)
      && (r.Err? ==> r.error == fault.value)
      && (r == Ok(None) <==> fault.None? && forall k :: k in keys ==> !(Le(from, k.p) && Le(k.p, end)))
      && (r.Ok? && r.value.Some? ==>
            var k := r.value.value;
            && k in keys && Le(from, k.p) && Le(k.p, end)
            && forall k' :: k' in keys && Le(from, k'.p) ==> Le(k.p, k'.p))
  {
    if fault.Some? {
      ErrCode.ErrorRoundTrip(fault.value);
    } else if KeysFrom(keys, from) != [] {
      var k := KeysFrom(keys, from)[0];
      forall k' | k' in keys && Le(from, k'.p)
        ensures Le(k.p, k'.p)
      {
        FirstKeyFromIsLeast(keys, from, k');
      }
      if !Le(k.p, end) {
        forall k' | k' in keys && Le(from, k'.p)
          ensures !Le(k'.p, end)
        {
          CmpTransitive(k.p, k'.p, end);
        }
      }
    }
  }

  /** A B-tree cursor (`struct btree_iter`); `pos` is `raw.pos`, read by `cur_pos`. */
  class BtreeIter {
    const keys: seq<Bkey>
    var pos: Bpos

    /** `BtreeIter::new`: a cursor on `keys` positioned at `pos`. */
    constructor (keys: seq<Bkey>, pos: Bpos)
      ensures this.keys == keys && this.pos == pos
    {
      this.keys := keys;
      this.pos := pos;
    }

    /** `peek_upto`: the first key in `[pos, end]`; a key found becomes the cursor's position. */
    method PeekUpto(end: Bpos, fault: Option<ErrCode.ErrorCode>) returns (r: Result<Option<Bkey>>)
      modifies this
      ensures r == DecodePeek(EnginePeek(keys, old(pos), end, fault))
      ensures pos == (if r.Ok? && r.value.Some? then r.value.value.p else old(pos))
    {
      var raw := EnginePeek(keys, pos, end, fault);
      r := DecodePeek(raw);
      if r.Ok? && r.value.Some? {
        pos := r.value.value.p;
      }
    }

    /** `peek`: `peek_upto(SPOS_MAX)`. */
    method Peek(fault: Option<ErrCode.ErrorCode>) returns (r: Result<Option<Bkey>>)
      modifies this
      ensures r == DecodePeek(EnginePeek(keys, old(pos), SPOS_MAX, fault))
      ensures pos == (if r.Ok? && r.value.Some? then r.value.value.p else old(pos))
    {
      r := PeekUpto(SPOS_MAX, fault);
    }

    /**
     * `peek_and_restart`: a peek to the end of the tree. A transaction restart inside the engine
     * is retried there and is not visible in the result.
     */
    method PeekAndRestart(fault: Option<ErrCode.ErrorCode>) returns (r: Result<Option<Bkey>>)
      modifies this
      ensures r == DecodePeek(EnginePeek(keys, old(pos), SPOS_MAX, fault))
      ensures pos == (if r.Ok? && r.value.Some? then r.value.value.p else old(pos))
    {
      r := PeekUpto(SPOS_MAX, fault);
    }

    /** `advance`: move just past the position of the key last peeked. */
    method Advance()
      modifies this
      ensures pos == Successor(old(pos))
    {
      pos := Successor(pos);
    }

    function CurPos(): Bpos
      reads this
    {
      pos
    }
  }

  /**
   * Successive peeks with an advance in between return strictly increasing positions: after a
   * peek finds `k` and the cursor advances, the next key found lies strictly after `k`.
   */
  lemma PeekAdvancePeekIncreases(keys: seq<Bkey>, from: Bpos, end: Bpos, k: Bkey, end': Bpos, k': Bkey)
    requires Sorted(keys)
    requires DecodePeek(EnginePeek(keys, from, end, None)) == Ok(Some(k))
    requires k.p != SPOS_MAX
    requires DecodePeek(EnginePeek(keys, Successor(k.p), end', None)) == Ok(Some(k'))
    ensures Lt(k.p, k'.p)
  {
    PeekUptoSpec(keys, Successor(k.p), end', None);
    SuccessorIsNext(k.p, k'.p);
  }
}
