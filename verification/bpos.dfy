/**
 * B-tree positions (`struct bpos`) and their ordering, as fs/bcachefs/btree.rs defines them:
 * a triple (inode, offset, snapshot) compared lexicographically as unsigned integers.
 */
module Bpos {
  import opened Types

  datatype Bpos = Bpos(inode: u64, offset: u64, snapshot: u32)

  /** `core::cmp::Ordering`. */
  datatype Ordering = Less | Equal | Greater {
    /** `Ordering::then`: this ordering, unless it is `Equal`, in which case `other`. */
    function Then(other: Ordering): Ordering {
      if this == Equal then other else this
    }
  }

  /** `spos`: the position with the three given fields. */
  function Spos(inode: u64, offset: u64, snapshot: u32): (r: Bpos)
    ensures r.inode == inode && r.offset == offset && r.snapshot == snapshot
  {
    Bpos(inode, offset, snapshot)
  }

  /** `pos`: a position in snapshot 0, the same as `spos` with snapshot 0. */
  function Pos(inode: u64, offset: u64): (r: Bpos)
    ensures r == Spos(inode, offset, 0) && r.snapshot == 0
  {
    Spos(inode, offset, 0)
  }

  const POS_MIN: Bpos := Spos(0, 0, 0)
  const POS_MAX: Bpos := Spos(U64_MAX, U64_MAX, 0)
  const SPOS_MAX: Bpos := Spos(U64_MAX, U64_MAX, U32_MAX)

  /** `Ord::cmp` on an unsigned integer type. */
  function CmpUnsigned(l: int, r: int): Ordering {
    if l < r then Less else if l == r then Equal else Greater
  }

  /** Reference definition of "a comes strictly before b": the lexicographic order on the three fields. */
  ghost predicate LexLess(a: Bpos, b: Bpos) {
    || a.inode < b.inode
    || (a.inode == b.inode && a.offset < b.offset)
    || (a.inode == b.inode && a.offset == b.offset && a.snapshot < b.snapshot)
  }

  /** `impl Ord for Bpos`: inode first, then offset, then snapshot. */
  function Cmp(a: Bpos, b: Bpos): (r: Ordering)
    ensures r == Less <==> LexLess(a, b)
    ensures r == Greater <==> LexLess(b, a)
    ensures r == Equal <==> a.inode == b.inode && a.offset == b.offset && a.snapshot == b.snapshot
  {
    CmpUnsigned(a.inode, b.inode)
      .Then(CmpUnsigned(a.offset, b.offset))
      .Then(CmpUnsigned(a.snapshot, b.snapshot))
  }

  /** `impl PartialEq for Bpos`: equal exactly when `cmp` says `Equal`. */
  function Eq(a: Bpos, b: Bpos): (r: bool)
    ensures r <==> a.inode == b.inode && a.offset == b.offset && a.snapshot == b.snapshot
    ensures r <==> a == b
  {
    Cmp(a, b) == Equal
  }

  /** `impl PartialOrd for Bpos`: always defined. */
  function PartialCmp(a: Bpos, b: Bpos): (r: Option<Ordering>)
    ensures r.Some?
    ensures r.value == Less <==> LexLess(a, b)
    ensures r.value == Equal <==> a == b
    ensures r.value == Greater <==> LexLess(b, a)
  {
    Some(Cmp(a, b))
  }

  /** `a < b` and `a <= b` as derived from `partial_cmp`. */
  predicate Lt(a: Bpos, b: Bpos) {
    PartialCmp(a, b) == Some(Less)
  }

  predicate Le(a: Bpos, b: Bpos) {
    PartialCmp(a, b) != Some(Greater)
  }

  lemma CmpReflexive(a: Bpos)
    ensures Cmp(a, a) == Equal && Le(a, a) && !Lt(a, a)
  {
  }

  lemma CmpAntisymmetric(a: Bpos, b: Bpos)
    ensures Cmp(a, b) == Less <==> Cmp(b, a) == Greater
    ensures Cmp(a, b) == Equal <==> Cmp(b, a) == Equal
  {
  }

  lemma CmpTransitive(a: Bpos, b: Bpos, c: Bpos)
    ensures Lt(a, b) && Lt(b, c) ==> Lt(a, c)
    ensures Le(a, b) && Le(b, c) ==> Le(a, c)
    ensures Lt(a, b) && Le(b, c) ==> Lt(a, c)
    ensures Le(a, b) && Lt(b, c) ==> Lt(a, c)
  {
  }

  lemma CmpTotal(a: Bpos, b: Bpos)
    ensures Lt(a, b) || a == b || Lt(b, a)
    ensures Le(a, b) <==> !Lt(b, a)
  {
  }

  lemma PosMinIsLeast(p: Bpos)
    ensures Le(POS_MIN, p)
    ensures Lt(POS_MIN, p) <==> p != POS_MIN
  {
  }

  lemma SposMaxIsGreatest(p: Bpos)
    ensures Le(p, SPOS_MAX)
    ensures Lt(p, SPOS_MAX) <==> p != SPOS_MAX
  {
  }

  lemma PosMaxBelowSposMax()
    ensures Lt(POS_MAX, SPOS_MAX)
    ensures POS_MAX.inode == SPOS_MAX.inode && POS_MAX.offset == SPOS_MAX.offset
    ensures POS_MAX.snapshot == 0 && SPOS_MAX.snapshot == U32_MAX
  {
  }
}
