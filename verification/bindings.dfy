/**
 * Bit-field accessors generated for `struct bkey` and `struct bch_extent_ptr`
 * (fs/bcachefs/bindings/bindings_special.rs). A `__BindgenBitfieldUnit<[u8; N]>` is N bytes read as
 * one little-endian word; `get(offset, width)` reads `width` bits starting at bit `offset` and
 * `set(offset, width, v)` overwrites exactly those bits with the low `width` bits of `v`.
 */
module Bindings {

  // ---------------------------------------------------------------------------------------------
  // The one-byte unit of `struct bkey`

  function Mask8(width: nat): bv8
    requires width <= 8
  {
    if width == 8 then 0xFF else ((1 as bv8) << width) - 1
  }

  function Get8(unit: bv8, offset: nat, width: nat): bv8
    requires offset + width <= 8
  {
    (unit >> offset) & Mask8(width)
  }

  function Set8(unit: bv8, offset: nat, width: nat, val: bv8): bv8
    requires offset + width <= 8
  {
    (unit & !(Mask8(width) << offset)) | ((val & Mask8(width)) << offset)
  }

  const FORMAT_OFFSET: nat := 0
  const FORMAT_WIDTH: nat := 7
  const NEEDS_WHITEOUT_OFFSET: nat := 7
  const NEEDS_WHITEOUT_WIDTH: nat := 1

  /** The bit-field part of `struct bkey`: `format` in bits 0..6, `needs_whiteout` in bit 7. */
  class Bkey {
    var bitfield1: bv8

    constructor (unit: bv8)
      ensures bitfield1 == unit
    {
      bitfield1 := unit;
    }

    function Format(): (r: bv8)
      reads this
      ensures r < 128
    {
      Get8(bitfield1, FORMAT_OFFSET, FORMAT_WIDTH)
    }

    function NeedsWhiteout(): (r: bv8)
      reads this
      ensures r < 2
    {
      Get8(bitfield1, NEEDS_WHITEOUT_OFFSET, NEEDS_WHITEOUT_WIDTH)
    }

    method SetFormat(val: bv8)
      modifies this`bitfield1
      ensures bitfield1 == Set8(old(bitfield1), FORMAT_OFFSET, FORMAT_WIDTH, val)
      ensures Format() == val % 128
      ensures NeedsWhiteout() == old(NeedsWhiteout())
    {
      bitfield1 := Set8(bitfield1, FORMAT_OFFSET, FORMAT_WIDTH, val);
    }

    method SetNeedsWhiteout(val: bv8)
      modifies this`bitfield1
      ensures bitfield1 == Set8(old(bitfield1), NEEDS_WHITEOUT_OFFSET, NEEDS_WHITEOUT_WIDTH, val)
      ensures NeedsWhiteout() == val % 2
      ensures Format() == old(Format())
    {
      bitfield1 := Set8(bitfield1, NEEDS_WHITEOUT_OFFSET, NEEDS_WHITEOUT_WIDTH, val);
    }

    /** `bkey::new_bitfield_1`: a zeroed unit with both fields set in turn. */
    static method NewBitfield1(format: bv8, needsWhiteout: bv8) returns (unit: bv8)
      ensures Get8(unit, FORMAT_OFFSET, FORMAT_WIDTH) == format % 128
      ensures Get8(unit, NEEDS_WHITEOUT_OFFSET, NEEDS_WHITEOUT_WIDTH) == needsWhiteout % 2
    {
      unit := 0;
      unit := Set8(unit, FORMAT_OFFSET, FORMAT_WIDTH, format);
      unit := Set8(unit, NEEDS_WHITEOUT_OFFSET, NEEDS_WHITEOUT_WIDTH, needsWhiteout);
    }
  }

  /** The two `bkey` fields split the byte: disjoint, and together all eight bits. */
  lemma BkeyLayout()
    ensures (Mask8(FORMAT_WIDTH) << FORMAT_OFFSET) & (Mask8(NEEDS_WHITEOUT_WIDTH) << NEEDS_WHITEOUT_OFFSET) == 0
    ensures (Mask8(FORMAT_WIDTH) << FORMAT_OFFSET) | (Mask8(NEEDS_WHITEOUT_WIDTH) << NEEDS_WHITEOUT_OFFSET) == 0xFF
  {
  }

  // ---------------------------------------------------------------------------------------------
  // The eight-byte unit of `struct bch_extent_ptr`

  // Offsets and widths are 7-bit vectors so that every shift stays within bit-vector arithmetic.

  function Mask64(width: bv7): bv64
    requires width <= 64
  {
    if width == 64 then 0xFFFF_FFFF_FFFF_FFFF else ((1 as bv64) << width) - 1
  }

  function Get64(unit: bv64, offset: bv7, width: bv7): bv64
    requires width <= 64 && offset <= 64
  {
    (unit >> offset) & Mask64(width)
  }

  function Set64(unit: bv64, offset: bv7, width: bv7, val: bv64): bv64
    requires width <= 64 && offset <= 64
  {
    (unit & !(Mask64(width) << offset)) | ((val & Mask64(width)) << offset)
  }

  /** The seven fields of `bch_extent_ptr`, in bit order. */
  datatype PtrField = PtrType | PtrCached | PtrUnused | PtrUnwritten | PtrOffset | PtrDev | PtrGen {
    function Offset(): (o: bv7)
      ensures o <= 64
    {
      match this
      case PtrType => 0
      case PtrCached => 1
      case PtrUnused => 2
      case PtrUnwritten => 3
      case PtrOffset => 4
      case PtrDev => 48
      case PtrGen => 56
    }

    function Width(): (w: bv7)
      ensures 1 <= w <= 64 && Offset() as int + w as int <= 64
    {
      match this
      case PtrType => 1
      case PtrCached => 1
      case PtrUnused => 1
      case PtrUnwritten => 1
      case PtrOffset => 44
      case PtrDev => 8
      case PtrGen => 8
    }

    /** The bits of a unit that belong to this field. */
    function FieldMask(): bv64 {
      Mask64(Width()) << Offset()
    }
  }

  function GetField(unit: bv64, f: PtrField): bv64 {
    Get64(unit, f.Offset(), f.Width())
  }

  function SetField(unit: bv64, f: PtrField, val: bv64): bv64 {
    Set64(unit, f.Offset(), f.Width(), val)
  }

  /** The value a field reads back after `val` was written to it: `val` modulo 2^width. */
  function Truncated(f: PtrField, val: bv64): bv64 {
    val & Mask64(f.Width())
  }

  /** The bits each field occupies, written out. */
  lemma FieldMaskValues()
    ensures PtrType.FieldMask() == 0x0000_0000_0000_0001
    ensures PtrCached.FieldMask() == 0x0000_0000_0000_0002
    ensures PtrUnused.FieldMask() == 0x0000_0000_0000_0004
    ensures PtrUnwritten.FieldMask() == 0x0000_0000_0000_0008
    ensures PtrOffset.FieldMask() == 0x0000_FFFF_FFFF_FFF0
    ensures PtrDev.FieldMask() == 0x00FF_0000_0000_0000
    ensures PtrGen.FieldMask() == 0xFF00_0000_0000_0000
  {
  }

  /** The fields are pairwise disjoint and together cover all 64 bits. */
  lemma ExtentPtrLayout()
    ensures forall f: PtrField, g: PtrField :: f != g ==> f.FieldMask() & g.FieldMask() == 0
    ensures PtrType.FieldMask() | PtrCached.FieldMask() | PtrUnused.FieldMask() | PtrUnwritten.FieldMask()
          | PtrOffset.FieldMask() | PtrDev.FieldMask() | PtrGen.FieldMask() == 0xFFFF_FFFF_FFFF_FFFF
  {
    FieldMaskValues();
    forall f: PtrField, g: PtrField | f != g
      ensures f.FieldMask() & g.FieldMask() == 0
    {
      match f
      case PtrType =>
        match g {
          case PtrType =>
          case PtrCached =>
          case PtrUnused =>
          case PtrUnwritten =>
          case PtrOffset =>
          case PtrDev =>
          case PtrGen =>
        }
      case PtrCached =>
        match g {
          case PtrType =>
          case PtrCached =>
          case PtrUnused =>
          case PtrUnwritten =>
          case PtrOffset =>
          case PtrDev =>
          case PtrGen =>
        }
      case PtrUnused =>
        match g {
          case PtrType =>
          case PtrCached =>
          case PtrUnused =>
          case PtrUnwritten =>
          case PtrOffset =>
          case PtrDev =>
          case PtrGen =>
        }
      case PtrUnwritten =>
        match g {
          case PtrType =>
          case PtrCached =>
          case PtrUnused =>
          case PtrUnwritten =>
          case PtrOffset =>
          case PtrDev =>
          case PtrGen =>
        }
      case PtrOffset =>
        match g {
          case PtrType =>
          case PtrCached =>
          case PtrUnused =>
          case PtrUnwritten =>
          case PtrOffset =>
          case PtrDev =>
          case PtrGen =>
        }
      case PtrDev =>
        match g {
          case PtrType =>
          case PtrCached =>
          case PtrUnused =>
          case PtrUnwritten =>
          case PtrOffset =>
          case PtrDev =>
          case PtrGen =>
        }
      case PtrGen =>
        match g {
          case PtrType =>
          case PtrCached =>
          case PtrUnused =>
          case PtrUnwritten =>
          case PtrOffset =>
          case PtrDev =>
          case PtrGen =>
        }
    }
  }

  /** Reading a field after setting it gives the value set, truncated to the field's width. */
  lemma GetAfterSet(unit: bv64, f: PtrField, val: bv64)
    ensures GetField(SetField(unit, f, val), f) == Truncated(f, val)
  {
    match f
    case PtrType =>
    case PtrCached =>
    case PtrUnused =>
    case PtrUnwritten =>
    case PtrOffset =>
    case PtrDev =>
    case PtrGen =>
  }

  /** Setting a field leaves every other field as it was. */
  lemma SetLeavesOthers(unit: bv64, f: PtrField, g: PtrField, val: bv64)
    requires f != g
    ensures GetField(SetField(unit, f, val), g) == GetField(unit, g)
  {
    match f
    case PtrType =>
    case PtrCached =>
    case PtrUnused =>
    case PtrUnwritten =>
    case PtrOffset =>
    case PtrDev =>
    case PtrGen =>
  }

  /** What a read of any field returns after one `set`. */
  lemma SetFieldReads(unit: bv64, f: PtrField, val: bv64)
    ensures GetField(SetField(unit, f, val), f) == Truncated(f, val)
    ensures forall g: PtrField :: g != f ==> GetField(SetField(unit, f, val), g) == GetField(unit, g)
  {
    GetAfterSet(unit, f, val);
    forall g: PtrField | g != f
      ensures GetField(SetField(unit, f, val), g) == GetField(unit, g)
    {
      SetLeavesOthers(unit, f, g, val);
    }
  }

  /** `struct bch_extent_ptr`: one 64-bit bit-field unit. */
  class ExtentPtr {
    var bitfield1: bv64

    constructor (unit: bv64)
      ensures bitfield1 == unit
    {
      bitfield1 := unit;
    }

    /** The value of field `f`: never wider than the field. */
    function Get(f: PtrField): (r: bv64)
      reads this
      ensures r <= Mask64(f.Width())
    {
      GetField(bitfield1, f)
    }

    /** What every setter promises: its field reads back `val` truncated, all others are kept. */
    twostate predicate SetOnly(f: PtrField, val: bv64)
      reads this
    {
      && bitfield1 == SetField(old(bitfield1), f, val)
      && Get(f) == Truncated(f, val)
      && forall g: PtrField :: g != f ==> Get(g) == old(Get(g))
    }

    method SetFieldValue(f: PtrField, val: bv64)
      modifies this`bitfield1
      ensures SetOnly(f, val)
    {
      SetFieldReads(bitfield1, f, val);
      bitfield1 := SetField(bitfield1, f, val);
    }

    function Type(): (r: bv64) reads this ensures r <= 1 { Get(PtrType) }
    function Cached(): (r: bv64) reads this ensures r <= 1 { Get(PtrCached) }
    function Unused(): (r: bv64) reads this ensures r <= 1 { Get(PtrUnused) }
    function Unwritten(): (r: bv64) reads this ensures r <= 1 { Get(PtrUnwritten) }
    function Offset(): (r: bv64) reads this ensures r <= 0xFFF_FFFF_FFFF { Get(PtrOffset) }
    function Dev(): (r: bv64) reads this ensures r <= 0xFF { Get(PtrDev) }
    function Gen(): (r: bv64) reads this ensures r <= 0xFF { Get(PtrGen) }

    method SetType(val: bv64) modifies this`bitfield1 ensures SetOnly(PtrType, val) { SetFieldValue(PtrType, val); }
    method SetCached(val: bv64) modifies this`bitfield1 ensures SetOnly(PtrCached, val) { SetFieldValue(PtrCached, val); }
    method SetUnused(val: bv64) modifies this`bitfield1 ensures SetOnly(PtrUnused, val) { SetFieldValue(PtrUnused, val); }
    method SetUnwritten(val: bv64) modifies this`bitfield1 ensures SetOnly(PtrUnwritten, val) { SetFieldValue(PtrUnwritten, val); }
    method SetOffset(val: bv64) modifies this`bitfield1 ensures SetOnly(PtrOffset, val) { SetFieldValue(PtrOffset, val); }
    method SetDev(val: bv64) modifies this`bitfield1 ensures SetOnly(PtrDev, val) { SetFieldValue(PtrDev, val); }
    method SetGen(val: bv64) modifies this`bitfield1 ensures SetOnly(PtrGen, val) { SetFieldValue(PtrGen, val); }

    /** `bch_extent_ptr::new_bitfield_1`: a zeroed unit with the seven fields set in bit order. */
    static method NewBitfield1(type_: bv64, cached: bv64, unused: bv64, unwritten: bv64,
                               offset: bv64, dev: bv64, gen: bv64) returns (unit: bv64)
      ensures GetField(unit, PtrType) == Truncated(PtrType, type_)
      ensures GetField(unit, PtrCached) == Truncated(PtrCached, cached)
      ensures GetField(unit, PtrUnused) == Truncated(PtrUnused, unused)
      ensures GetField(unit, PtrUnwritten) == Truncated(PtrUnwritten, unwritten)
      ensures GetField(unit, PtrOffset) == Truncated(PtrOffset, offset)
      ensures GetField(unit, PtrDev) == Truncated(PtrDev, dev)
      ensures GetField(unit, PtrGen) == Truncated(PtrGen, gen)
    {
      unit := 0;
      SetFieldReads(unit, PtrType, type_);
      unit := SetField(unit, PtrType, type_);
      SetFieldReads(unit, PtrCached, cached);
      unit := SetField(unit, PtrCached, cached);
      SetFieldReads(unit, PtrUnused, unused);
      unit := SetField(unit, PtrUnused, unused);
      SetFieldReads(unit, PtrUnwritten, unwritten);
      unit := SetField(unit, PtrUnwritten, unwritten);
      SetFieldReads(unit, PtrOffset, offset);
      unit := SetField(unit, PtrOffset, offset);
      SetFieldReads(unit, PtrDev, dev);
      unit := SetField(unit, PtrDev, dev);
      SetFieldReads(unit, PtrGen, gen);
      unit := SetField(unit, PtrGen, gen);
    }
  }
}
