/**
 * The synthetic producer of samples/tb_rust/my_collection.rs: `MyReader` hands out the line
 * "hello bufreader\n" once per unit of `data`, one line per refill.
 */
module SampleReader {
  import opened Types
  import Reader

  /** The line every refill produces: "hello bufreader\n" in ASCII. */
  const HELLO: Bytes := [104, 101, 108, 108, 111, 32, 98, 117, 102, 114, 101, 97, 100, 101, 114, 10]

  /** `n` copies of `s`, one after the other. */
  function Repeat(s: Bytes, n: nat): (r: Bytes)
    ensures |r| == n * |s|
    ensures s != [] ==> (r == [] <==> n == 0)
  {
    if n == 0 then [] else s + Repeat(s, n - 1)
  }

  /** `MyObject`: the value a reader is built from. */
  datatype MyObject = MyObject(data: nat)

  class MyReader {
    var data: nat
    var representation: Bytes
    var pos: nat

    /** The bytes of the current line not yet consumed. */
    function Unread(): Bytes
      reads this
    {
      if pos < |representation| then representation[pos..] else []
    }

    /** Everything this reader still delivers: the rest of this line, then `data` more lines. */
    ghost function Stream(): Bytes
      reads this
    {
      Unread() + Repeat(HELLO, data)
    }

    /** `MyReader::new`: no line yet, `data` lines to come. */
    constructor (data: nat)
      ensures this.data == data && representation == [] && pos == 0
      ensures Unread() == [] && Stream() == Repeat(HELLO, data)
    {
      this.data := data;
      representation := [];
      pos := 0;
    }

    /**
     * `fill_buf`. With lines left and the current one used up, the next line replaces it (or,
     * if the vector cannot grow, `ENOMEM` is returned and nothing changes). Otherwise what is left
     * of the current line, possibly nothing, is returned.
     */
    method FillBuf(allocOk: bool) returns (r: Result<Bytes>)
      modifies this
      ensures Reader.FillBufSpec(old(Unread()), old(Stream()), r, Unread(), Stream())
      ensures data <= old(data)
      ensures r.Err? ==>
        && r.error == ENOMEM && old(data) > 0 && old(pos) >= |old(representation)| && !allocOk
        && data == old(data) && pos == old(pos) && representation == old(representation)
      ensures old(data) > 0 && old(pos) >= |old(representation)| && !allocOk ==> r == Err(ENOMEM)
      ensures old(data) > 0 && old(pos) >= |old(representation)| && allocOk ==>
        r == Ok(HELLO) && representation == HELLO && pos == 0 && data == old(data) - 1
      ensures old(pos) < |old(representation)| ==>
        r == Ok(old(representation)[old(pos)..]) && data == old(data) && pos == old(pos)
        && representation == old(representation)
      ensures old(data) == 0 ==>
        r == Ok(old(Unread())) && data == 0 && pos == old(pos) && representation == old(representation)
    {
      if data > 0 {
        if pos >= |representation| {
          if !allocOk {
            return Err(ENOMEM);
          }
          var buf := HELLO;
          pos := 0;
          representation := buf;
          data := data - 1;
        }
        r := Ok(representation[pos..]);
      } else {
        if pos < |representation| {
          r := Ok(representation[pos..]);
        } else {
          r := Ok([]);
        }
      }
    }

    /** `consume`: `pos += amt`. */
    method Consume(amt: nat)
      modifies this`pos
      ensures pos == old(pos) + amt
      ensures Reader.ConsumeSpec(old(Unread()), old(Stream()), amt, Unread(), Stream())
    {
      pos := pos + amt;
    }
  }

  /** `MyObject::into_bufreader`: every reader is a new object with its own position. */
  method IntoBufReader(obj: MyObject) returns (r: MyReader)
    ensures fresh(r)
    ensures r.data == obj.data && r.Unread() == []
    ensures r.Stream() == Repeat(HELLO, obj.data)
  {
    r := new MyReader(obj.data);
  }
}
