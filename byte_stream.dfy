/**
 * The byte-level reading that `open` and `open_asl` do on their stream:
 * fixed-width unsigned integers and the big-endian 16-bit read of the
 * `byteorder` crate (`read_u16::<BigEndian>`), over a stream that is a
 * sequence of bytes plus a read position.
 */
module ByteStream {
  import opened Wrappers

  newtype u8 = x: int | 0 <= x < 0x100
  newtype u16 = x: int | 0 <= x < 0x1_0000
  newtype u32 = x: int | 0 <= x < 0x1_0000_0000

  /** The I/O failure a read can report: the stream ended before the value was complete. */
  datatype IoError = UnexpectedEof

  /** The two bytes of `v`, most significant first (the big-endian encoding). */
  function EncodeU16(v: u16): (b: seq<u8>)
    ensures |b| == 2
    ensures b[0] as int * 0x100 + b[1] as int == v as int
  {
    [(v / 0x100) as u8, (v % 0x100) as u8]
  }

  /**
   * Reads a big-endian `u16` from the front of `s`: the first byte is the
   * high byte. Fewer than two bytes is an `UnexpectedEof` error, never a
   * zero-padded value.
   */
  function ReadBeU16(s: seq<u8>): (r: Result<u16, IoError>)
    ensures r.Ok? <==> |s| >= 2
    ensures r.Ok? ==> EncodeU16(r.value) == s[..2]
    ensures r.Err? ==> r.error == UnexpectedEof
  {
    if |s| < 2 then Err(UnexpectedEof)
    else Ok((s[0] as int * 0x100 + s[1] as int) as u16)
  }

  /** Decoding an encoded `u16` gives it back, whatever follows it. */
  lemma ReadEncodedU16(v: u16, rest: seq<u8>)
    ensures ReadBeU16(EncodeU16(v) + rest) == Ok(v)
  {
  }

  /**
   * A readable stream: the bytes it holds and the position of the next read.
   * Reading advances `pos`; the bytes themselves never change.
   */
  class Reader {
    const bytes: seq<u8>
    var pos: nat

    ghost predicate Valid()
      reads this
    {
      pos <= |bytes|
    }

    /** The bytes not yet read. */
    function Remaining(): (r: seq<u8>)
      reads this
      requires Valid()
      ensures bytes == bytes[..pos] + r
    {
      bytes[pos..]
    }

    constructor (bytes: seq<u8>)
      ensures Valid()
      ensures this.bytes == bytes && pos == 0
    {
      this.bytes := bytes;
      pos := 0;
    }

    /**
     * `read_u16::<BigEndian>`: on success consumes exactly two bytes; on a
     * short stream reports `UnexpectedEof` and leaves the position alone.
     */
    method ReadU16() returns (r: Result<u16, IoError>)
      requires Valid()
      modifies this
      ensures Valid()
      ensures r == ReadBeU16(old(Remaining()))
      ensures pos == old(pos) + (if r.Ok? then 2 else 0)
    {
      r := ReadBeU16(bytes[pos..]);
      if r.Err? {
        return;
      }
      pos := pos + 2;
    }
  }
}
