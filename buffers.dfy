/**
 * A Netty `ByteBuf` reduced to what the wire codecs use: the bytes written so
 * far and a reader index into them. Reading consumes from the reader index,
 * writing appends at the end.
 */
module Buffers {
  import opened Java

  class ByteBuf {
    /** Every byte written so far; the writer index is `|bytes|`. */
    var bytes: seq<bv8>
    var readerIndex: nat

    ghost predicate Valid()
      reads this
    {
      readerIndex <= |bytes|
    }

    /** The readable bytes, from the reader index to the writer index. */
    function Unread(): seq<bv8>
      reads this
      requires Valid()
    {
      bytes[readerIndex..]
    }

    constructor (contents: seq<bv8>)
      ensures Valid() && bytes == contents && readerIndex == 0
    {
      bytes := contents;
      readerIndex := 0;
    }

    /** `readByte`: the next readable byte; throws when nothing is readable. */
    method ReadByte() returns (r: Except<bv8>)
      requires Valid()
      modifies this
      ensures Valid() && bytes == old(bytes)
      ensures old(readerIndex) < |bytes| ==>
        r == Ok(old(Unread())[0]) && readerIndex == old(readerIndex) + 1
      ensures old(readerIndex) == |bytes| ==>
        r == Throw(IndexOutOfBounds) && readerIndex == old(readerIndex)
    {
      if readerIndex < |bytes| {
        r := Ok(bytes[readerIndex]);
        readerIndex := readerIndex + 1;
      } else {
        r := Throw(IndexOutOfBounds);
      }
    }

    /** `skipBytes(n)`: consume `n` readable bytes. */
    method Skip(n: nat)
      requires Valid() && n <= |Unread()|
      modifies this
      ensures Valid() && bytes == old(bytes)
      ensures readerIndex == old(readerIndex) + n
      ensures Unread() == old(Unread())[n..]
    {
      readerIndex := readerIndex + n;
    }

    /** `writeByte`: append one byte. */
    method WriteByte(b: bv8)
      requires Valid()
      modifies this
      ensures Valid() && readerIndex == old(readerIndex)
      ensures bytes == old(bytes) + [b]
    {
      bytes := bytes + [b];
    }

    /** `writeBytes`: append a run of bytes. */
    method WriteBytes(s: seq<bv8>)
      requires Valid()
      modifies this
      ensures Valid() && readerIndex == old(readerIndex)
      ensures bytes == old(bytes) + s
    {
      bytes := bytes + s;
    }
  }
}
