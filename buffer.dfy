/** GPU buffers with a tracked byte capacity (src/buffer.rs). The driver's data
    store of each buffer is a ghost byte sequence. */
module Buffers {
  import opened Golem

  /** The native little-endian bytes of one 32-bit word (an `f32` bit pattern
      or a `u32`), as `bytemuck::cast_slice` exposes them. */
  function WordBytes(w: bv32): (b: seq<bv8>)
    ensures |b| == 4
  {
    [(w & 0xFF) as bv8, ((w >> 8) & 0xFF) as bv8, ((w >> 16) & 0xFF) as bv8, (w >> 24) as bv8]
  }

  function BytesWord(b: seq<bv8>): bv32
    requires |b| == 4
  {
    (b[0] as bv32) | ((b[1] as bv32) << 8) | ((b[2] as bv32) << 16) | ((b[3] as bv32) << 24)
  }

  lemma WordBytesRoundTrip(w: bv32)
    ensures BytesWord(WordBytes(w)) == w
  {
  }

  /** `bytemuck::cast_slice` from a slice of 32-bit words to bytes. */
  function CastSlice(ws: seq<bv32>): (bs: seq<bv8>)
    ensures |bs| == 4 * |ws|
  {
    if ws == [] then [] else WordBytes(ws[0]) + CastSlice(ws[1..])
  }

  /** Reads a byte sequence back as 32-bit words. */
  function Words(bs: seq<bv8>): seq<bv32>
    requires |bs| % 4 == 0
  {
    if bs == [] then [] else [BytesWord(bs[..4])] + Words(bs[4..])
  }

  /** The cast to bytes loses nothing: the words can be read back. */
  lemma {:induction false} WordsOfCastSlice(ws: seq<bv32>)
    ensures Words(CastSlice(ws)) == ws
  {
    if ws != [] {
      var bs := CastSlice(ws);
      assert bs[..4] == WordBytes(ws[0]);
      assert bs[4..] == CastSlice(ws[1..]);
      WordBytesRoundTrip(ws[0]);
      WordsOfCastSlice(ws[1..]);
    }
  }

  /** The tracked length after writing `d` bytes: when the data is at least as
      long as the buffer, the buffer is reallocated at twice the data's size. */
  function GrownLength(length: nat, d: nat): (r: nat)
    ensures r >= d && r >= length
    ensures d >= length ==> r == 2 * d
    ensures d < length ==> r == length
  {
    if d >= length then d * 2 else length
  }

  /** Writing the same non-empty data a second time never reallocates. */
  lemma SecondWriteDoesNotGrow(length: nat, d: nat)
    requires d > 0
    ensures d < GrownLength(length, d)
    ensures GrownLength(GrownLength(length, d), d) == GrownLength(length, d)
  {
  }

  /** Right after a growing write of `d > 0` bytes, a write of `d2` bytes at
      offset 0 passes `set_sub_data`'s strict bound exactly when `d2 < 2 * d`:
      one that would fill the whole reallocated store is refused. */
  lemma SubWriteFitsAfterGrowth(length: nat, d: nat, d2: nat)
    requires 0 < d && length <= d
    ensures 0 + d2 < GrownLength(length, d) <==> d2 < 2 * d
  {
  }

  class Buffer {
    const id: Handle
    /** The tracked byte length of the driver's store. */
    var length: nat
    /** The driver's data store. */
    ghost var store: seq<bv8>

    ghost predicate Valid()
      reads this
    {
      |store| == length
    }

    /** A fresh buffer has no store yet: tracked length 0. */
    constructor (id: Handle)
      ensures Valid()
      ensures this.id == id && length == 0 && store == []
    {
      this.id := id;
      length := 0;
      store := [];
    }

    /** `Buffer::new`: creates the driver buffer; a driver failure becomes
        `ContextError`. */
    static method New(created: Created) returns (r: Result<Buffer>)
      ensures created.DriverError? ==> r == Err(ContextError(created.message))
      ensures created.Created? ==> r.Ok? && fresh(r.value) && r.value.Valid()
      ensures created.Created? ==> r.value.id == created.handle && r.value.length == 0
    {
      match created {
        case DriverError(msg) => r := Err(ContextError(msg));
        case Created(h) =>
          var b := new Buffer(h);
          r := Ok(b);
      }
    }

    /** `set_data`: reallocates to twice the data's byte length when the data
        is at least as long as the tracked length, then writes it at offset 0. */
    method SetData(bytes: seq<bv8>)
      requires Valid()
      modifies this
      ensures Valid()
      ensures length == GrownLength(old(length), |bytes|)
      ensures length >= |bytes| && length >= old(length)
      ensures store[..|bytes|] == bytes
      ensures |bytes| < old(length) ==> store[|bytes|..] == old(store)[|bytes|..]
    {
      var dataLength := |bytes|;
      if dataLength >= length {
        var newLength := dataLength * 2;
        // Freshly allocated storage has undefined contents.
        assert |seq(newLength, _ => 0 as bv8)| == newLength;
        ghost var blank: seq<bv8> :| |blank| == newLength;
        store := blank;
        length := newLength;
      }
      store := bytes + store[dataLength..];
    }

    /** `set_sub_data`: writes `bytes` at byte offset `start`; the assertion
        demands that the write end strictly before the tracked length. */
    method SetSubData(start: nat, bytes: seq<bv8>)
      requires Valid()
      requires start + |bytes| < length
      modifies this`store
      ensures Valid()
      ensures store == old(store)[..start] + bytes + old(store)[start + |bytes|..]
    {
      store := store[..start] + bytes + store[start + |bytes|..];
    }
  }

  /** `VertexBuffer`: a buffer of `f32` vertex data, held as bit patterns. */
  class VertexBuffer {
    const buffer: Buffer

    ghost predicate Valid()
      reads this, buffer
    {
      buffer.Valid()
    }

    constructor (buffer: Buffer)
      ensures this.buffer == buffer
    {
      this.buffer := buffer;
    }

    /** `VertexBuffer::new`. */
    static method New(created: Created) returns (r: Result<VertexBuffer>)
      ensures created.DriverError? ==> r == Err(ContextError(created.message))
      ensures created.Created? ==> r.Ok? && fresh(r.value) && fresh(r.value.buffer) && r.value.Valid()
      ensures created.Created? ==> r.value.buffer.id == created.handle && r.value.Size() == 0
    {
      var b := Buffer.New(created);
      match b {
        case Err(e) => r := Err(e);
        case Ok(buf) =>
          var vb := new VertexBuffer(buf);
          r := Ok(vb);
      }
    }

    /** `size()`: the tracked capacity in bytes, not the element count. */
    function Size(): (r: nat)
      reads this, buffer
      requires Valid()
      ensures r == |buffer.store|
    {
      buffer.length
    }

    /** `set_data` over `f32` words: `4 * |data|` bytes. */
    method SetData(data: seq<bv32>)
      requires Valid()
      modifies buffer
      ensures Valid()
      ensures Size() == GrownLength(old(Size()), 4 * |data|)
      ensures buffer.store[..4 * |data|] == CastSlice(data)
      ensures Words(buffer.store[..4 * |data|]) == data
      ensures 4 * |data| < old(Size()) ==> buffer.store[4 * |data|..] == old(buffer.store)[4 * |data|..]
    {
      var bytes := CastSlice(data);
      buffer.SetData(bytes);
      WordsOfCastSlice(data);
    }

    /** `set_sub_data` over `f32` words; `start` is a byte offset. */
    method SetSubData(start: nat, data: seq<bv32>)
      requires Valid()
      requires start + 4 * |data| < Size()
      modifies buffer`store
      ensures Valid()
      ensures buffer.store == old(buffer.store)[..start] + CastSlice(data) + old(buffer.store)[start + 4 * |data|..]
    {
      buffer.SetSubData(start, CastSlice(data));
    }
  }

  /** `ElementBuffer`: a buffer of `u32` indices. */
  class ElementBuffer {
    const buffer: Buffer

    ghost predicate Valid()
      reads this, buffer
    {
      buffer.Valid()
    }

    constructor (buffer: Buffer)
      ensures this.buffer == buffer
    {
      this.buffer := buffer;
    }

    /** `ElementBuffer::new`. */
    static method New(created: Created) returns (r: Result<ElementBuffer>)
      ensures created.DriverError? ==> r == Err(ContextError(created.message))
      ensures created.Created? ==> r.Ok? && fresh(r.value) && fresh(r.value.buffer) && r.value.Valid()
      ensures created.Created? ==> r.value.buffer.id == created.handle && r.value.Size() == 0
    {
      var b := Buffer.New(created);
      match b {
        case Err(e) => r := Err(e);
        case Ok(buf) =>
          var eb := new ElementBuffer(buf);
          r := Ok(eb);
      }
    }

    /** `size()`: the tracked capacity in bytes, not the element count. */
    function Size(): (r: nat)
      reads this, buffer
      requires Valid()
      ensures r == |buffer.store|
    {
      buffer.length
    }

    /** `set_data` over `u32` indices: `4 * |data|` bytes. */
    method SetData(data: seq<bv32>)
      requires Valid()
      modifies buffer
      ensures Valid()
      ensures Size() == GrownLength(old(Size()), 4 * |data|)
      ensures buffer.store[..4 * |data|] == CastSlice(data)
      ensures Words(buffer.store[..4 * |data|]) == data
      ensures 4 * |data| < old(Size()) ==> buffer.store[4 * |data|..] == old(buffer.store)[4 * |data|..]
    {
      var bytes := CastSlice(data);
      buffer.SetData(bytes);
      WordsOfCastSlice(data);
    }

    /** `set_sub_data` over `u32` indices; `start` is a byte offset. */
    method SetSubData(start: nat, data: seq<bv32>)
      requires Valid()
      requires start + 4 * |data| < Size()
      modifies buffer`store
      ensures Valid()
      ensures buffer.store == old(buffer.store)[..start] + CastSlice(data) + old(buffer.store)[start + 4 * |data|..]
    {
      buffer.SetSubData(start, CastSlice(data));
    }
  }
}
