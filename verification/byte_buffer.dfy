/**
 * The part of a direct NIO byte buffer the processing stages use: a fixed
 * array of bytes with a position and a limit, `clear`, `flip`, bulk `put`,
 * and little-endian `getShort`/`putShort`; plus the decode and encode loops
 * every stage runs between its byte buffers and its float scratch array.
 */
module ByteBuffers {
  import opened Pcm

  class ByteBuffer {
    const data: array<byte>
    var position: nat
    var limit: nat

    ghost predicate Valid()
      reads this
    {
      position <= limit <= data.Length
    }

    function Capacity(): nat
      reads this
    {
      data.Length
    }

    function Remaining(): nat
      reads this
      requires Valid()
    {
      limit - position
    }

    /** The bytes between position and limit: what a reader sees next. */
    ghost function Pending(): (p: seq<byte>)
      reads this, data
      requires Valid()
      ensures |p| == Remaining()
    {
      data[position..limit]
    }

    /** `allocateDirect(capacity)`: zero-filled, position 0, limit at capacity. */
    constructor Allocate(capacity: nat)
      ensures Valid() && fresh(data) && data.Length == capacity
      ensures position == 0 && limit == capacity
      ensures forall i :: 0 <= i < capacity ==> data[i] == 0
    {
      data := new byte[capacity](_ => 0);
      position := 0;
      limit := capacity;
    }

    predicate HasRemaining()
      reads this
    {
      position < limit
    }

    /** Position back to 0, limit up to capacity; the bytes stay. */
    method Clear()
      requires Valid()
      modifies this
      ensures Valid() && position == 0 && limit == data.Length
    {
      position := 0;
      limit := data.Length;
    }

    /** Limit to the current position, position back to 0: what was written becomes readable. */
    method Flip()
      requires Valid()
      modifies this
      ensures Valid() && limit == old(position) && position == 0
    {
      limit := position;
      position := 0;
    }

    /**
     * Bulk `put(src)`: copies src's pending bytes to this buffer's position
     * and advances both positions. The caller has checked that they fit.
     */
    method Put(src: ByteBuffer)
      requires Valid() && src.Valid() && src != this && src.data != data
      requires src.Remaining() <= Remaining()
      modifies this, data, src
      ensures Valid() && src.Valid()
      ensures position == old(position) + old(src.Remaining()) && limit == old(limit)
      ensures data[..] == old(data[..position]) + old(src.Pending()) + old(data[position + src.Remaining()..])
      ensures src.position == src.limit == old(src.limit)
    {
      var m := src.limit - src.position;
      forall k | 0 <= k < m {
        data[position + k] := src.data[src.position + k];
      }
      ghost var want := old(data[..position]) + old(src.Pending()) + old(data[position + src.Remaining()..]);
      assert |data[..]| == |want|;
      forall i | 0 <= i < data.Length
        ensures data[i] == want[i]
      {
        if i < position {
        } else if i < position + m {
          assert want[i] == old(src.Pending())[i - position];
        } else {
          assert want[i] == old(data[position + m..])[i - position - m];
        }
      }
      position := position + m;
      src.position := src.limit;
    }

    /** Little-endian `getShort`: the two's-complement value of the next two bytes. */
    method GetShort() returns (v: int)
      requires Valid() && Remaining() >= 2
      modifies this
      ensures Valid() && position == old(position) + 2 && limit == old(limit)
      ensures v == ShortFromBytes(data[old(position)], data[old(position) + 1])
    {
      v := ShortFromBytes(data[position], data[position + 1]);
      position := position + 2;
    }

    /** Little-endian `putShort`: writes the two bytes of `v` at the position. */
    method PutShort(v: int)
      requires Valid() && Remaining() >= 2 && -32768 <= v <= 32767
      modifies this, data
      ensures Valid() && position == old(position) + 2 && limit == old(limit)
      ensures data[..] == old(data[..position]) + ShortToBytes(v) + old(data[position + 2..])
    {
      var bs := ShortToBytes(v);
      data[position] := bs[0];
      data[position + 1] := bs[1];
      position := position + 2;
    }
  }

  /** A fresh `allocateDirect(0)`: what a stage returns when it has nothing to give. */
  predicate Empty(b: ByteBuffer)
    reads b
  {
    b.Capacity() == 0 && b.position == 0 && b.limit == 0
  }

  /**
   * The decode loop: `count` little-endian shorts read from the input's
   * position, each stored as short / 32768 at the front of `samples`.
   */
  method DecodeInto(input: ByteBuffer, samples: array<real>, count: nat)
    requires input.Valid() && 2 * count <= input.Remaining() && count <= samples.Length
    modifies input, samples
    ensures input.Valid() && input.position == old(input.position) + 2 * count
    ensures input.limit == old(input.limit)
    ensures samples[..count] == DecodeShorts(old(input.Pending()), count)
    ensures samples[count..] == old(samples[count..])
  {
    ghost var p := input.Pending();
    ghost var p0 := input.position;
    var i := 0;
    while i < count
      invariant 0 <= i <= count && input.Valid()
      invariant input.position == p0 + 2 * i && input.limit == old(input.limit)
      invariant input.data[p0..input.limit] == p
      invariant samples[..i] == DecodeShorts(p, i)
      invariant samples[count..] == old(samples[count..])
    {
      assert input.data[input.position] == p[2 * i] && input.data[input.position + 1] == p[2 * i + 1];
      var v := input.GetShort();
      samples[i] := v as real / 32768.0;
      assert samples[..i + 1] == DecodeShorts(p, i + 1) by {
        assert samples[i] == Dequantise(v);
        assert samples[..i + 1] == samples[..i] + [samples[i]];
      }
      i := i + 1;
    }
  }

  /**
   * The encode loop: each of the first `count` samples written at the
   * output's position as `trunc(clamp(s, -1, 1) * 32767)`.
   */
  method EncodeFrom(samples: array<real>, count: nat, output: ByteBuffer)
    requires output.Valid() && 2 * count <= output.Remaining() && count <= samples.Length
    modifies output, output.data
    ensures output.Valid() && output.position == old(output.position) + 2 * count
    ensures output.limit == old(output.limit)
    ensures output.data[..] == old(output.data[..output.position]) + EncodeShorts(samples[..count])
                               + old(output.data[output.position + 2 * count..])
  {
    ghost var p0 := output.position;
    ghost var d0 := output.data[..];
    var i := 0;
    while i < count
      invariant 0 <= i <= count && output.Valid()
      invariant output.position == p0 + 2 * i && output.limit == old(output.limit)
      invariant output.data[..] == d0[..p0] + EncodeShorts(samples[..i]) + d0[p0 + 2 * i..]
    {
      var sample := ToShort(samples[i]);
      ghost var before := output.data[..];
      output.PutShort(sample);
      EncodeSnoc(samples[..i], samples[i]);
      SpliceAppend(d0, p0, EncodeShorts(samples[..i]), ShortToBytes(sample), before, output.data[..]);
      assert samples[..i + 1] == samples[..i] + [samples[i]];
      i := i + 1;
    }
    assert samples[..count] == samples[..i];
  }

  /** Writing two bytes just after an encoded run extends the run. */
  lemma SpliceAppend(d0: seq<byte>, p0: nat, e: seq<byte>, b: seq<byte>, data: seq<byte>, data': seq<byte>)
    requires |b| == 2 && p0 + |e| + 2 <= |d0|
    requires data == d0[..p0] + e + d0[p0 + |e|..]
    requires data' == data[..p0 + |e|] + b + data[p0 + |e| + 2..]
    ensures data' == d0[..p0] + (e + b) + d0[p0 + |e| + 2..]
  {
    assert data[..p0 + |e|] == d0[..p0] + e;
    assert data[p0 + |e| + 2..] == d0[p0 + |e| + 2..];
  }
}
