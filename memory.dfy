/** `Memory`: filling a byte buffer with a repeated 4-byte value. The buffer is
    an array of bytes, indices are byte offsets, counts are numbers of 4-byte
    blocks. The host is little-endian (as every Apple platform is), so a native
    32-bit store writes the least significant byte first, and a store of
    `value.bigEndian` writes the most significant byte first. */
module Memory {
  import opened Options

  /** The size of one block, in bytes. */
  const BufferBlockSize: nat := 4

  // ---------------------------------------------------------------------------
  // Byte order

  /** The bytes of `v` as a native store on a little-endian host lays them out. */
  function LittleEndianBytes(v: bv32): (b: seq<bv8>)
    ensures |b| == BufferBlockSize
    ensures FromLittleEndianBytes(b) == v
  {
    [(v & 0xFF) as bv8, ((v >> 8) & 0xFF) as bv8, ((v >> 16) & 0xFF) as bv8, (v >> 24) as bv8]
  }

  /** The value whose little-endian layout is `b`. */
  function FromLittleEndianBytes(b: seq<bv8>): bv32
    requires |b| == BufferBlockSize
  {
    (b[0] as bv32) | ((b[1] as bv32) << 8) | ((b[2] as bv32) << 16) | ((b[3] as bv32) << 24)
  }

  /** The bytes of `v`, most significant first: the little-endian layout reversed. */
  function BigEndianBytes(v: bv32): (b: seq<bv8>)
    ensures |b| == BufferBlockSize
    ensures var le := LittleEndianBytes(v); b == [le[3], le[2], le[1], le[0]]
  {
    [(v >> 24) as bv8, ((v >> 16) & 0xFF) as bv8, ((v >> 8) & 0xFF) as bv8, (v & 0xFF) as bv8]
  }

  /** `value.bigEndian` on a little-endian host: the byte-swapped value, whose
      native layout is the big-endian layout of `v`. */
  function ByteSwap(v: bv32): (r: bv32)
    ensures LittleEndianBytes(r) == BigEndianBytes(v)
  {
    ((v & 0xFF) << 24) | (((v >> 8) & 0xFF) << 16) | (((v >> 16) & 0xFF) << 8) | (v >> 24)
  }

  /** The little-endian layout determines the value. */
  lemma LittleEndianBytesInjective(v: bv32, w: bv32)
    ensures LittleEndianBytes(v) == LittleEndianBytes(w) <==> v == w
  {
    if LittleEndianBytes(v) == LittleEndianBytes(w) {
      assert FromLittleEndianBytes(LittleEndianBytes(v)) == FromLittleEndianBytes(LittleEndianBytes(w));
    }
  }

  /** Swapping twice restores the value. */
  lemma ByteSwapInvolution(v: bv32)
    ensures ByteSwap(ByteSwap(v)) == v
  {
    var le := LittleEndianBytes(v);
    var once := LittleEndianBytes(ByteSwap(v));
    assert once == [le[3], le[2], le[1], le[0]];
    assert LittleEndianBytes(ByteSwap(ByteSwap(v))) == [once[3], once[2], once[1], once[0]] == le;
    LittleEndianBytesInjective(ByteSwap(ByteSwap(v)), v);
  }

  // ---------------------------------------------------------------------------
  // The effect of a fill, as a function of the old contents

  /** The first `n` bytes that `memset_pattern4` writes with `pattern`. */
  function Pattern(pattern: seq<bv8>, n: nat): (r: seq<bv8>)
    requires |pattern| == BufferBlockSize
    ensures |r| == n
  {
    if n == 0 then [] else Pattern(pattern, n - 1) + [pattern[(n - 1) % 4]]
  }

  /** `buf` with the `n` bytes from `base` on replaced by the repeated pattern. */
  function Fill(buf: seq<bv8>, base: nat, pattern: seq<bv8>, n: nat): (r: seq<bv8>)
    requires |pattern| == BufferBlockSize && base + n <= |buf|
    ensures |r| == |buf|
  {
    buf[..base] + Pattern(pattern, n) + buf[base + n..]
  }

  /** Byte `i` of the pattern is byte `i mod 4` of the block. */
  lemma {:induction false} PatternBytes(pattern: seq<bv8>, n: nat)
    requires |pattern| == BufferBlockSize
    ensures forall i :: 0 <= i < n ==> Pattern(pattern, n)[i] == pattern[i % 4]
  {
    if n > 0 {
      PatternBytes(pattern, n - 1);
    }
  }

  /** A fill changes exactly the bytes in `[base, base + n)`, and the byte at
      offset `i` from `base` is byte `i mod 4` of the pattern. */
  lemma FillBytes(buf: seq<bv8>, base: nat, pattern: seq<bv8>, n: nat)
    requires |pattern| == BufferBlockSize && base + n <= |buf|
    ensures forall i :: 0 <= i < |buf| && !(base <= i < base + n) ==> Fill(buf, base, pattern, n)[i] == buf[i]
    ensures forall i :: base <= i < base + n ==> Fill(buf, base, pattern, n)[i] == pattern[(i - base) % 4]
  {
    PatternBytes(pattern, n);
  }

  /** A fill of `count` blocks leaves every block in the range equal to the
      pattern. */
  lemma FillBlocks(buf: seq<bv8>, base: nat, pattern: seq<bv8>, count: nat)
    requires |pattern| == BufferBlockSize && base + BufferBlockSize * count <= |buf|
    ensures forall k :: 0 <= k < count ==>
      Fill(buf, base, pattern, BufferBlockSize * count)[base + 4 * k .. base + 4 * k + 4] == pattern
  {
    FillBytes(buf, base, pattern, BufferBlockSize * count);
    forall k | 0 <= k < count
      ensures Fill(buf, base, pattern, BufferBlockSize * count)[base + 4 * k .. base + 4 * k + 4] == pattern
    {
      var r := Fill(buf, base, pattern, BufferBlockSize * count);
      forall j | 0 <= j < 4
        ensures r[base + 4 * k + j] == pattern[j]
      {
        assert (base + 4 * k + j - base) % 4 == j;
      }
    }
  }

  // ---------------------------------------------------------------------------
  // The operations, in place

  /** `memset_pattern4(base, &pattern, n)`: writes `n` bytes from `base` on,
      cycling through the 4-byte pattern. */
  method MemsetPattern4(a: array<bv8>, base: nat, pattern: seq<bv8>, n: nat)
    requires |pattern| == BufferBlockSize && base + n <= a.Length
    modifies a
    ensures a[..] == Fill(old(a[..]), base, pattern, n)
  {
    ghost var original := a[..];
    var i := 0;
    while i < n
      invariant 0 <= i <= n
      invariant a[..] == Fill(original, base, pattern, i)
    {
      assert Fill(original, base, pattern, i + 1) == Fill(original, base, pattern, i)[base + i := pattern[i % 4]] by {
        FillBytes(original, base, pattern, i);
        FillBytes(original, base, pattern, i + 1);
      }
      a[base + i] := pattern[i % 4];
      i := i + 1;
    }
  }

  /** `storeBytes(of: v, as: UInt32.self)` at byte offset `at`: the native
      (little-endian) layout of `v`. */
  method Store(a: array<bv8>, at: nat, v: bv32)
    requires at + BufferBlockSize <= a.Length
    modifies a
    ensures a[..] == Fill(old(a[..]), at, LittleEndianBytes(v), BufferBlockSize)
  {
    ghost var original := a[..];
    var bytes := LittleEndianBytes(v);
    a[at] := bytes[0];
    a[at + 1] := bytes[1];
    a[at + 2] := bytes[2];
    a[at + 3] := bytes[3];
    FillBytes(original, at, bytes, BufferBlockSize);
  }

  /** The raw-pointer `fastcopy`: `count` copies of `value` in native
      (little-endian) order from `base` on. Writing outside the buffer is
      undefined, so the caller must keep within it. */
  method FastCopyRaw(a: array<bv8>, base: nat, count: nat, value: bv32)
    requires base + BufferBlockSize * count <= a.Length
    modifies a
    ensures a[..] == Fill(old(a[..]), base, LittleEndianBytes(value), BufferBlockSize * count)
  {
    var rvalue := value;
    MemsetPattern4(a, base, LittleEndianBytes(rvalue), count * BufferBlockSize);
  }

  /** `slightly_slower_fastcopy`: the same fill in big-endian order, with the
      one- and two-block cases written as direct stores. */
  method SlightlySlowerFastCopy(a: array<bv8>, base: nat, count: nat, value: bv32)
    requires base + BufferBlockSize * count <= a.Length
    modifies a
    ensures a[..] == Fill(old(a[..]), base, BigEndianBytes(value), BufferBlockSize * count)
  {
    ghost var original := a[..];
    var rvalue := ByteSwap(value);
    var pattern := LittleEndianBytes(rvalue);
    if count == 1 {
      Store(a, base, rvalue);
    } else if count == 2 {
      Store(a, base, rvalue);
      ghost var middle := a[..];
      Store(a, base + BufferBlockSize, rvalue);
      FillBytes(original, base, pattern, BufferBlockSize);
      FillBytes(middle, base + BufferBlockSize, pattern, BufferBlockSize);
      FillBytes(original, base, pattern, 8);
      forall i | 0 <= i < a.Length
        ensures a[..][i] == Fill(original, base, pattern, 8)[i]
      {
        if base + 4 <= i < base + 8 {
          assert (i - (base + 4)) % 4 == (i - base) % 4;
        }
      }
    } else {
      MemsetPattern4(a, base, pattern, count * BufferBlockSize);
    }
  }

  /** `fastcopy(to: &buffer, index:, count:, value:)`: when the `count` blocks
      from byte `index` on fit in the buffer, each of them receives `value` in
      big-endian order (the same stores as `SlightlySlowerFastCopy`);
      otherwise nothing is written. A negative `count` is not valid (the
      pattern fill would be given a negative length). */
  method FastCopy(buffer: array<bv8>, index: int, count: int, value: bv32)
    requires 0 <= count
    modifies buffer
    ensures InBounds(buffer.Length, index, count) ==>
              buffer[..] == Fill(old(buffer[..]), index, BigEndianBytes(value), BufferBlockSize * count)
    ensures !InBounds(buffer.Length, index, count) ==> buffer[..] == old(buffer[..])
  {
    var byteIndex := index;
    var byteCount := count * BufferBlockSize;
    if !(byteIndex >= 0 && byteIndex + byteCount <= buffer.Length) {
      return;
    }
    SlightlySlowerFastCopy(buffer, byteIndex, count, value);
  }

  /** The guard of `fastcopy`. */
  predicate InBounds(length: nat, index: int, count: nat) {
    0 <= index && index + BufferBlockSize * count <= length
  }

  /** What `fastcopy` leaves in the buffer: the length is kept, every byte
      outside the written range is kept, and every written block is the
      big-endian layout of the value. */
  lemma FastCopyEffect(buf: seq<bv8>, index: nat, count: nat, value: bv32)
    requires InBounds(|buf|, index, count)
    ensures var r := Fill(buf, index, BigEndianBytes(value), BufferBlockSize * count);
            && |r| == |buf|
            && (forall i :: 0 <= i < |buf| && !(index <= i < index + 4 * count) ==> r[i] == buf[i])
            && (forall k :: 0 <= k < count ==> r[index + 4 * k .. index + 4 * k + 4] == BigEndianBytes(value))
  {
    FillBytes(buf, index, BigEndianBytes(value), BufferBlockSize * count);
    FillBlocks(buf, index, BigEndianBytes(value), count);
  }

  /** The raw `fastcopy` and the checked one write the same blocks in opposite
      byte orders: the raw one's layout is the byte-swapped value's. */
  lemma RawAndCheckedOrders(value: bv32)
    ensures BigEndianBytes(value) == LittleEndianBytes(ByteSwap(value))
    ensures LittleEndianBytes(value) == BigEndianBytes(ByteSwap(value))
  {
    ByteSwapInvolution(value);
  }

  /** `allocate(size, initialize:)`: a buffer of `size` bytes, every one of
      them `initialize` when it is given and positive; otherwise the contents
      are not specified. */
  method Allocate(size: nat, initialize: Option<bv8> := None) returns (a: array<bv8>)
    ensures fresh(a) && a.Length == size
    ensures initialize.Some? && initialize.value > 0 ==> forall i :: 0 <= i < size ==> a[i] == initialize.value
  {
    if initialize.Some? && initialize.value > 0 {
      a := new bv8[size](_ => initialize.value);
    } else {
      a := new bv8[size];
    }
  }
}
