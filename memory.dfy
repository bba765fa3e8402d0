/**
 * Byte buffers: the read-only ReadMemory and the mutable ReadWriteMemory.
 *
 * Both own a sequence of bytes. Callers hand in raw byte buffers as arrays
 * together with the number of bytes that are meant (the C++ `char*` plus a
 * size), so every caller-side buffer is an `array<byte>` that is at least that
 * long.
 */
module Memory {
  import opened Errors

  /** The first `size` bytes of a caller's buffer, read one by one. */
  method ReadBytes(source: array<byte>, size: nat) returns (s: seq<byte>)
    requires size <= source.Length
    ensures s == source[..size]
  {
    s := [];
    var i := 0;
    while i < size
      invariant 0 <= i <= size
      invariant s == source[..i]
    {
      s := s + [source[i]];
      i := i + 1;
    }
  }

  /** Copies `source[offset..offset + count]` into the front of `destination`. */
  method CopyOut(source: seq<byte>, offset: nat, destination: array<byte>, count: nat)
    requires offset + count <= |source|
    requires count <= destination.Length
    modifies destination
    ensures forall k :: 0 <= k < count ==> destination[k] == source[offset + k]
    ensures forall k :: count <= k < destination.Length ==> destination[k] == old(destination[k])
  {
    var i := 0;
    while i < count
      invariant 0 <= i <= count
      invariant forall k :: 0 <= k < i ==> destination[k] == source[offset + k]
      invariant forall k :: i <= k < destination.Length ==> destination[k] == old(destination[k])
    {
      destination[i] := source[offset + i];
      i := i + 1;
    }
  }

  /** `target` with the bytes from `offset` on replaced by `patch`. */
  function Overwritten(target: seq<byte>, offset: nat, patch: seq<byte>): seq<byte>
    requires offset + |patch| <= |target|
  {
    target[..offset] + patch + target[offset + |patch|..]
  }

  /** Overwriting a region keeps the length, puts the patch in the region and nothing else moves. */
  lemma OverwrittenAt(target: seq<byte>, offset: nat, patch: seq<byte>, k: nat)
    requires offset + |patch| <= |target|
    requires k < |target|
    ensures |Overwritten(target, offset, patch)| == |target|
    ensures Overwritten(target, offset, patch)[k] ==
              if offset <= k < offset + |patch| then patch[k - offset] else target[k]
  {
    var r := Overwritten(target, offset, patch);
    assert r == (target[..offset] + patch) + target[offset + |patch|..];
    if k < offset {
      assert r[k] == target[..offset][k];
    } else if k < offset + |patch| {
      assert r[k] == (target[..offset] + patch)[k];
    } else {
      assert r[k] == target[offset + |patch|..][k - offset - |patch|];
    }
  }

  /** `s` cut or extended with zero bytes to exactly `n` bytes. */
  function Resized(s: seq<byte>, n: nat): (r: seq<byte>)
    ensures |r| == n
    ensures forall k :: 0 <= k < n ==> r[k] == if k < |s| then s[k] else 0
  {
    if n <= |s| then s[..n] else s + Zeros(n - |s|)
  }

  function Zeros(n: nat): (r: seq<byte>)
    ensures |r| == n && forall k :: 0 <= k < n ==> r[k] == 0
  {
    seq(n, _ => 0)
  }

  /**
   * The copy rule of `data`: copies all of `content` into `destination` when
   * `destinationSize` is large enough, and otherwise copies nothing; in both
   * cases returns the number of bytes the destination needs.
   */
  method CopyAll(content: seq<byte>, destination: array<byte>, destinationSize: nat) returns (required: nat)
    requires destinationSize <= destination.Length
    modifies destination
    ensures required == |content|
    ensures destinationSize >= |content| ==> destination[..|content|] == content
    ensures destinationSize < |content| ==> destination[..] == old(destination[..])
    ensures forall k :: |content| <= k < destination.Length ==> destination[k] == old(destination[k])
  {
    required := |content|;
    if destinationSize >= |content| {
      CopyOut(content, 0, destination, |content|);
      assert destination[..|content|] == content;
    }
  }

  /**
   * The copy rule of `regionData`: copies the `destinationSize` bytes of
   * `content` starting at `sourceOffset` into `destination`, or fails with
   * MemorySizeError and copies nothing when `content` is too short for that
   * region.
   */
  method CopyRegion(content: seq<byte>, destination: array<byte>, destinationSize: nat, sourceOffset: nat)
      returns (o: Outcome)
    requires destinationSize <= destination.Length
    modifies destination
    ensures o == Pass <==> sourceOffset + destinationSize <= |content|
    ensures o != Pass ==> o == Fail(MemorySizeError) && destination[..] == old(destination[..])
    ensures o == Pass ==> destination[..destinationSize] == content[sourceOffset..sourceOffset + destinationSize]
    ensures forall k :: destinationSize <= k < destination.Length ==> destination[k] == old(destination[k])
  {
    if sourceOffset + destinationSize > |content| {
      return Fail(MemorySizeError);
    }
    CopyOut(content, sourceOffset, destination, destinationSize);
    assert destination[..destinationSize] == content[sourceOffset..sourceOffset + destinationSize];
    o := Pass;
  }

  /** A read-only buffer of bytes; its content never changes after construction. */
  class ReadMemory {
    const bytes: seq<byte>

    /** An empty buffer. */
    constructor ()
      ensures bytes == []
      ensures Size() == 0 && Empty()
    {
      bytes := [];
    }

    /** A buffer holding a copy of the first `sourceSize` bytes of `source`. */
    constructor FromBytes(source: array<byte>, sourceSize: nat)
      requires sourceSize <= source.Length
      ensures bytes == source[..sourceSize]
      ensures Size() == sourceSize
    {
      var copied := ReadBytes(source, sourceSize);
      bytes := copied;
    }

    function Size(): nat
    {
      |bytes|
    }

    /** True exactly when the memory is zero bytes long. */
    predicate Empty()
      ensures Empty() <==> bytes == []
    {
      Size() == 0
    }

    /** Copies the content out by the rule of CopyAll. */
    method Data(destination: array<byte>, destinationSize: nat) returns (required: nat)
      requires destinationSize <= destination.Length
      modifies destination
      ensures required == Size()
      ensures destinationSize >= Size() ==> destination[..Size()] == bytes
      ensures destinationSize < Size() ==> destination[..] == old(destination[..])
      ensures forall k :: Size() <= k < destination.Length ==> destination[k] == old(destination[k])
    {
      required := CopyAll(bytes, destination, destinationSize);
    }

    /** Copies a region out by the rule of CopyRegion. */
    method RegionData(destination: array<byte>, destinationSize: nat, sourceOffset: nat) returns (o: Outcome)
      requires destinationSize <= destination.Length
      modifies destination
      ensures o == Pass <==> sourceOffset + destinationSize <= Size()
      ensures o != Pass ==> o == Fail(MemorySizeError) && destination[..] == old(destination[..])
      ensures o == Pass ==> destination[..destinationSize] == bytes[sourceOffset..sourceOffset + destinationSize]
      ensures forall k :: destinationSize <= k < destination.Length ==> destination[k] == old(destination[k])
    {
      o := CopyRegion(bytes, destination, destinationSize, sourceOffset);
    }
  }

  /**
   * A buffer of bytes that can be resized and overwritten in place. It offers
   * the same read operations as ReadMemory.
   */
  class ReadWriteMemory {
    var bytes: seq<byte>

    /** An empty buffer. */
    constructor ()
      ensures bytes == [] && Empty()
    {
      bytes := [];
    }

    /** A buffer of `initialSize` zero bytes. */
    constructor WithSize(initialSize: nat)
      ensures bytes == Zeros(initialSize)
      ensures Size() == initialSize
    {
      bytes := Zeros(initialSize);
    }

    /** A buffer holding a copy of the content of `sourceMemory`. */
    constructor FromMemory(sourceMemory: ReadMemory)
      ensures bytes == sourceMemory.bytes
    {
      bytes := sourceMemory.bytes;
    }

    /** A buffer holding a copy of the first `sourceSize` bytes of `source`. */
    constructor FromBytes(source: array<byte>, sourceSize: nat)
      requires sourceSize <= source.Length
      ensures bytes == source[..sourceSize]
      ensures Size() == sourceSize
    {
      var copied := ReadBytes(source, sourceSize);
      bytes := copied;
    }

    function Size(): nat
      reads this
    {
      |bytes|
    }

    /** True exactly when the memory is zero bytes long. */
    predicate Empty()
      reads this
      ensures Empty() <==> bytes == []
    {
      Size() == 0
    }

    /** Same as ReadMemory.Data. */
    method Data(destination: array<byte>, destinationSize: nat) returns (required: nat)
      requires destinationSize <= destination.Length
      modifies destination
      ensures required == Size()
      ensures destinationSize >= Size() ==> destination[..Size()] == bytes
      ensures destinationSize < Size() ==> destination[..] == old(destination[..])
      ensures forall k :: Size() <= k < destination.Length ==> destination[k] == old(destination[k])
    {
      required := CopyAll(bytes, destination, destinationSize);
    }

    /** Same as ReadMemory.RegionData. */
    method RegionData(destination: array<byte>, destinationSize: nat, sourceOffset: nat) returns (o: Outcome)
      requires destinationSize <= destination.Length
      modifies destination
      ensures o == Pass <==> sourceOffset + destinationSize <= Size()
      ensures o != Pass ==> o == Fail(MemorySizeError) && destination[..] == old(destination[..])
      ensures o == Pass ==> destination[..destinationSize] == bytes[sourceOffset..sourceOffset + destinationSize]
      ensures forall k :: destinationSize <= k < destination.Length ==> destination[k] == old(destination[k])
    {
      o := CopyRegion(bytes, destination, destinationSize, sourceOffset);
    }

    /** Replaces the content with a copy of the content of `sourceMemory`. */
    method CopyFrom(sourceMemory: ReadMemory)
      modifies this
      ensures bytes == sourceMemory.bytes
    {
      bytes := sourceMemory.bytes;
    }

    /** Resizes the memory to zero bytes. */
    method Clear()
      modifies this
      ensures bytes == [] && Size() == 0
    {
      bytes := [];
    }

    /** Resizes the memory to `newSize` bytes, keeping the bytes that still fit. */
    method Resize(newSize: nat)
      modifies this
      ensures bytes == Resized(old(bytes), newSize)
      ensures Size() == newSize
    {
      bytes := Resized(bytes, newSize);
    }

    /** Reserves room for `reserveSize` bytes; neither the size nor the content changes. */
    method Reserve(reserveSize: nat)
      ensures unchanged(this)
    {
    }

    /** Replaces the content with the first `sourceSize` bytes of `source`. */
    method Assign(source: array<byte>, sourceSize: nat)
      requires sourceSize <= source.Length
      modifies this
      ensures bytes == source[..sourceSize]
      ensures Size() == sourceSize
    {
      bytes := ReadBytes(source, sourceSize);
    }

    /**
     * Overwrites the `sourceSize` bytes starting at `destinationOffset` with the
     * first `sourceSize` bytes of `source`, keeping the size, or fails with
     * MemorySizeError and changes nothing when the region does not fit.
     */
    method AssignRegion(source: array<byte>, sourceSize: nat, destinationOffset: nat) returns (o: Outcome)
      requires sourceSize <= source.Length
      modifies this
      ensures o == Pass <==> destinationOffset + sourceSize <= old(Size())
      ensures o != Pass ==> o == Fail(MemorySizeError) && bytes == old(bytes)
      ensures o == Pass ==> bytes == Overwritten(old(bytes), destinationOffset, source[..sourceSize])
      ensures Size() == old(Size())
    {
      if destinationOffset + sourceSize > |bytes| {
        return Fail(MemorySizeError);
      }
      ghost var before := bytes;
      var i := 0;
      while i < sourceSize
        invariant 0 <= i <= sourceSize
        invariant |bytes| == |before|
        invariant forall k :: 0 <= k < |bytes| ==>
                    bytes[k] == if destinationOffset <= k < destinationOffset + i then source[k - destinationOffset] else before[k]
      {
        bytes := bytes[destinationOffset + i := source[i]];
        i := i + 1;
      }
      forall k | 0 <= k < |bytes|
        ensures bytes[k] == Overwritten(before, destinationOffset, source[..sourceSize])[k]
      {
        OverwrittenAt(before, destinationOffset, source[..sourceSize], k);
      }
      assert |Overwritten(before, destinationOffset, source[..sourceSize])| == |bytes|;
      o := Pass;
    }
  }
}
