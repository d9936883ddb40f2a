/** Metal buffers seen from the host, and the copy helpers of Source/Utilities.swift.
    A buffer is `length` bytes holding `length / FloatSize` single-precision values,
    modelled as reals; a buffer pointer is a view (base, start, count) into it. */
module MetalUtilities {
  import opened Outcomes

  /** `sizeof(Float)`, in bytes. */
  const FloatSize := 4

  /** The trap of `UnsafeBufferPointer(start:count:)` on a negative count. */
  const NegativeReadCountReason := "UnsafeBufferPointer with negative count"

  class MetalBuffer {
    const length: nat
    const contents: array<real>

    /** The buffer's storage holds exactly the whole floats that fit in its length. */
    ghost predicate Valid() {
      contents.Length == length / FloatSize
    }

    constructor(length: nat)
      ensures this.length == length && Valid() && fresh(contents)
    {
      this.length := length;
      contents := new real[length / FloatSize];
    }
  }

  /** `UnsafeMutableBufferPointer<Float>`: `count` floats from offset `start` of `base`. */
  datatype BufferPointer = BufferPointer(base: MetalBuffer, start: int, count: int)
  {
    /** The view lies within its buffer; reading or writing outside it is undefined behaviour. */
    ghost predicate InBounds() {
      0 <= start && 0 <= count && start + count <= base.contents.Length
    }
  }

  /** The values a pointer that stays within its buffer sees. */
  function Elements(p: BufferPointer): (r: seq<real>)
    requires p.InBounds()
    reads p.base.contents
    ensures |r| == p.count
    ensures forall i | 0 <= i < p.count :: r[i] == p.base.contents[p.start + i]
  {
    p.base.contents[p.start..p.start + p.count]
  }

  /** `unsafeBufferPointerFromBuffer`: a view of the whole buffer. */
  function UnsafeBufferPointerFromBuffer(b: MetalBuffer): (p: BufferPointer)
    ensures p.base == b && p.start == 0 && p.count == b.length / FloatSize
  {
    BufferPointer(b, 0, b.length / FloatSize)
  }

  /** A pointer from `unsafeBufferPointerFromBuffer` sees every value of the buffer and nothing else. */
  lemma WholeBufferPointer(b: MetalBuffer)
    requires b.Valid()
    ensures UnsafeBufferPointerFromBuffer(b).InBounds()
    ensures Elements(UnsafeBufferPointerFromBuffer(b)) == b.contents[..]
  {
  }

  /** The number of values `arrayFromBuffer` copies: `count`, or by default the rest of the buffer. */
  function CopyCount(b: MetalBuffer, start: int, count: Option<int>): (n: int)
    ensures count.Some? ==> n == count.value
    ensures count.None? ==> start + n == b.length / FloatSize
  {
    count.GetOr(b.length / FloatSize - start)
  }

  /** `arrayFromBuffer`: the values from `start` on, `count` of them (all the remaining
      ones by default). A negative count, given or left over when `start` lies past the
      end, traps in the buffer pointer's initialiser. Otherwise the source reads through
      a raw pointer, so the range must lie within the buffer. */
  function ArrayFromBuffer(b: MetalBuffer, start: int, count: Option<int>): (r: Result<seq<real>>)
    requires b.Valid()
    requires 0 <= start && (0 <= CopyCount(b, start, count) ==> start + CopyCount(b, start, count) <= b.contents.Length)
    reads b.contents
    ensures r.Fatal? <==> CopyCount(b, start, count) < 0
    ensures r.Fatal? ==> r.reason == NegativeReadCountReason
    ensures r.Ok? ==> |r.value| == CopyCount(b, start, count)
    ensures r.Ok? ==> forall i | 0 <= i < |r.value| :: r.value[i] == b.contents[start + i]
  {
    var n := CopyCount(b, start, count);
    if n < 0 then Fatal(NegativeReadCountReason) else Ok(Elements(BufferPointer(b, start, n)))
  }

  /** By default `arrayFromBuffer` copies the whole buffer from `start`: its result is the
      buffer's suffix, and a `start` past the end traps. */
  lemma ArrayFromBufferDefault(b: MetalBuffer, start: int)
    requires b.Valid() && 0 <= start
    ensures start <= b.contents.Length ==> ArrayFromBuffer(b, start, None) == Ok(b.contents[start..])
    ensures start > b.contents.Length ==> ArrayFromBuffer(b, start, None) == Fatal(NegativeReadCountReason)
    ensures ArrayFromBuffer(b, 0, None) == Ok(b.contents[..])
  {
    if start <= b.contents.Length {
      assert b.contents[start..b.contents.Length] == b.contents[start..];
    }
    assert b.contents[0..b.contents.Length] == b.contents[..];
  }

  /** `valueArrayFromBuffer`: a new value array holding what `arrayFromBuffer` returns for the same arguments. */
  method ValueArrayFromBuffer(b: MetalBuffer, start: int, count: Option<int>) returns (r: array<real>)
    requires b.Valid()
    requires 0 <= start && 0 <= CopyCount(b, start, count) && start + CopyCount(b, start, count) <= b.contents.Length
    ensures fresh(r)
    ensures ArrayFromBuffer(b, start, count) == Ok(r[..])
  {
    var n := CopyCount(b, start, count);
    r := new real[n];
    for i := 0 to n
      invariant forall j | 0 <= j < i :: r[j] == b.contents[start + j]
    {
      r[i] := b.contents[start + i];
    }
    assert r[..] == b.contents[start..start + n];
  }

  /** `s` with `e` written over it from offset `start`. */
  function Overwrite(s: seq<real>, start: nat, e: seq<real>): (r: seq<real>)
    requires start + |e| <= |s|
    ensures |r| == |s|
    ensures forall i | 0 <= i < |e| :: r[start + i] == e[i]
    ensures forall i | 0 <= i < |s| && !(start <= i < start + |e|) :: r[i] == s[i]
  {
    s[..start] + e + s[start + |e|..]
  }

  /** Writing back the values just read from a range changes nothing. */
  lemma OverwriteWithOwn(s: seq<real>, start: nat, n: nat)
    requires start + n <= |s|
    ensures Overwrite(s, start, s[start..start + n]) == s
  {
    var r := Overwrite(s, start, s[start..start + n]);
    forall i | 0 <= i < |s| ensures r[i] == s[i] {
      if start <= i < start + n {
        assert r[start + (i - start)] == s[start..start + n][i - start];
      }
    }
  }

  /** The last write to a position wins: two writes of the same range keep only the second. */
  lemma OverwriteTwice(s: seq<real>, start: nat, e: seq<real>, f: seq<real>)
    requires start + |e| <= |s| && |f| == |e|
    ensures Overwrite(Overwrite(s, start, e), start, f) == Overwrite(s, start, f)
  {
    var a, b := Overwrite(Overwrite(s, start, e), start, f), Overwrite(s, start, f);
    forall i | 0 <= i < |s| ensures a[i] == b[i] {
      if start <= i < start + |e| {
        assert a[start + (i - start)] == f[i - start];
        assert b[start + (i - start)] == f[i - start];
      }
    }
  }

  /** `fillBuffer`: element `i` of `elements` goes to position `start + i`; the source
      writes through a raw pointer, so the range must lie within the buffer.
      Reading the range back with `arrayFromBuffer` yields `elements`. */
  method FillBuffer(b: MetalBuffer, start: int, elements: seq<real>)
    requires b.Valid() && 0 <= start && start + |elements| <= b.contents.Length
    modifies b.contents
    ensures b.contents[..] == Overwrite(old(b.contents[..]), start, elements)
    ensures ArrayFromBuffer(b, start, Some(|elements|)) == Ok(elements)
  {
    for i := 0 to |elements|
      invariant forall j | 0 <= j < i :: b.contents[start + j] == elements[j]
      invariant forall j | 0 <= j < b.contents.Length && !(start <= j < start + i) :: b.contents[j] == old(b.contents[j])
    {
      b.contents[start + i] := elements[i];
    }
    ghost var expected := Overwrite(old(b.contents[..]), start, elements);
    assert forall j | 0 <= j < b.contents.Length :: b.contents[j] == expected[j];
  }
}
