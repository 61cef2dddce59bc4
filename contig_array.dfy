/**
 * `ContigMultiArray<T, D>` from tools/common/array.hpp: a D-dimensional
 * array stored contiguously, where subscripting the first dimension gives a
 * non-owning view of one (D-1)-dimensional slice. The dimensionality is the
 * length of the extent sequence; the one-dimensional specialisation gives
 * bounds-checked element access.
 */
module ContigArray {
  import opened Wrappers

  const OutOfRange := "Subscript out of range"

  /** The number of elements of an array with the given extents. */
  function Product(s: seq<nat>): nat
  {
    if s == [] then 1 else s[0] * Product(s[1..])
  }

  /** An array has no elements exactly when one of its extents is zero. */
  lemma {:induction false} ProductZero(s: seq<nat>)
    ensures Product(s) == 0 <==> exists i :: 0 <= i < |s| && s[i] == 0
    decreases |s|
  {
    if s != [] {
      ProductZero(s[1..]);
      assert forall i :: 1 <= i < |s| ==> s[i] == s[1..][i - 1];
      if Product(s[1..]) == 0 {
        var i :| 0 <= i < |s[1..]| && s[1..][i] == 0;
        assert s[i + 1] == 0;
      }
    }
  }

  /** Extending the extents by one dimension multiplies the count by that extent. */
  lemma {:induction false} ProductSnoc(s: seq<nat>, x: nat)
    ensures Product(s + [x]) == Product(s) * x
    decreases |s|
  {
    if s != [] {
      assert (s + [x])[1..] == s[1..] + [x];
      ProductSnoc(s[1..], x);
    }
  }

  /** The elements of one slice lie within the whole array. */
  lemma SliceFits(slice: nat, n: nat, stride: nat)
    requires slice < n
    ensures slice * stride + stride <= n * stride
  {
    assert slice * stride + stride == (slice + 1) * stride;
  }

  /** The loop shared by the constructors and `computeStride`: the product of `size[from..]`. */
  method ProductFrom(size: seq<nat>, from: nat) returns (p: nat)
    requires from <= |size|
    ensures p == Product(size[from..])
  {
    p := 1;
    var i := from;
    while i < |size|
      invariant from <= i <= |size|
      invariant p == Product(size[from..i])
    {
      ProductSnoc(size[from..i], size[i]);
      assert size[from..i + 1] == size[from..i] + [size[i]];
      p := p * size[i];
      i := i + 1;
    }
    assert size[from..i] == size[from..];
  }

  class ContigMultiArray<T(0)> {
    /** The buffer the public `data` pointer points into, and the offset within it; `null` after a move. */
    var data: array?<T>
    var offset: nat
    /** `m_size`: one extent per dimension. */
    var size: seq<nat>
    var numElements: nat
    var stride: nat
    /** Whether this object frees `data` when destroyed. */
    var isTopLevel: bool

    ghost predicate Valid()
      reads this
    {
      |size| >= 1 &&
      numElements == Product(size) && stride == Product(size[1..]) &&
      (data != null ==> offset + numElements <= data.Length)
    }

    /** The element at flat position `i` of this array. */
    function Element(i: nat): T
      requires Valid() && data != null && i < numElements
      reads this, data
    {
      data[offset + i]
    }

    /** All elements of this array, in storage order. */
    function Elements(): (r: seq<T>)
      requires Valid() && data != null
      reads this, data
      ensures |r| == numElements
    {
      data[offset..offset + numElements]
    }

    /** The constructor from extents: allocates `numElements` elements and owns them. */
    constructor (extents: seq<nat>)
      requires |extents| >= 1
      ensures Valid() && fresh(data) && data != null
      ensures size == extents && offset == 0 && isTopLevel
      ensures numElements == Product(extents) && data.Length == numElements
    {
      var n := ProductFrom(extents, 0);
      assert extents[0..] == extents;
      var s := ProductFrom(extents, 1);
      data := new T[n];
      offset := 0;
      size := extents;
      numElements := n;
      stride := s;
      isTopLevel := true;
    }

    /** The constructor over an existing buffer; it owns the buffer only when `topLevel`. */
    constructor View(buffer: array?<T>, from: nat, extents: seq<nat>, topLevel: bool)
      requires |extents| >= 1
      requires buffer != null ==> from + Product(extents) <= buffer.Length
      ensures Valid()
      ensures data == buffer && offset == from && size == extents && isTopLevel == topLevel
    {
      var n := ProductFrom(extents, 0);
      assert extents[0..] == extents;
      var s := ProductFrom(extents, 1);
      data := buffer;
      offset := from;
      size := extents;
      numElements := n;
      stride := s;
      isTopLevel := topLevel;
    }

    /** The one-dimensional initializer-list constructor: a fresh owned copy of `elems`. */
    constructor FromElements(elems: seq<T>)
      ensures Valid() && data != null && fresh(data)
      ensures size == [|elems|] && offset == 0 && isTopLevel
      ensures data[..] == elems
    {
      var a := new T[|elems|];
      var i := 0;
      while i < |elems|
        invariant 0 <= i <= |elems|
        invariant forall k | 0 <= k < i :: a[k] == elems[k]
      {
        a[i] := elems[i];
        i := i + 1;
      }
      data := a;
      offset := 0;
      size := [|elems|];
      numElements := |elems|;
      stride := 1;
      isTopLevel := true;
      assert Product([|elems|]) == |elems| * Product([]);
    }

    /**
     * The move constructor: takes over the buffer, extents and ownership of
     * `mv` and leaves `mv` with a null buffer, so only one of them frees it.
     */
    constructor Move(mv: ContigMultiArray<T>)
      requires mv.Valid()
      modifies mv
      ensures Valid()
      ensures data == old(mv.data) && offset == old(mv.offset) && size == old(mv.size)
      ensures isTopLevel == old(mv.isTopLevel)
      ensures mv.data == null
      ensures mv.size == old(mv.size) && mv.isTopLevel == old(mv.isTopLevel)
    {
      data := mv.data;
      offset := mv.offset;
      size := mv.size;
      numElements := mv.numElements;
      stride := mv.stride;
      isTopLevel := mv.isTopLevel;
      new;
      mv.data := null;
    }

    /** Whether destroying this object frees its buffer. */
    predicate FreesBuffer()
      reads this
    {
      isTopLevel && data != null
    }

    /**
     * `operator[](slice)` for two or more dimensions: a non-owning view of the
     * slice starting at `slice * stride`, with the remaining extents.
     */
    method Subscript(slice: nat) returns (r: Result<ContigMultiArray<T>>)
      requires Valid() && |size| >= 2
      ensures r.Err? <==> slice >= size[0]
      ensures r.Err? ==> r.message == OutOfRange
      ensures r.Ok? ==> fresh(r.value) && r.value.Valid() && !r.value.FreesBuffer()
      ensures r.Ok? ==> r.value.data == data && r.value.offset == offset + slice * stride
      ensures r.Ok? ==> r.value.size == size[1..] && r.value.numElements == stride
      ensures r.Ok? ==> r.value.offset + r.value.numElements <= offset + numElements
    {
      if slice >= size[0] {
        return Err(OutOfRange);
      }
      SliceFits(slice, size[0], stride);
      var view := new ContigMultiArray.View(data, offset + slice * stride, size[1..], false);
      return Ok(view);
    }

    /** `operator[](i)` for one dimension, read: bounds-checked element access. */
    function At(i: nat): (r: Result<T>)
      requires Valid() && data != null && |size| == 1
      reads this, data
      ensures r.Err? <==> i >= size[0]
      ensures r.Err? ==> r.message == OutOfRange
      ensures r.Ok? ==> r.value == data[offset + i]
    {
      assert Product(size) == size[0] * Product([]);
      if i >= size[0] then Err(OutOfRange) else Ok(Element(i))
    }

    /** `operator[](i)` for one dimension, write: refuses out-of-range indices and otherwise changes one element. */
    method Put(i: nat, value: T) returns (r: Result<()>)
      requires Valid() && data != null && |size| == 1
      modifies data
      ensures r.Err? <==> i >= size[0]
      ensures r.Err? ==> r.message == OutOfRange && data[..] == old(data[..])
      ensures r.Ok? ==> data[..] == old(data[..])[offset + i := value] && At(i) == Ok(value)
    {
      assert Product(size) == size[0] * Product([]);
      if i >= size[0] {
        return Err(OutOfRange);
      }
      data[offset + i] := value;
      return Ok(());
    }
  }

  /** `e` appears in `s` from position `at` on. */
  ghost predicate Holds<T>(s: seq<T>, at: nat, e: seq<T>)
  {
    at + |e| <= |s| && forall j | 0 <= j < |e| :: s[at + j] == e[j]
  }

  /** `s` with `e` written over it from position `at` on (a `memcpy`). */
  ghost function Overwrite<T>(s: seq<T>, at: nat, e: seq<T>): (r: seq<T>)
    requires at + |e| <= |s|
    ensures |r| == |s| && Holds(r, at, e)
    ensures forall j | 0 <= j < |s| && !(at <= j < at + |e|) :: r[j] == s[j]
  {
    seq(|s|, j requires 0 <= j < |s| => if at <= j < at + |e| then e[j - at] else s[j])
  }

  /** A slice before slice `n` ends at or before slice `n` begins. */
  lemma SliceBefore(k: nat, n: nat, stride: nat)
    requires k < n
    ensures k * stride + stride == (k + 1) * stride <= n * stride
  {
    assert k * stride + stride == (k + 1) * stride;
  }

  /** Parts of at most `stride` elements, `|parts|` slices of which fit in `len`. */
  ghost predicate Fits<T>(parts: seq<seq<T>>, stride: nat, len: nat)
  {
    |parts| * stride <= len && forall k | 0 <= k < |parts| :: |parts[k]| <= stride
  }

  /** `s` after copying part `k` to offset `k * stride` for each of the first `n` parts in turn. */
  ghost function Lay<T>(s: seq<T>, parts: seq<seq<T>>, stride: nat, n: nat): (r: seq<T>)
    requires Fits(parts, stride, |s|) && n <= |parts|
    ensures |r| == |s|
  {
    if n == 0 then s
    else
      SliceBefore(n - 1, |parts|, stride);
      Overwrite(Lay(s, parts, stride, n - 1), (n - 1) * stride, parts[n - 1])
  }

  /** Overwriting at or after the end of `e` keeps `e`. */
  lemma OverwriteKeeps<T>(s: seq<T>, at: nat, e: seq<T>, from: nat, f: seq<T>)
    requires Holds(s, at, e) && at + |e| <= from && from + |f| <= |s|
    ensures Holds(Overwrite(s, from, f), at, e)
  {
    var r := Overwrite(s, from, f);
    forall j | 0 <= j < |e|
      ensures r[at + j] == e[j]
    {
      assert r[at + j] == s[at + j];
    }
  }

  /** After laying out the first `n` parts, part `k < n` is found at offset `k * stride`. */
  lemma {:induction false} LayHolds<T>(s: seq<T>, parts: seq<seq<T>>, stride: nat, n: nat, k: nat)
    requires Fits(parts, stride, |s|) && k < n <= |parts|
    ensures Holds(Lay(s, parts, stride, n), k * stride, parts[k])
  {
    var prev := Lay(s, parts, stride, n - 1);
    var from := (n - 1) * stride;
    SliceBefore(n - 1, |parts|, stride);
    assert |parts[n - 1]| <= stride;
    assert Lay(s, parts, stride, n) == Overwrite(prev, from, parts[n - 1]);
    if k < n - 1 {
      LayHolds(s, parts, stride, n - 1, k);
      SliceBefore(k, n - 1, stride);
      assert |parts[k]| <= stride;
      OverwriteKeeps(prev, k * stride, parts[k], from, parts[n - 1]);
    }
  }

  /** After laying out all parts, each part is found at its offset. */
  lemma LayAll<T>(s: seq<T>, parts: seq<seq<T>>, stride: nat)
    requires Fits(parts, stride, |s|)
    ensures forall k | 0 <= k < |parts| :: Holds(Lay(s, parts, stride, |parts|), k * stride, parts[k])
  {
    forall k | 0 <= k < |parts|
      ensures Holds(Lay(s, parts, stride, |parts|), k * stride, parts[k])
    {
      LayHolds(s, parts, stride, |parts|, k);
    }
  }

  /** The `memcpy` of one part: copies its elements to `buffer[at..]` and leaves the rest of `buffer` alone. */
  method CopySlice<T(0)>(buffer: array<T>, at: nat, sub: ContigMultiArray<T>)
    requires sub.Valid() && sub.data != null && sub.data != buffer
    requires at + sub.numElements <= buffer.Length
    modifies buffer
    ensures buffer[..] == Overwrite(old(buffer[..]), at, sub.Elements())
  {
    var i := 0;
    while i < sub.numElements
      invariant 0 <= i <= sub.numElements
      invariant forall j | 0 <= j < i :: buffer[at + j] == sub.Element(j)
      invariant forall j | 0 <= j < buffer.Length && !(at <= j < at + i) :: buffer[j] == old(buffer[j])
    {
      buffer[at + i] := sub.Element(i);
      i := i + 1;
    }
    ghost var r := Overwrite(old(buffer[..]), at, sub.Elements());
    forall j | 0 <= j < buffer.Length
      ensures buffer[j] == r[j]
    {
      if at <= j < at + sub.numElements {
        assert sub.Elements()[j - at] == sub.Element(j - at);
      }
    }
  }

  lemma LayStep<T>(s: seq<T>, parts: seq<seq<T>>, stride: nat, n: nat, before: seq<T>, after: seq<T>)
    requires Fits(parts, stride, |s|) && n < |parts|
    requires before == Lay(s, parts, stride, n) && n * stride + |parts[n]| <= |before|
    requires after == Overwrite(before, n * stride, parts[n])
    ensures after == Lay(s, parts, stride, n + 1)
  {
  }

  /** The copy loop of the initializer-list constructor: part `k` goes to offset `k * stride`. */
  method CopyParts<T(0)>(buffer: array<T>, parts: seq<ContigMultiArray<T>>, stride: nat, ghost elems: seq<seq<T>>)
    requires |elems| == |parts| && Fits(elems, stride, buffer.Length)
    requires forall k | 0 <= k < |parts| :: parts[k].Valid() && parts[k].data != null
    requires forall k | 0 <= k < |parts| :: parts[k].data != buffer && elems[k] == parts[k].Elements()
    modifies buffer
    ensures buffer[..] == Lay(old(buffer[..]), elems, stride, |parts|)
  {
    ghost var init := buffer[..];
    var slice, at := 0, 0;
    while slice < |parts|
      invariant 0 <= slice <= |parts| && at == slice * stride && at <= buffer.Length
      invariant buffer[..] == Lay(init, elems, stride, slice)
      invariant forall k | 0 <= k < |parts| :: elems[k] == parts[k].Elements()
    {
      SliceBefore(slice, |parts|, stride);
      ghost var before := buffer[..];
      assert parts[slice].Elements() == elems[slice];
      CopySlice(buffer, at, parts[slice]);
      LayStep(init, elems, stride, slice, before, buffer[..]);
      slice, at := slice + 1, at + stride;
    }
  }

  /**
   * The initializer-list constructor for two or more dimensions: the first
   * extent is the number of parts, the others come from the first part, and
   * part `k` is copied to offset `k * stride`.
   */
  method FromParts<T(0)>(parts: seq<ContigMultiArray<T>>) returns (a: ContigMultiArray<T>)
    requires |parts| >= 1
    requires forall k | 0 <= k < |parts| :: parts[k].Valid() && parts[k].data != null
    requires forall k | 0 <= k < |parts| :: parts[k].numElements <= parts[0].numElements
    ensures fresh(a) && a.Valid() && a.data != null && fresh(a.data)
    ensures a.size == [|parts|] + parts[0].size && a.offset == 0 && a.isTopLevel
    ensures a.stride == parts[0].numElements && a.numElements == |parts| * a.stride
    ensures forall k | 0 <= k < |parts| :: Holds(a.data[..], k * a.stride, parts[k].Elements())
  {
    var extents := [|parts|] + parts[0].size;
    assert extents[1..] == parts[0].size;
    a := new ContigMultiArray(extents);
    var stride := a.stride;
    var buffer := a.data;
    assert buffer.Length == |parts| * stride;
    ghost var elems := seq(|parts|, k requires 0 <= k < |parts| && parts[k].Valid() && parts[k].data != null
      reads if 0 <= k < |parts| then {parts[k], parts[k].data} else {} => parts[k].Elements());
    ghost var init := buffer[..];
    CopyParts(buffer, parts, stride, elems);
    LayAll(init, elems, stride);
    assert forall k | 0 <= k < |parts| :: elems[k] == parts[k].Elements();
  }
}
