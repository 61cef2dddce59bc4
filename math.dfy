/**
 * The index layout of the numeric containers in richard/src/math.hpp.
 * A `Vector`, `Matrix` or `Kernel` either owns its storage or is a shallow
 * view: a pointer into somebody else's buffer plus extents. Views alias the
 * buffer they point into, so a write through a view is visible to every
 * other object over the same buffer. Element values (`netfloat_t`) are
 * reals; only the addressing is modelled.
 */
module Math {
  import opened Wrappers

  const ShallowStorage := "Attempt to retrieve storage of shallow object"

  /** Row-major flat index of cell (`c`, `r`) in a matrix with `cols` columns. */
  function MatrixIndex(c: nat, r: nat, cols: nat): nat {
    r * cols + c
  }

  /** Flat index of cell (`x`, `y`, `z`) in a `w` by `h` by `d` kernel: slice `z`, then row `y`, then column `x`. */
  function KernelIndex(x: nat, y: nat, z: nat, w: nat, h: nat): nat {
    z * (w * h) + MatrixIndex(x, y, w)
  }

  lemma MatrixIndexInRange(c: nat, r: nat, cols: nat, rows: nat)
    requires c < cols && r < rows
    ensures MatrixIndex(c, r, cols) < cols * rows
  {
    assert r * cols + c < r * cols + cols == (r + 1) * cols;
    assert (r + 1) * cols <= rows * cols;
  }

  /** Every cell of a `cols` by `rows` matrix has a flat index below `cols * rows`. */
  lemma MatrixIndicesInRange(cols: nat, rows: nat)
    ensures forall c, r | 0 <= c < cols && 0 <= r < rows :: MatrixIndex(c, r, cols) < cols * rows
  {
    forall c, r | 0 <= c < cols && 0 <= r < rows
      ensures MatrixIndex(c, r, cols) < cols * rows
    {
      MatrixIndexInRange(c, r, cols, rows);
    }
  }

  /** Row `r` of a `cols` by `rows` matrix ends inside the matrix. */
  lemma RowEndInRange(r: nat, cols: nat, rows: nat)
    requires r < rows
    ensures r * cols + cols <= cols * rows
  {
    assert r * cols + cols == (r + 1) * cols;
    assert (r + 1) * cols <= rows * cols;
  }

  /** Distinct cells of a matrix have distinct flat indices, so `set` touches exactly one cell. */
  lemma MatrixIndexInjective(c1: nat, r1: nat, c2: nat, r2: nat, cols: nat)
    requires c1 < cols && c2 < cols
    ensures MatrixIndex(c1, r1, cols) == MatrixIndex(c2, r2, cols) <==> c1 == c2 && r1 == r2
  {
    if r1 < r2 {
      assert r1 * cols + c1 < (r1 + 1) * cols <= r2 * cols;
    } else if r2 < r1 {
      assert r2 * cols + c2 < (r2 + 1) * cols <= r1 * cols;
    }
  }

  lemma KernelIndexInRange(x: nat, y: nat, z: nat, w: nat, h: nat, d: nat)
    requires x < w && y < h && z < d
    ensures KernelIndex(x, y, z, w, h) < w * h * d
  {
    MatrixIndexInRange(x, y, w, h);
    MatrixIndexInRange(MatrixIndex(x, y, w), z, w * h, d);
  }

  /** Distinct cells of a kernel have distinct flat indices. */
  lemma KernelIndexInjective(x1: nat, y1: nat, z1: nat, x2: nat, y2: nat, z2: nat, w: nat, h: nat)
    requires x1 < w && y1 < h && x2 < w && y2 < h
    ensures KernelIndex(x1, y1, z1, w, h) == KernelIndex(x2, y2, z2, w, h) <==> x1 == x2 && y1 == y2 && z1 == z2
  {
    MatrixIndexInRange(x1, y1, w, h);
    MatrixIndexInRange(x2, y2, w, h);
    MatrixIndexInjective(MatrixIndex(x1, y1, w), z1, MatrixIndex(x2, y2, w), z2, w * h);
    MatrixIndexInjective(x1, y1, x2, y2, w);
  }

  /** A one-dimensional container: `Vector` (also used as `Array`). */
  class Vector {
    /** The owned `DataArray`; empty for a shallow vector. */
    var storage: array<real>
    /** The buffer `m_data` points into (`null` for a default-constructed vector) and the offset within it. */
    var data: array?<real>
    var offset: nat
    var size: nat

    ghost predicate Valid()
      reads this
    {
      (data == null ==> size == 0 && storage.Length == 0) &&
      (data != null ==> offset + size <= data.Length) &&
      (storage.Length > 0 ==> data == storage && offset == 0 && size == storage.Length)
    }

    /** An owning vector of `length` elements. */
    constructor (length: nat)
      ensures Valid() && fresh(storage)
      ensures data == storage && offset == 0 && size == length
    {
      var a := new real[length](_ => 0.0);
      storage := a;
      data := a;
      offset := 0;
      size := length;
    }

    /** `createShallow(data, size)`: a view of `n` elements of `buffer` from `from` on. */
    constructor Shallow(buffer: array<real>, from: nat, n: nat)
      requires from + n <= buffer.Length
      ensures Valid() && IsShallow()
      ensures data == buffer && offset == from && size == n
    {
      storage := new real[0];
      data := buffer;
      offset := from;
      size := n;
    }

    /** A view owns no storage and points at data. */
    predicate IsShallow()
      reads this
    {
      storage.Length == 0 && data != null
    }

    /** `storage()`: the owned array, refused for a view. */
    function Storage(): (r: Result<array<real>>)
      reads this
      ensures r.Ok? <==> !IsShallow()
      ensures r.Ok? ==> r.value == storage
      ensures r.Err? ==> r.message == ShallowStorage
    {
      if IsShallow() then Err(ShallowStorage) else Ok(storage)
    }

    /** `operator[]` as a read. */
    function Get(i: nat): real
      requires Valid() && data != null && i < size
      reads this, data
    {
      data[offset + i]
    }

    /** `operator[]` as a write: exactly one element of the underlying buffer changes. */
    method Set(i: nat, value: real)
      requires Valid() && data != null && i < size
      modifies data
      ensures data[..] == old(data[..])[offset + i := value]
      ensures Get(i) == value
      ensures forall j | 0 <= j < size && j != i :: Get(j) == old(Get(j))
    {
      data[offset + i] := value;
    }

    /** `subvector(from, n)`: a view whose element `i` is element `from + i` of this vector. */
    method Subvector(from: nat, n: nat) returns (v: Vector)
      requires Valid() && data != null && from + n <= size
      ensures fresh(v) && v.Valid() && v.IsShallow()
      ensures v.data == data && v.offset == offset + from && v.size == n
      ensures forall i | 0 <= i < n :: v.Get(i) == Get(from + i)
    {
      v := new Vector.Shallow(data, offset + from, n);
    }
  }

  /** A two-dimensional container: `cols` by `rows`, stored row after row. */
  class Matrix {
    var storage: array<real>
    var data: array?<real>
    var offset: nat
    var cols: nat
    var rows: nat

    ghost predicate Valid()
      reads this
    {
      (data == null ==> cols * rows == 0 && storage.Length == 0) &&
      (data != null ==> offset + cols * rows <= data.Length) &&
      (storage.Length > 0 ==> data == storage && offset == 0 && cols * rows == storage.Length)
    }

    /** An owning `cols` by `rows` matrix. */
    constructor (c: nat, r: nat)
      ensures Valid() && fresh(storage)
      ensures data == storage && offset == 0 && cols == c && rows == r
    {
      var a := new real[c * r](_ => 0.0);
      storage := a;
      data := a;
      offset := 0;
      cols := c;
      rows := r;
    }

    /** `createShallow(data, cols, rows)`. */
    constructor Shallow(buffer: array<real>, from: nat, c: nat, r: nat)
      requires from + c * r <= buffer.Length
      ensures Valid() && IsShallow()
      ensures data == buffer && offset == from && cols == c && rows == r
    {
      storage := new real[0];
      data := buffer;
      offset := from;
      cols := c;
      rows := r;
    }

    predicate IsShallow()
      reads this
    {
      storage.Length == 0 && data != null
    }

    function Storage(): (r: Result<array<real>>)
      reads this
      ensures r.Ok? <==> !IsShallow()
      ensures r.Ok? ==> r.value == storage
      ensures r.Err? ==> r.message == ShallowStorage
    {
      if IsShallow() then Err(ShallowStorage) else Ok(storage)
    }

    /** `size()`: every cell has a flat index below it. */
    function Size(): (n: nat)
      reads this
      ensures forall c, r | 0 <= c < cols && 0 <= r < rows :: MatrixIndex(c, r, cols) < n
    {
      forall c, r | 0 <= c < cols && 0 <= r < rows
        ensures MatrixIndex(c, r, cols) < cols * rows
      {
        MatrixIndexInRange(c, r, cols, rows);
      }
      cols * rows
    }

    /** `at(col, row)`. */
    function At(c: nat, r: nat): real
      requires Valid() && data != null && c < cols && r < rows
      reads this, data
    {
      MatrixIndexInRange(c, r, cols, rows);
      data[offset + MatrixIndex(c, r, cols)]
    }

    /** `set(col, row, value)`: that cell changes and every other cell keeps its value. */
    method Set(c: nat, r: nat, value: real)
      requires Valid() && data != null && c < cols && r < rows
      modifies data
      ensures forall i | 0 <= i < data.Length :: data[i] == if i == offset + MatrixIndex(c, r, cols) then value else old(data[i])
      ensures At(c, r) == value
      ensures forall c2, r2 | 0 <= c2 < cols && 0 <= r2 < rows && (c2 != c || r2 != r) :: At(c2, r2) == old(At(c2, r2))
    {
      MatrixIndexInRange(c, r, cols, rows);
      data[offset + MatrixIndex(c, r, cols)] := value;
      forall c2, r2 | 0 <= c2 < cols && 0 <= r2 < rows && (c2 != c || r2 != r)
        ensures At(c2, r2) == old(At(c2, r2))
      {
        MatrixIndexInjective(c, r, c2, r2, cols);
        MatrixIndexInRange(c2, r2, cols, rows);
      }
    }

    /** `slice(row)`: a view of one row, whose element `c` is cell (`c`, `row`). */
    method Slice(row: nat) returns (v: Vector)
      requires Valid() && data != null && row < rows
      ensures fresh(v) && v.Valid() && v.IsShallow()
      ensures v.data == data && v.offset == offset + row * cols && v.size == cols
      ensures forall c | 0 <= c < cols :: v.Get(c) == At(c, row)
    {
      assert row * cols + cols == (row + 1) * cols <= rows * cols;
      v := new Vector.Shallow(data, offset + row * cols, cols);
    }
  }

  /** A three-dimensional container: `w` by `h` by `d`, stored slice after slice. */
  class Kernel {
    var storage: array<real>
    var data: array?<real>
    var offset: nat
    var w: nat
    var h: nat
    var d: nat

    ghost predicate Valid()
      reads this
    {
      (data == null ==> w * h * d == 0 && storage.Length == 0) &&
      (data != null ==> offset + w * h * d <= data.Length) &&
      (storage.Length > 0 ==> data == storage && offset == 0 && w * h * d == storage.Length)
    }

    /** An owning kernel of the given extents. */
    constructor (width: nat, height: nat, depth: nat)
      ensures Valid() && fresh(storage)
      ensures data == storage && offset == 0 && w == width && h == height && d == depth
    {
      var a := new real[width * height * depth](_ => 0.0);
      storage := a;
      data := a;
      offset := 0;
      w, h, d := width, height, depth;
    }

    /** `createShallow(data, W, H, D)`. */
    constructor Shallow(buffer: array<real>, from: nat, width: nat, height: nat, depth: nat)
      requires from + width * height * depth <= buffer.Length
      ensures Valid() && IsShallow()
      ensures data == buffer && offset == from && w == width && h == height && d == depth
    {
      storage := new real[0];
      data := buffer;
      offset := from;
      w, h, d := width, height, depth;
    }

    predicate IsShallow()
      reads this
    {
      storage.Length == 0 && data != null
    }

    function Storage(): (r: Result<array<real>>)
      reads this
      ensures r.Ok? <==> !IsShallow()
      ensures r.Ok? ==> r.value == storage
      ensures r.Err? ==> r.message == ShallowStorage
    {
      if IsShallow() then Err(ShallowStorage) else Ok(storage)
    }

    /** `size()`: every cell has a flat index below it. */
    function Size(): (n: nat)
      reads this
      ensures forall x, y, z | 0 <= x < w && 0 <= y < h && 0 <= z < d :: KernelIndex(x, y, z, w, h) < n
    {
      forall x, y, z | 0 <= x < w && 0 <= y < h && 0 <= z < d
        ensures KernelIndex(x, y, z, w, h) < w * h * d
      {
        KernelIndexInRange(x, y, z, w, h, d);
      }
      w * h * d
    }

    /** `shape()`: the extents in the order width, height, depth. */
    function Shape(): (s: seq<nat>)
      reads this
      ensures |s| == 3 && s[0] == w && s[1] == h && s[2] == d
      ensures s[0] * s[1] * s[2] == Size()
    {
      [w, h, d]
    }

    /** `at(x, y, z)`. */
    function At(x: nat, y: nat, z: nat): real
      requires Valid() && data != null && x < w && y < h && z < d
      reads this, data
    {
      KernelIndexInRange(x, y, z, w, h, d);
      data[offset + KernelIndex(x, y, z, w, h)]
    }

    /** `set(x, y, z, value)`: that cell changes and every other cell keeps its value. */
    method Set(x: nat, y: nat, z: nat, value: real)
      requires Valid() && data != null && x < w && y < h && z < d
      modifies data
      ensures forall i | 0 <= i < data.Length :: data[i] == if i == offset + KernelIndex(x, y, z, w, h) then value else old(data[i])
      ensures At(x, y, z) == value
      ensures forall x2, y2, z2 | 0 <= x2 < w && 0 <= y2 < h && 0 <= z2 < d && (x2 != x || y2 != y || z2 != z) ::
        At(x2, y2, z2) == old(At(x2, y2, z2))
    {
      KernelIndexInRange(x, y, z, w, h, d);
      data[offset + KernelIndex(x, y, z, w, h)] := value;
      forall x2, y2, z2 | 0 <= x2 < w && 0 <= y2 < h && 0 <= z2 < d && (x2 != x || y2 != y || z2 != z)
        ensures At(x2, y2, z2) == old(At(x2, y2, z2))
      {
        KernelIndexInjective(x, y, z, x2, y2, z2, w, h);
        KernelIndexInRange(x2, y2, z2, w, h, d);
      }
    }

    /** `slice(z)`: a `w` by `h` view of one depth slice, whose cell (`x`, `y`) is cell (`x`, `y`, `z`). */
    method Slice(z: nat) returns (m: Matrix)
      requires Valid() && data != null && z < d
      ensures fresh(m) && m.Valid() && m.IsShallow()
      ensures m.data == data && m.offset == offset + z * (w * h) && m.cols == w && m.rows == h
      ensures forall x, y | 0 <= x < w && 0 <= y < h :: m.At(x, y) == At(x, y, z)
    {
      RowEndInRange(z, w * h, d);
      m := new Matrix.Shallow(data, offset + z * (w * h), w, h);
    }

    /** `setData`: adopts a buffer of exactly `size()` elements as owned storage. */
    method SetData(buffer: array<real>)
      requires Valid() && buffer.Length == w * h * d
      modifies this
      ensures Valid() && (IsShallow() <==> buffer.Length == 0)
      ensures storage == buffer && data == buffer && offset == 0
      ensures w == old(w) && h == old(h) && d == old(d)
    {
      storage := buffer;
      data := buffer;
      offset := 0;
    }
  }

  /** Writing through a row view of a matrix changes the matrix cell under it. */
  method WriteThroughRow(m: Matrix, row: nat, c: nat, value: real)
    requires m.Valid() && m.data != null && row < m.rows && c < m.cols
    modifies m.data
    ensures m.At(c, row) == value
  {
    var v := m.Slice(row);
    v.Set(c, value);
    assert v.Get(c) == value;
  }

  /** Writing through a depth slice of a kernel changes the kernel cell under it. */
  method WriteThroughSlice(k: Kernel, z: nat, x: nat, y: nat, value: real)
    requires k.Valid() && k.data != null && z < k.d && x < k.w && y < k.h
    modifies k.data
    ensures k.At(x, y, z) == value
  {
    var m := k.Slice(z);
    m.Set(x, y, value);
    assert m.At(x, y) == value;
  }
}
