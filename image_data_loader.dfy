/**
 * The image data loader (librichard/src/image_data_loader.cpp). There is
 * one directory of bitmaps per label; each call collects up to `fetchSize`
 * samples, visiting the labels' directories round-robin, one entry per
 * label per pass, until the fetch is full or every directory is exhausted.
 *
 * The file system is a parameter: each label's directory is the sequence
 * of its entries in iteration order, and a regular file carries the bitmap
 * `loadBitmap` decodes from it. `normalize` is a parameter too.
 */
module ImageLoading {
  import opened Wrappers
  import opened Math
  import opened Utils
  import opened Samples
  import Pooling

  /** What `ContigMultiArray::operator[]` throws for a subscript past its extent. */
  const OutOfRange: string := "Subscript out of range"

  /**
   * A decoded bitmap: `height` rows of `width` pixels of `channels` bytes,
   * subscripted `image[row][column][channel]`.
   */
  datatype Image = Image(height: nat, width: nat, channels: nat, pixels: seq<nat>)

  predicate WellFormed(img: Image) {
    |img.pixels| == img.channels * img.width * img.height
  }

  /** `image[row][column][channel]` where every subscript is in range. */
  function Pixel(img: Image, row: nat, column: nat, channel: nat): nat
    requires WellFormed(img) && row < img.height && column < img.width && channel < img.channels
  {
    KernelIndexInRange(channel, column, row, img.channels, img.width, img.height);
    img.pixels[KernelIndex(channel, column, row, img.channels, img.width)]
  }

  /**
   * A directory entry: a regular file, whose contents `loadBitmap` either
   * decodes or fails on with its message, or something else.
   */
  datatype Entry = Entry(regular: bool, bitmap: Result<Image>)

  /*
   * Flat indices of an `Array3`.
   */

  lemma DivUnique(n: int, m: int, q: int, r: int)
    requires m > 0 && 0 <= r < m && n == q * m + r
    ensures n / m == q && n % m == r
  {
    var q', r' := n / m, n % m;
    assert (q - q') * m == r' - r;
    if q > q' {
      MulAtLeast(q - q', m);
    } else if q < q' {
      MulAtLeast(q' - q, m);
    }
  }

  lemma MulAtLeast(k: int, m: int)
    requires k >= 1 && m > 0
    ensures k * m >= m
  {
  }

  lemma Regroup(z: int, h: int, y: int, w: int, x: int)
    ensures (z * h + y) * w + x == z * (w * h) + (y * w + x)
  {
  }

  lemma RowBelow(y: nat, x: nat, w: nat, h: nat)
    requires y < h && x < w
    ensures y * w + x < w * h
  {
    assert y * w + x < y * w + w == (y + 1) * w;
    assert (y + 1) * w <= h * w;
  }

  lemma SliceBelow(z: nat, m: nat, n: nat, d: nat)
    requires m > 0 && z * m <= n < m * d
    ensures z < d
  {
  }

  /** A flat index is its slice, row and column: `n == z * (w * h) + (y * w + x)`. */
  lemma FlatSplit(n: nat, w: nat, h: nat) returns (x: nat, y: nat, z: nat)
    requires w > 0 && h > 0
    ensures x < w && y < h && n == z * (w * h) + (y * w + x)
  {
    DivMod(n, w);
    var q := n / w;
    DivMod(q, h);
    x, y, z := n % w, q % h, q / h;
    assert n == (z * h + y) * w + x;
    Regroup(z, h, y, w, x);
  }

  /**
   * Every flat index of a `w` by `h` by `d` array is the index of a cell:
   * its column, row and slice are the remainders and quotient of the index
   * by the row width and the slice size.
   */
  lemma Decompose(n: nat, w: nat, h: nat, d: nat)
    requires w > 0 && h > 0 && n < w * h * d
    ensures exists c: (nat, nat, nat) :: IsCell(c, n, w, h, d)
  {
    var x, y, z := FlatSplit(n, w, h);
    SliceBelow(z, w * h, n, d);
    assert IsCell((x, y, z), n, w, h, d);
  }

  lemma DivMod(n: nat, m: nat)
    requires m > 0
    ensures n == (n / m) * m + n % m && n % m < m
  {
  }

  predicate IsCell(c: (nat, nat, nat), n: nat, w: nat, h: nat, d: nat) {
    c.0 < w && c.1 < h && c.2 < d && KernelIndex(c.0, c.1, c.2, w, h) == n
  }

  /** The cell of a `w` by `h` by `d` array whose flat index is `n`. */
  ghost function CellOf(n: nat, w: nat, h: nat, d: nat): (c: (nat, nat, nat))
    requires w > 0 && h > 0 && n < w * h * d
    ensures c.0 < w && c.1 < h && c.2 < d && KernelIndex(c.0, c.1, c.2, w, h) == n
  {
    Decompose(n, w, h, d);
    var c: (nat, nat, nat) :| IsCell(c, n, w, h, d);
    c
  }

  /** The cell whose flat index is `KernelIndex(x, y, z)` is (`x`, `y`, `z`). */
  lemma CellOfIndex(x: nat, y: nat, z: nat, w: nat, h: nat, d: nat)
    requires x < w && y < h && z < d
    ensures KernelIndex(x, y, z, w, h) < w * h * d && CellOf(KernelIndex(x, y, z, w, h), w, h, d) == (x, y, z)
  {
    KernelIndexInRange(x, y, z, w, h, d);
    var c := CellOf(KernelIndex(x, y, z, w, h), w, h, d);
    KernelIndexInjective(x, y, z, c.0, c.1, c.2, w, h);
  }

  /** The `w` by `h` by `d` array whose cell (`x`, `y`, `z`) is `f(x, y, z)`. */
  ghost function Grid(w: nat, h: nat, d: nat, f: (nat, nat, nat) -> real): (r: seq<real>)
    ensures |r| == w * h * d
  {
    seq(w * h * d, n requires 0 <= n < w * h * d =>
      if w > 0 && h > 0 then var c := CellOf(n, w, h, d); f(c.0, c.1, c.2) else 0.0)
  }

  lemma GridCells(w: nat, h: nat, d: nat, f: (nat, nat, nat) -> real)
    ensures forall x: nat, y: nat, z: nat | x < w && y < h && z < d :: Pooling.At3(Grid(w, h, d, f), w, h, d, x, y, z) == f(x, y, z)
  {
    forall x: nat, y: nat, z: nat | x < w && y < h && z < d
      ensures Pooling.At3(Grid(w, h, d, f), w, h, d, x, y, z) == f(x, y, z)
    {
      CellOfIndex(x, y, z, w, h, d);
    }
  }

  /** An array is determined by its cells. */
  lemma GridUnique(v: seq<real>, w: nat, h: nat, d: nat, f: (nat, nat, nat) -> real)
    requires |v| == w * h * d
    requires forall x: nat, y: nat, z: nat | x < w && y < h && z < d :: Pooling.At3(v, w, h, d, x, y, z) == f(x, y, z)
    ensures v == Grid(w, h, d, f)
  {
    var g := Grid(w, h, d, f);
    forall n | 0 <= n < |v|
      ensures v[n] == g[n]
    {
      assert w > 0 && h > 0;
      var c := CellOf(n, w, h, d);
      assert Pooling.At3(v, w, h, d, c.0, c.1, c.2) == v[n];
    }
  }

  /*
   * The pixel copy.
   */

  /**
   * The loops copy `image[j][i][k]` into sample cell (`i`, `j`, `k`) for
   * `i < imgW`, `j < imgH`, `k < channels`, so they subscript rows up to
   * `imgH - 1` and columns up to `imgW - 1`. They throw exactly when some
   * subscript is out of range, which needs a pixel to be visited at all.
   */
  predicate CopyFails(img: Image, imgW: nat, imgH: nat) {
    img.channels > 0 && imgW > 0 && imgH > 0 && !(imgH <= img.height && imgW <= img.width)
  }

  /** What sample cell (`i`, `j`, `k`) receives: `normalize(image[j][i][k])`, or 0 where there is no such pixel. */
  function Source(img: Image, normalize: nat -> real): (nat, nat, nat) -> real {
    (i: nat, j: nat, k: nat) => if WellFormed(img) && j < img.height && i < img.width && k < img.channels then normalize(Pixel(img, j, i, k)) else 0.0
  }

  /**
   * The sample the copy produces, an `imgW` by `imgH` by `channels` array
   * whose cell (`i`, `j`, `k`) is `normalize(image[j][i][k])`, or the throw.
   */
  ghost function CopyPixels(img: Image, imgW: nat, imgH: nat, normalize: nat -> real): (r: Result<seq<real>>)
    ensures r.Err? <==> CopyFails(img, imgW, imgH)
    ensures r.Err? ==> r.message == OutOfRange
    ensures r.Ok? ==> |r.value| == imgW * imgH * img.channels
  {
    if CopyFails(img, imgW, imgH) then Err(OutOfRange) else Ok(Grid(imgW, imgH, img.channels, Source(img, normalize)))
  }

  /** A copy that succeeds holds `normalize(image[j][i][k])` in cell (`i`, `j`, `k`). */
  lemma CopyReads(img: Image, imgW: nat, imgH: nat, normalize: nat -> real)
    requires WellFormed(img) && !CopyFails(img, imgW, imgH)
    ensures forall i: nat, j: nat, k: nat | i < imgW && j < imgH && k < img.channels ::
      j < img.height && i < img.width &&
      Pooling.At3(CopyPixels(img, imgW, imgH, normalize).value, imgW, imgH, img.channels, i, j, k) == normalize(Pixel(img, j, i, k))
  {
    GridCells(imgW, imgH, img.channels, Source(img, normalize));
  }

  /** The pixel-copy loop invariant: cells before (`i`, `j`, `k`) in loop order are copied, the rest are 0. */
  ghost predicate CopiedBefore(f: (nat, nat, nat) -> real, w: nat, h: nat, d: nat, v: seq<real>, i: nat, j: nat, k: nat)
    requires |v| == w * h * d
  {
    forall x: nat, y: nat, z: nat | x < w && y < h && z < d ::
      Pooling.At3(v, w, h, d, x, y, z) == if y < j || (y == j && (x < i || (x == i && z < k))) then f(x, y, z) else 0.0
  }

  lemma CopyStart(f: (nat, nat, nat) -> real, w: nat, h: nat, d: nat)
    ensures CopiedBefore(f, w, h, d, seq(w * h * d, _ => 0.0), 0, 0, 0)
  {
    var v := seq(w * h * d, _ => 0.0);
    forall x: nat, y: nat, z: nat | x < w && y < h && z < d
      ensures Pooling.At3(v, w, h, d, x, y, z) == 0.0
    {
      KernelIndexInRange(x, y, z, w, h, d);
    }
  }

  lemma CopyNext(f: (nat, nat, nat) -> real, w: nat, h: nat, d: nat, v: seq<real>, i: nat, j: nat, k: nat)
    requires |v| == w * h * d && i < w && j < h && k < d
    requires CopiedBefore(f, w, h, d, v, i, j, k)
    ensures CopiedBefore(f, w, h, d, Pooling.Set3(v, w, h, d, i, j, k, f(i, j, k)), i, j, k + 1)
  {
    var v' := Pooling.Set3(v, w, h, d, i, j, k, f(i, j, k));
    forall x: nat, y: nat, z: nat | x < w && y < h && z < d
      ensures Pooling.At3(v', w, h, d, x, y, z) == if y < j || (y == j && (x < i || (x == i && z < k + 1))) then f(x, y, z) else 0.0
    {
      assert Pooling.At3(v', w, h, d, x, y, z) == if x == i && y == j && z == k then f(i, j, k) else Pooling.At3(v, w, h, d, x, y, z);
    }
  }

  /** The loops of the pixel copy: rows `j`, then columns `i`, then channels `k`. */
  method CopyImage(img: Image, imgW: nat, imgH: nat, normalize: nat -> real) returns (r: Result<seq<real>>)
    requires WellFormed(img)
    ensures r == CopyPixels(img, imgW, imgH, normalize)
  {
    ghost var f := Source(img, normalize);
    var v := seq(imgW * imgH * img.channels, _ => 0.0);
    CopyStart(f, imgW, imgH, img.channels);
    var j := 0;
    while j < imgH
      invariant j <= imgH && |v| == imgW * imgH * img.channels
      invariant CopiedBefore(f, imgW, imgH, img.channels, v, 0, j, 0)
      invariant img.channels > 0 && imgW > 0 && j > 0 ==> j <= img.height && imgW <= img.width
    {
      var row := CopyRow(img, imgW, imgH, normalize, v, j);
      if row.Err? {
        return row;
      }
      v := row.value;
      j := j + 1;
    }
    CopyDone(img, imgW, imgH, normalize, v);
    return Ok(v);
  }

  /** Once every row is copied without going past the image, the copy is the grid of source pixels. */
  lemma CopyDone(img: Image, imgW: nat, imgH: nat, normalize: nat -> real, v: seq<real>)
    requires |v| == imgW * imgH * img.channels
    requires CopiedBefore(Source(img, normalize), imgW, imgH, img.channels, v, 0, imgH, 0)
    requires img.channels > 0 && imgW > 0 && imgH > 0 ==> imgH <= img.height && imgW <= img.width
    ensures CopyPixels(img, imgW, imgH, normalize) == Ok(v)
  {
    GridUnique(v, imgW, imgH, img.channels, Source(img, normalize));
  }

  /** Row `j` of the pixel copy: columns `i`, then channels `k`. */
  method CopyRow(img: Image, imgW: nat, imgH: nat, normalize: nat -> real, v: seq<real>, j: nat) returns (r: Result<seq<real>>)
    requires WellFormed(img) && j < imgH && |v| == imgW * imgH * img.channels
    requires CopiedBefore(Source(img, normalize), imgW, imgH, img.channels, v, 0, j, 0)
    ensures r.Err? ==> r == CopyPixels(img, imgW, imgH, normalize)
    ensures r.Ok? ==> |r.value| == |v| && CopiedBefore(Source(img, normalize), imgW, imgH, img.channels, r.value, 0, j + 1, 0)
    ensures r.Ok? && img.channels > 0 && imgW > 0 ==> j < img.height && imgW <= img.width
  {
    ghost var f := Source(img, normalize);
    var w := v;
    var i := 0;
    while i < imgW
      invariant i <= imgW && |w| == |v|
      invariant CopiedBefore(f, imgW, imgH, img.channels, w, i, j, 0)
      invariant img.channels > 0 && i > 0 ==> j < img.height && i <= img.width
    {
      var k := 0;
      while k < img.channels
        invariant k <= img.channels && |w| == |v|
        invariant CopiedBefore(f, imgW, imgH, img.channels, w, i, j, k)
        invariant k > 0 ==> j < img.height && i < img.width
      {
        if j >= img.height || i >= img.width {
          return Err(OutOfRange);
        }
        CopyNext(f, imgW, imgH, img.channels, w, i, j, k);
        w := Pooling.Set3(w, imgW, imgH, img.channels, i, j, k, normalize(Pixel(img, j, i, k)));
        k := k + 1;
      }
      assert CopiedBefore(f, imgW, imgH, img.channels, w, i + 1, j, 0);
      i := i + 1;
    }
    assert CopiedBefore(f, imgW, imgH, img.channels, w, 0, j + 1, 0);
    return Ok(w);
  }

  /**
   * As written, the loops take `imgW` and `imgH` from the first two
   * extents of the bitmap, which are its height and its width.
   */
  function ExtentsAsWritten(img: Image): (nat, nat) {
    (img.height, img.width)
  }

  /** The evidently intended extents: the sample is as wide as the bitmap's rows and as high as its column count. */
  function ExtentsIntended(img: Image): (nat, nat) {
    (img.width, img.height)
  }

  /** As written, every non-square bitmap with pixels throws, such as a bitmap of 1 row of 2 pixels. */
  lemma NonSquareThrows(img: Image)
    requires img.channels > 0 && img.width > 0 && img.height > 0
    ensures CopyFails(img, ExtentsAsWritten(img).0, ExtentsAsWritten(img).1) <==> img.width != img.height
  {
  }

  /** With the intended extents the copy never throws and cell (`i`, `j`, `k`) is `image[j][i][k]`. */
  lemma IntendedCopyReads(img: Image, normalize: nat -> real)
    requires WellFormed(img)
    ensures var (imgW, imgH) := ExtentsIntended(img);
      var r := CopyPixels(img, imgW, imgH, normalize);
      r.Ok? && forall i: nat, j: nat, k: nat | i < imgW && j < imgH && k < img.channels ::
        Pooling.At3(r.value, imgW, imgH, img.channels, i, j, k) == normalize(Pixel(img, j, i, k))
  {
    CopyReads(img, img.width, img.height, normalize);
  }

  /*
   * What visiting one directory entry does.
   */

  /** Visiting an entry skips it, yields a sample, or throws. */
  datatype Item = Skip | Yield(sample: Sample) | Fail(message: string)

  /**
   * The sample a decoded bitmap becomes, copied with the extents as
   * written: a non-square bitmap with pixels throws "Subscript out of
   * range", any other yields a sample of shape (height, width, channels).
   */
  ghost function ImageSample(name: string, img: Image, normalize: nat -> real): (r: Result<Sample>)
    requires WellFormed(img)
    ensures r.Err? <==> CopyFails(img, img.height, img.width)
    ensures r.Err? ==> r.message == OutOfRange
    ensures r.Ok? ==> r.value.classLabel == name && WellShaped(r.value)
    ensures r.Ok? ==> r.value.shape == [img.height, img.width, img.channels]
  {
    var (imgW, imgH) := ExtentsAsWritten(img);
    match CopyPixels(img, imgW, imgH, normalize)
    case Err(m) => Err(m)
    case Ok(v) => Ok(Sample(name, [imgW, imgH, img.channels], v))
  }

  /**
   * A non-regular entry is skipped; a regular file is decoded and copied
   * into a sample carrying the directory's label, and a bitmap that fails
   * to load throws.
   */
  ghost function ItemOf(name: string, e: Entry, normalize: nat -> real): (r: Item)
    requires e.bitmap.Ok? ==> WellFormed(e.bitmap.value)
    ensures r.Skip? <==> !e.regular
    ensures r.Fail? <==> e.regular && (e.bitmap.Err? || ImageSample(name, e.bitmap.value, normalize).Err?)
    ensures r.Fail? && e.bitmap.Err? ==> r.message == e.bitmap.message
    ensures r.Fail? && e.bitmap.Ok? ==> r.message == OutOfRange
    ensures r.Yield? ==> r.sample.classLabel == name && WellShaped(r.sample)
  {
    if !e.regular then Skip
    else match e.bitmap
      case Err(m) => Fail(m)
      case Ok(img) =>
        match ImageSample(name, img, normalize)
        case Err(m) => Fail(m)
        case Ok(s) => Yield(s)
  }

  /** What the loader reads: one directory listing per label, and its settings. */
  datatype Corpus = Corpus(labels: seq<string>, dirs: seq<seq<Entry>>, fetchSize: nat, normalize: nat -> real)

  /** One directory per label, and every bitmap `loadBitmap` decodes is well formed. */
  ghost predicate Consistent(k: Corpus) {
    |k.dirs| == |k.labels| &&
    forall c, n | 0 <= c < |k.dirs| && 0 <= n < |k.dirs[c]| && k.dirs[c][n].bitmap.Ok? :: WellFormed(k.dirs[c][n].bitmap.value)
  }

  /*
   * The specification of `loadSamples`, over what each entry does.
   */

  /** The labels, what visiting each entry of each label's directory does, and the fetch size. */
  datatype Plan = Plan(labels: seq<string>, items: seq<seq<Item>>, fetchSize: nat)

  /** One directory per label, whose samples carry that label and are well shaped. */
  ghost predicate Labelled(w: Plan) {
    |w.items| == |w.labels| &&
    forall c, n | 0 <= c < |w.items| && 0 <= n < |w.items[c]| && w.items[c][n].Yield? ::
      w.items[c][n].sample.classLabel == w.labels[c] && WellShaped(w.items[c][n].sample)
  }

  /** The plan of a corpus. */
  ghost function PlanOf(k: Corpus): (w: Plan)
    requires Consistent(k)
    ensures Labelled(w) && w.labels == k.labels && w.fetchSize == k.fetchSize
    ensures forall c | 0 <= c < |k.dirs| :: |w.items[c]| == |k.dirs[c]|
    ensures forall c, n | 0 <= c < |k.dirs| && 0 <= n < |k.dirs[c]| :: w.items[c][n] == ItemOf(k.labels[c], k.dirs[c][n], k.normalize)
  {
    Plan(k.labels, seq(|k.dirs|, c requires 0 <= c < |k.dirs| =>
      seq(|k.dirs[c]|, n requires 0 <= n < |k.dirs[c]| => ItemOf(k.labels[c], k.dirs[c][n], k.normalize))), k.fetchSize)
  }

  /** One cursor per directory, each at an entry or at the end. */
  predicate Cursors(w: Plan, cursors: seq<nat>) {
    |cursors| == |w.items| && forall c | 0 <= c < |cursors| :: cursors[c] <= |w.items[c]|
  }

  /** The number of entries the cursors have still to visit. */
  function Remaining(items: seq<seq<Item>>, cursors: seq<nat>): nat
    requires |cursors| == |items| && forall c | 0 <= c < |cursors| :: cursors[c] <= |items[c]|
  {
    if |items| == 0 then 0 else |items[0]| - cursors[0] + Remaining(items[1..], cursors[1..])
  }

  /** Advancing one unfinished cursor leaves one entry fewer to visit. */
  lemma {:induction false} RemainingAdvance(items: seq<seq<Item>>, cursors: seq<nat>, c: nat)
    requires |cursors| == |items| && forall i | 0 <= i < |cursors| :: cursors[i] <= |items[i]|
    requires c < |cursors| && cursors[c] < |items[c]|
    ensures Remaining(items, cursors[c := cursors[c] + 1]) + 1 == Remaining(items, cursors)
  {
    var cursors' := cursors[c := cursors[c] + 1];
    if c > 0 {
      assert cursors'[1..] == cursors[1..][c - 1 := cursors[c] + 1];
      RemainingAdvance(items[1..], cursors[1..], c - 1);
    } else {
      assert cursors'[1..] == cursors[1..];
    }
  }

  /** The labels of a run of samples. */
  function LabelsOf(samples: seq<Sample>): (r: seq<string>)
    ensures |r| == |samples| && forall i | 0 <= i < |r| :: r[i] == samples[i].classLabel
  {
    seq(|samples|, i requires 0 <= i < |samples| => samples[i].classLabel)
  }

  /** Where a call stands: the cursors, the output so far, and `samplesLoaded`. */
  datatype Progress = Progress(cursors: seq<nat>, out: seq<Sample>, loaded: nat)

  /**
   * `p` continues `st`: it appends to the output, counts each appended
   * sample, stays within the fetch size, and appends only well-shaped
   * samples carrying one of the labels.
   */
  ghost predicate Extends(w: Plan, st: Progress, p: Progress) {
    Cursors(w, p.cursors) && st.out <= p.out && p.loaded == st.loaded + (|p.out| - |st.out|) && p.loaded <= w.fetchSize &&
    forall i | |st.out| <= i < |p.out| :: p.out[i].classLabel in w.labels && WellShaped(p.out[i])
  }

  lemma ExtendsTrans(w: Plan, a: Progress, b: Progress, c: Progress)
    requires Extends(w, a, b) && Extends(w, b, c)
    ensures Extends(w, a, c)
  {
    forall i | |a.out| <= i < |c.out|
      ensures c.out[i].classLabel in w.labels && WellShaped(c.out[i])
    {
      if i < |b.out| {
        assert c.out[i] == b.out[i];
      }
    }
  }

  /**
   * One visit to the unfinished cursor `c`: a sample is appended and
   * counted, a skipped entry adds nothing, and either way the cursor moves
   * on. A throw leaves the cursor where it is.
   */
  ghost function Visit(w: Plan, st: Progress, c: nat): (r: Result<Progress>)
    requires Labelled(w) && Cursors(w, st.cursors) && st.loaded < w.fetchSize
    requires c < |st.cursors| && st.cursors[c] < |w.items[c]|
    ensures r.Err? <==> w.items[c][st.cursors[c]].Fail?
    ensures r.Err? ==> r.message == w.items[c][st.cursors[c]].message
    ensures r.Ok? ==> Extends(w, st, r.value) && r.value.cursors == st.cursors[c := st.cursors[c] + 1]
    ensures r.Ok? ==> LabelsOf(r.value.out) == LabelsOf(st.out) + (if w.items[c][st.cursors[c]].Yield? then [w.labels[c]] else [])
  {
    var cursors := st.cursors[c := st.cursors[c] + 1];
    match w.items[c][st.cursors[c]]
    case Skip => Ok(st.(cursors := cursors))
    case Fail(m) => Err(m)
    case Yield(s) => Ok(Progress(cursors, st.out + [s], st.loaded + 1))
  }

  /** The end of a pass: where it stands, how many cursors it found exhausted, and the throw if any. */
  datatype PassEnd = PassEnd(p: Progress, finished: nat, failure: Option<string>)

  /**
   * The rest of one pass of `loadSamples`' inner loop, from cursor `c`
   * with `finished` exhausted cursors counted so far. An exhausted cursor
   * is counted and skipped; the pass breaks off once the fetch is full.
   */
  ghost function Pass(w: Plan, st: Progress, c: nat, finished: nat): (e: PassEnd)
    requires Labelled(w) && Cursors(w, st.cursors) && st.loaded < w.fetchSize && c <= |w.labels|
    ensures Extends(w, st, e.p) && finished <= e.finished <= finished + (|w.labels| - c)
    decreases |w.labels| - c
  {
    if c == |w.labels| then
      PassEnd(st, finished, None)
    else if st.cursors[c] == |w.items[c]| then
      Pass(w, st, c + 1, finished + 1)
    else
      match Visit(w, st, c)
      case Err(m) => PassEnd(st, finished, Some(m))
      case Ok(p) =>
        if p.loaded >= w.fetchSize then PassEnd(p, finished, None)
        else
          var e := Pass(w, p, c + 1, finished);
          ExtendsTrans(w, st, p, e.p);
          e
  }

  /** A pass that leaves some cursor uncounted and does not throw advances a cursor. */
  lemma {:induction false} PassProgress(w: Plan, st: Progress, c: nat, finished: nat)
    requires Labelled(w) && Cursors(w, st.cursors) && st.loaded < w.fetchSize && c <= |w.labels|
    ensures var e := Pass(w, st, c, finished);
      Remaining(w.items, e.p.cursors) <= Remaining(w.items, st.cursors) &&
      (e.failure.None? && e.finished < finished + (|w.labels| - c) ==> Remaining(w.items, e.p.cursors) < Remaining(w.items, st.cursors))
    decreases |w.labels| - c, 1
  {
    if c == |w.labels| {
    } else if st.cursors[c] == |w.items[c]| {
      PassProgress(w, st, c + 1, finished + 1);
      assert Pass(w, st, c, finished) == Pass(w, st, c + 1, finished + 1);
    } else {
      VisitProgress(w, st, c, finished);
    }
  }

  /** `PassProgress` when cursor `c` has an entry to visit: the visit advances that cursor. */
  lemma {:induction false} VisitProgress(w: Plan, st: Progress, c: nat, finished: nat)
    requires Labelled(w) && Cursors(w, st.cursors) && st.loaded < w.fetchSize && c < |w.labels|
    requires st.cursors[c] < |w.items[c]|
    ensures var e := Pass(w, st, c, finished);
      Remaining(w.items, e.p.cursors) <= Remaining(w.items, st.cursors) &&
      (e.failure.None? ==> Remaining(w.items, e.p.cursors) < Remaining(w.items, st.cursors))
    decreases |w.labels| - c, 0
  {
    var v := Visit(w, st, c);
    if v.Err? {
      assert Pass(w, st, c, finished).p == st;
    } else {
      RemainingAdvance(w.items, st.cursors, c);
      if v.value.loaded < w.fetchSize {
        PassProgress(w, v.value, c + 1, finished);
        assert Pass(w, st, c, finished) == Pass(w, v.value, c + 1, finished);
      } else {
        assert Pass(w, st, c, finished) == PassEnd(v.value, finished, None);
      }
    }
  }

  /** A pass that counts every cursor from `c` on as exhausted changes nothing, and they are exhausted. */
  lemma {:induction false} PassAllFinished(w: Plan, st: Progress, c: nat, finished: nat)
    requires Labelled(w) && Cursors(w, st.cursors) && st.loaded < w.fetchSize && c <= |w.labels|
    requires Pass(w, st, c, finished).finished == finished + (|w.labels| - c)
    ensures Pass(w, st, c, finished) == PassEnd(st, finished + (|w.labels| - c), None)
    ensures forall i | c <= i < |w.labels| :: st.cursors[i] == |w.items[i]|
    decreases |w.labels| - c
  {
    if c < |w.labels| {
      if st.cursors[c] == |w.items[c]| {
        PassAllFinished(w, st, c + 1, finished + 1);
      }
    }
  }

  /** A pass over cursors that are all exhausted counts them all and changes nothing. */
  lemma {:induction false} ExhaustedPass(w: Plan, st: Progress, c: nat, finished: nat)
    requires Labelled(w) && Cursors(w, st.cursors) && st.loaded < w.fetchSize && c <= |w.labels|
    requires forall i | c <= i < |w.labels| :: st.cursors[i] == |w.items[i]|
    ensures Pass(w, st, c, finished) == PassEnd(st, finished + (|w.labels| - c), None)
    decreases |w.labels| - c
  {
    if c < |w.labels| {
      ExhaustedPass(w, st, c + 1, finished + 1);
    }
  }

  /**
   * Round robin: when every cursor from `c` on is at a sample and the
   * fetch has room for all of them, the pass appends one sample per label,
   * in label order, and advances each of those cursors.
   */
  lemma {:induction false} PassRoundRobin(w: Plan, st: Progress, c: nat, finished: nat)
    requires Labelled(w) && Cursors(w, st.cursors) && st.loaded < w.fetchSize && c <= |w.labels|
    requires st.loaded + (|w.labels| - c) <= w.fetchSize
    requires forall i | c <= i < |w.labels| :: st.cursors[i] < |w.items[i]| && w.items[i][st.cursors[i]].Yield?
    ensures var e := Pass(w, st, c, finished);
      e.failure.None? && e.finished == finished && LabelsOf(e.p.out) == LabelsOf(st.out) + w.labels[c..] &&
      forall i | 0 <= i < |w.labels| :: e.p.cursors[i] == if i < c then st.cursors[i] else st.cursors[i] + 1
    decreases |w.labels| - c
  {
    if c < |w.labels| {
      var p := Visit(w, st, c).value;
      if p.loaded < w.fetchSize {
        PassRoundRobin(w, p, c + 1, finished);
        assert w.labels[c..] == [w.labels[c]] + w.labels[c + 1..];
      } else {
        assert c + 1 == |w.labels|;
      }
    }
  }

  /** The result of a call: where it stopped, and the throw if any. */
  datatype Outcome = Outcome(p: Progress, failure: Option<string>)

  /**
   * `loadSamples` from `st`: passes until the fetch is full, a pass finds
   * every cursor exhausted, or a bitmap fails to load.
   */
  ghost function Load(w: Plan, st: Progress): (r: Outcome)
    requires Labelled(w) && Cursors(w, st.cursors) && st.loaded <= w.fetchSize
    ensures Extends(w, st, r.p)
    decreases Remaining(w.items, st.cursors)
  {
    if st.loaded >= w.fetchSize then
      Outcome(st, None)
    else
      var e := Pass(w, st, 0, 0);
      if e.failure.Some? then Outcome(e.p, e.failure)
      else if e.finished == |w.labels| then Outcome(e.p, None)
      else
        PassProgress(w, st, 0, 0);
        var r := Load(w, e.p);
        ExtendsTrans(w, st, e.p, r.p);
        r
  }

  /** A call that does not throw stops only with a full fetch or with every cursor exhausted. */
  lemma {:induction false} LoadStops(w: Plan, st: Progress)
    requires Labelled(w) && Cursors(w, st.cursors) && st.loaded <= w.fetchSize
    ensures var r := Load(w, st);
      r.failure.None? ==> r.p.loaded == w.fetchSize || forall c | 0 <= c < |w.labels| :: r.p.cursors[c] == |w.items[c]|
    decreases Remaining(w.items, st.cursors)
  {
    if st.loaded < w.fetchSize {
      var e := Pass(w, st, 0, 0);
      if e.failure.None? {
        if e.finished == |w.labels| {
          PassAllFinished(w, st, 0, 0);
        } else {
          PassProgress(w, st, 0, 0);
          LoadStops(w, e.p);
        }
      }
    }
  }

  /** With every cursor exhausted a call appends nothing and returns 0, however large the fetch. */
  lemma ExhaustedLoadsNothing(w: Plan, st: Progress)
    requires Labelled(w) && Cursors(w, st.cursors) && st.loaded <= w.fetchSize
    requires forall c | 0 <= c < |w.labels| :: st.cursors[c] == |w.items[c]|
    ensures Load(w, st) == Outcome(st, None)
  {
    if st.loaded < w.fetchSize {
      ExhaustedPass(w, st, 0, 0);
    }
  }

  /*
   * The loops of `loadSamples`.
   */

  /** Visits one entry: `loadBitmap`, then the pixel copy with the extents as written. */
  method Decode(name: string, e: Entry, normalize: nat -> real) returns (r: Item)
    requires e.bitmap.Ok? ==> WellFormed(e.bitmap.value)
    ensures r == ItemOf(name, e, normalize)
  {
    if !e.regular {
      return Skip;
    }
    match e.bitmap {
      case Err(m) =>
        return Fail(m);
      case Ok(img) =>
        var (imgW, imgH) := ExtentsAsWritten(img);
        var v := CopyImage(img, imgW, imgH, normalize);
        match v {
          case Err(m) =>
            return Fail(m);
          case Ok(data) =>
            return Yield(Sample(name, [imgW, imgH, img.channels], data));
        }
    }
  }

  /**
   * The visit of the entry under cursor `c`: decode it, advance the cursor,
   * and append the sample it yields.
   */
  method VisitEntry(k: Corpus, st: Progress, c: nat) returns (r: Result<Progress>)
    requires Consistent(k) && Cursors(PlanOf(k), st.cursors) && st.loaded < k.fetchSize
    requires c < |st.cursors| && st.cursors[c] < |k.dirs[c]|
    ensures r == Visit(PlanOf(k), st, c)
  {
    var item := Decode(k.labels[c], k.dirs[c][st.cursors[c]], k.normalize);
    var cursors := st.cursors[c := st.cursors[c] + 1];
    match item {
      case Skip =>
        r := Ok(st.(cursors := cursors));
      case Fail(m) =>
        r := Err(m);
      case Yield(s) =>
        r := Ok(Progress(cursors, st.out + [s], st.loaded + 1));
    }
  }

  /** One pass of the inner loop over the cursors. */
  method RunPass(k: Corpus, st: Progress) returns (e: PassEnd)
    requires Consistent(k) && Cursors(PlanOf(k), st.cursors) && st.loaded < k.fetchSize
    ensures e == Pass(PlanOf(k), st, 0, 0)
  {
    ghost var w := PlanOf(k);
    var cur := st;
    var finished := 0;
    var c := 0;
    while c < |k.labels|
      invariant c <= |k.labels| && Cursors(w, cur.cursors) && cur.loaded < k.fetchSize
      invariant Pass(w, cur, c, finished) == Pass(w, st, 0, 0)
    {
      if cur.cursors[c] == |k.dirs[c]| {
        finished := finished + 1;
      } else {
        var v := VisitEntry(k, cur, c);
        if v.Err? {
          return PassEnd(cur, finished, Some(v.message));
        }
        cur := v.value;
        if cur.loaded >= k.fetchSize {
          return PassEnd(cur, finished, None);
        }
      }
      c := c + 1;
    }
    return PassEnd(cur, finished, None);
  }

  /** The outer loop: passes until the fetch is full, every cursor is exhausted, or a bitmap fails. */
  method LoadFrom(k: Corpus, st: Progress) returns (r: Outcome)
    requires Consistent(k) && Cursors(PlanOf(k), st.cursors) && st.loaded <= k.fetchSize
    ensures r == Load(PlanOf(k), st)
  {
    ghost var w := PlanOf(k);
    var cur := st;
    while cur.loaded < k.fetchSize
      invariant Cursors(w, cur.cursors) && cur.loaded <= k.fetchSize
      invariant Load(w, cur) == Load(w, st)
      decreases Remaining(w.items, cur.cursors)
    {
      var e := RunPass(k, cur);
      if e.failure.Some? {
        return Outcome(e.p, e.failure);
      }
      if e.finished == |k.labels| {
        return Outcome(e.p, None);
      }
      PassProgress(w, cur, 0, 0);
      cur := e.p;
    }
    return Outcome(cur, None);
  }

  /*
   * Opening the directories.
   */

  /** A path as `std::filesystem::path` prints it, in double quotes. */
  function Quoted(path: string): string {
    "\"" + path + "\""
  }

  /** The message of the constructor's directory checks. */
  function NotADirectory(path: string): string {
    "'" + Quoted(path) + "' is not a directory"
  }

  /** `directory/label`. */
  function JoinPath(dir: string, name: string): string {
    dir + "/" + name
  }

  /** `labels[i]` is the first label without a directory. */
  predicate FirstMissing(path: string, labels: seq<string>, fs: map<string, seq<Entry>>, i: nat)
    requires i < |labels|
  {
    JoinPath(path, labels[i]) !in fs && forall j | 0 <= j < i :: JoinPath(path, labels[j]) in fs
  }

  /**
   * The constructor's loop: one cursor per label, in label order, over the
   * directory `path/label`; the first label without a directory throws.
   * The file system maps each directory's path to its listing.
   */
  method OpenDirectories(path: string, labels: seq<string>, fs: map<string, seq<Entry>>) returns (r: Result<seq<seq<Entry>>>)
    ensures r.Ok? <==> forall i | 0 <= i < |labels| :: JoinPath(path, labels[i]) in fs
    ensures r.Ok? ==> |r.value| == |labels| && forall i | 0 <= i < |labels| :: r.value[i] == fs[JoinPath(path, labels[i])]
    ensures r.Err? ==> exists i | 0 <= i < |labels| :: FirstMissing(path, labels, fs, i) && r.message == NotADirectory(JoinPath(path, labels[i]))
  {
    var dirs: seq<seq<Entry>> := [];
    var i := 0;
    while i < |labels|
      invariant i <= |labels| && |dirs| == i
      invariant forall j | 0 <= j < i :: JoinPath(path, labels[j]) in fs && dirs[j] == fs[JoinPath(path, labels[j])]
    {
      var dir := JoinPath(path, labels[i]);
      if dir !in fs {
        return Err(NotADirectory(dir));
      }
      dirs := dirs + [fs[dir]];
      i := i + 1;
    }
    return Ok(dirs);
  }

  /** Every bitmap in the file system decodes to a well-formed image. */
  ghost predicate Decodable(fs: map<string, seq<Entry>>) {
    forall d, n | d in fs && 0 <= n < |fs[d]| && fs[d][n].bitmap.Ok? :: WellFormed(fs[d][n].bitmap.value)
  }

  /** The image data loader: a corpus and one cursor per label. */
  class ImageDataLoader {
    const directoryPath: string
    const corpus: Corpus
    /** The position of each label's `directory_iterator`. */
    var cursors: seq<nat>

    ghost predicate Valid()
      reads this
    {
      Consistent(corpus) && Cursors(PlanOf(corpus), cursors)
    }

    constructor (directoryPath: string, corpus: Corpus)
      requires Consistent(corpus)
      ensures Valid() && this.directoryPath == directoryPath && this.corpus == corpus
      ensures cursors == seq(|corpus.labels|, _ => 0)
    {
      this.directoryPath, this.corpus := directoryPath, corpus;
      cursors := seq(|corpus.labels|, _ => 0);
    }

    /**
     * The constructor: the directory and each label's sub-directory must
     * exist; each label gets a cursor at the start of its directory.
     */
    static method Create(directoryPath: string, fs: map<string, seq<Entry>>, labels: seq<string>, normalize: nat -> real, fetchSize: nat)
      returns (r: Result<ImageDataLoader>)
      requires Decodable(fs)
      ensures directoryPath !in fs ==> r == Err(NotADirectory(directoryPath))
      ensures directoryPath in fs ==> (r.Ok? <==> forall i | 0 <= i < |labels| :: JoinPath(directoryPath, labels[i]) in fs)
      ensures r.Err? && directoryPath in fs ==> exists i | 0 <= i < |labels| :: FirstMissing(directoryPath, labels, fs, i) && r.message == NotADirectory(JoinPath(directoryPath, labels[i]))
      ensures r.Ok? ==> fresh(r.value) && r.value.Valid() && r.value.cursors == seq(|labels|, _ => 0)
      ensures r.Ok? ==> r.value.corpus.labels == labels && r.value.corpus.fetchSize == fetchSize && r.value.corpus.normalize == normalize
      ensures r.Ok? ==> forall i | 0 <= i < |labels| :: r.value.corpus.dirs[i] == fs[JoinPath(directoryPath, labels[i])]
    {
      if directoryPath !in fs {
        return Err(NotADirectory(directoryPath));
      }
      var dirs := OpenDirectories(directoryPath, labels, fs);
      if dirs.Err? {
        return Err(dirs.message);
      }
      var loader := new ImageDataLoader(directoryPath, Corpus(labels, dirs.value, fetchSize, normalize));
      return Ok(loader);
    }

    /** `seekToBeginning`: every cursor back to the start of its directory. */
    method SeekToBeginning()
      requires Valid()
      modifies this
      ensures Valid() && cursors == seq(|corpus.labels|, _ => 0)
    {
      cursors := seq(|corpus.labels|, _ => 0);
    }

    /**
     * `loadSamples`: appends to `samples` and returns how many it appended;
     * a bitmap that fails to load throws, after the samples before it have
     * been appended and their cursors moved on.
     */
    method LoadSamples(samples: seq<Sample>) returns (out: seq<Sample>, r: Result<nat>)
      requires Valid()
      modifies this
      ensures Valid()
      ensures var o := Load(PlanOf(corpus), Progress(old(cursors), samples, 0));
        cursors == o.p.cursors && out == o.p.out && r == if o.failure.Some? then Err(o.failure.value) else Ok(o.p.loaded)
      ensures samples <= out && |out| - |samples| <= corpus.fetchSize
      ensures r.Ok? ==> r.value == |out| - |samples|
    {
      var o := LoadFrom(corpus, Progress(cursors, samples, 0));
      cursors := o.p.cursors;
      out := o.p.out;
      r := if o.failure.Some? then Err(o.failure.value) else Ok(o.p.loaded);
    }
  }
}
