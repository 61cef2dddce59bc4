/**
 * Windows BMP files as cpputils reads and writes them: a packed 54-byte
 * header (14-byte file header then 40-byte image header, little-endian)
 * followed by the pixel rows, each padded with zero bytes to a multiple of
 * four bytes. A bitmap in memory is a three-dimensional `ContigMultiArray`
 * of bytes with extents (rows, columns, channels).
 */
module Bitmap {
  import opened Wrappers
  import opened ContigArray

  type Byte = b: int | 0 <= b < 256

  const Two16: nat := 0x1_0000
  const Two32: nat := 0x1_0000_0000

  /** `BMP_HEADER_SIZE`: the packed size of the two headers together. */
  const HeaderSize: nat := 54

  /** The smallest multiple of four that holds `rowBytes` bytes: `ceil(0.25 * rowBytes) * 4`. */
  function PaddedRowBytes(rowBytes: nat): (r: nat)
    ensures r % 4 == 0 && rowBytes <= r < rowBytes + 4
  {
    (rowBytes + 3) / 4 * 4
  }

  /** Any multiple of four that holds a row is at least the padded row size. */
  lemma PaddedRowBytesLeast(rowBytes: nat, m: nat)
    requires m % 4 == 0 && rowBytes <= m
    ensures PaddedRowBytes(rowBytes) <= m
  {
    assert (rowBytes + 3) / 4 <= (m + 3) / 4 == m / 4;
    assert PaddedRowBytes(rowBytes) == (rowBytes + 3) / 4 * 4 <= m / 4 * 4 == m;
  }

  // Small arithmetic facts about row offsets.

  /** One more row of `k` bytes: `n * k + k` is `(n + 1) * k`. */
  lemma MulSucc(n: nat, k: nat)
    ensures n * k + k == (n + 1) * k
  {
  }

  lemma MulMono(m: nat, n: nat, k: nat)
    requires m <= n
    ensures m * k <= n * k
  {
  }

  /*
   * The header.
   */

  /** The header fields cpputils sets; the others are constants (type "BM", 40, one plane, no compression, zeros). */
  datatype BmpHeader = BmpHeader(fileSize: nat, offset: nat, width: nat, height: nat, bitCount: nat, imgSize: nat)

  /** Each field fits its `uint32_t` (or, for `bitCount`, `uint16_t`) slot. */
  predicate WellFormed(h: BmpHeader)
  {
    h.fileSize < Two32 && h.offset < Two32 && h.width < Two32 && h.height < Two32 &&
    h.bitCount < Two16 && h.imgSize < Two32
  }

  /**
   * The `BmpHeader(imgW, imgH, channels, rawSize)` constructor. The file size
   * `54 + h * ceil(0.25 * w * channels) * 4` and the bit count `channels * 8`
   * are computed in 32- and 16-bit unsigned arithmetic.
   */
  function MakeHeader(w: nat, h: nat, channels: nat, rawSize: nat): (r: BmpHeader)
    requires w < Two32 && h < Two32 && channels < Two16 && rawSize < Two32
    ensures WellFormed(r) && r.offset == HeaderSize
    ensures r.width == w && r.height == h && r.imgSize == rawSize
    ensures channels * 8 < Two16 ==> r.bitCount / 8 == channels
  {
    var fileSize := (HeaderSize + h * PaddedRowBytes(w * channels)) % Two32;
    BmpHeader(fileSize, HeaderSize, w, h, (channels * 8) % Two16, rawSize)
  }

  function Le16(x: nat): (r: seq<Byte>)
    requires x < Two16
    ensures |r| == 2
  {
    [x % 256, x / 256]
  }

  function Le32(x: nat): (r: seq<Byte>)
    requires x < Two32
    ensures |r| == 4
  {
    [x % 256, (x / 256) % 256, (x / 0x1_0000) % 256, x / 0x100_0000]
  }

  /** The little-endian `uint16_t` at byte `i`. */
  function U16At(s: seq<Byte>, i: nat): (r: nat)
    requires i + 2 <= |s|
    ensures r < Two16
  {
    s[i] as int + 256 * (s[i + 1] as int)
  }

  /** The little-endian `uint32_t` at byte `i`. */
  function U32At(s: seq<Byte>, i: nat): (r: nat)
    requires i + 4 <= |s|
    ensures r < Two32
  {
    s[i] as int + 256 * (s[i + 1] as int) + 0x1_0000 * (s[i + 2] as int) + 0x100_0000 * (s[i + 3] as int)
  }

  lemma Le16RoundTrip(x: nat, s: seq<Byte>, i: nat)
    requires x < Two16 && i + 2 <= |s| && s[i..i + 2] == Le16(x)
    ensures U16At(s, i) == x
  {
    assert s[i] == x % 256 && s[i + 1] == x / 256;
  }

  lemma Le32RoundTrip(x: nat, s: seq<Byte>, i: nat)
    requires x < Two32 && i + 4 <= |s| && s[i..i + 4] == Le32(x)
    ensures U32At(s, i) == x
  {
    var e := Le32(x);
    assert s[i] == e[0] && s[i + 1] == e[1] && s[i + 2] == e[2] && s[i + 3] == e[3] by {
      assert s[i..i + 4][0] == s[i] && s[i..i + 4][1] == s[i + 1];
      assert s[i..i + 4][2] == s[i + 2] && s[i..i + 4][3] == s[i + 3];
    }
    Le32Value(x);
  }

  /** The four bytes of `Le32(x)`, weighted by their place, add up to `x`. */
  lemma Le32Value(x: nat)
    requires x < Two32
    ensures var e := Le32(x);
      e[0] as int + 256 * (e[1] as int) + 0x1_0000 * (e[2] as int) + 0x100_0000 * (e[3] as int) == x
  {
    var q1 := x / 256;
    var q2 := q1 / 256;
    var q3 := q2 / 256;
    assert x == 256 * q1 + x % 256;
    assert q1 == 256 * q2 + q1 % 256;
    assert q2 == 256 * q3 + q2 % 256;
    assert x / 0x1_0000 == q2;
    assert x / 0x100_0000 == q3;
  }

  /** The packed 54 bytes `stream.write` sends for a header. */
  function EncodeHeader(h: BmpHeader): (r: seq<Byte>)
    requires WellFormed(h)
    ensures |r| == HeaderSize
  {
    [66, 77] + Le32(h.fileSize) + Le16(0) + Le16(0) + Le32(h.offset) +
    Le32(40) + Le32(h.width) + Le32(h.height) + Le16(1) + Le16(h.bitCount) +
    Le32(0) + Le32(h.imgSize) + Le32(0) + Le32(0) + Le32(0) + Le32(0)
  }

  /** The header fields `stream.read` fills from the first 54 bytes of a file. */
  function DecodeHeader(s: seq<Byte>): (r: BmpHeader)
    requires HeaderSize <= |s|
    ensures WellFormed(r)
  {
    BmpHeader(U32At(s, 2), U32At(s, 10), U32At(s, 18), U32At(s, 22), U16At(s, 28), U32At(s, 34))
  }

  /** Reading back a written header gives the same fields, whatever follows it. */
  lemma HeaderRoundTrip(h: BmpHeader, rest: seq<Byte>)
    requires WellFormed(h)
    ensures DecodeHeader(EncodeHeader(h) + rest) == h
  {
    var s := EncodeHeader(h) + rest;
    assert s[2..6] == Le32(h.fileSize);
    assert s[10..14] == Le32(h.offset);
    assert s[18..22] == Le32(h.width);
    assert s[22..26] == Le32(h.height);
    assert s[28..30] == Le16(h.bitCount);
    assert s[34..38] == Le32(h.imgSize);
    Le32RoundTrip(h.fileSize, s, 2);
    Le32RoundTrip(h.offset, s, 10);
    Le32RoundTrip(h.width, s, 18);
    Le32RoundTrip(h.height, s, 22);
    Le16RoundTrip(h.bitCount, s, 28);
    Le32RoundTrip(h.imgSize, s, 34);
  }

  /*
   * The pixel rows.
   */

  function Zeros(n: nat): (r: seq<Byte>)
    ensures |r| == n && forall i | 0 <= i < n :: r[i] == 0
  {
    seq(n, _ => 0)
  }

  /** Whether `pixels` is exactly `n` rows of `rowBytes` bytes. */
  predicate ExactRows(pixels: seq<Byte>, rowBytes: nat, n: nat)
  {
    if n == 0 then pixels == []
    else rowBytes <= |pixels| && ExactRows(pixels[rowBytes..], rowBytes, n - 1)
  }

  /** `n` rows of `rowBytes` bytes are `n * rowBytes` bytes. */
  lemma {:induction false} ExactRowsLength(pixels: seq<Byte>, rowBytes: nat, n: nat)
    ensures ExactRows(pixels, rowBytes, n) <==> |pixels| == n * rowBytes
  {
    if n > 0 {
      MulSucc(n - 1, rowBytes);
      if rowBytes <= |pixels| {
        ExactRowsLength(pixels[rowBytes..], rowBytes, n - 1);
      }
    }
  }

  /** The bytes `saveBitmap` writes after the header: each row followed by `pad` zero bytes. */
  function SaveRows(pixels: seq<Byte>, rowBytes: nat, pad: nat, n: nat): (r: seq<Byte>)
    requires ExactRows(pixels, rowBytes, n)
  {
    if n == 0 then []
    else pixels[..rowBytes] + Zeros(pad) + SaveRows(pixels[rowBytes..], rowBytes, pad, n - 1)
  }

  /** Whether `file` holds `n` rows of `rowBytes` bytes, `padded` bytes apart, from its start. */
  predicate RowsAvailable(file: seq<Byte>, rowBytes: nat, padded: nat, n: nat)
  {
    n == 0 ||
    (rowBytes <= |file| && (n == 1 || (padded <= |file| && RowsAvailable(file[padded..], rowBytes, padded, n - 1))))
  }

  /** The bytes `loadBitmap` keeps from `n` rows at the start of `file`: each row without its padding. */
  function LoadRows(file: seq<Byte>, rowBytes: nat, padded: nat, n: nat): seq<Byte>
    requires RowsAvailable(file, rowBytes, padded, n)
  {
    if n == 0 then []
    else if n == 1 then file[..rowBytes]
    else file[..rowBytes] + LoadRows(file[padded..], rowBytes, padded, n - 1)
  }

  /** Loading `n` rows gives `n` rows of `rowBytes` bytes. */
  lemma {:induction false} LoadRowsExact(file: seq<Byte>, rowBytes: nat, padded: nat, n: nat)
    requires RowsAvailable(file, rowBytes, padded, n)
    ensures ExactRows(LoadRows(file, rowBytes, padded, n), rowBytes, n)
    ensures |LoadRows(file, rowBytes, padded, n)| == n * rowBytes
  {
    var r := LoadRows(file, rowBytes, padded, n);
    if n == 1 {
      assert r[rowBytes..] == [];
    } else if n > 1 {
      var rest := LoadRows(file[padded..], rowBytes, padded, n - 1);
      LoadRowsExact(file[padded..], rowBytes, padded, n - 1);
      assert r[rowBytes..] == rest;
    }
    ExactRowsLength(r, rowBytes, n);
  }

  /** Loading the rows of a saved body, whatever follows it, gives back the pixel bytes. */
  lemma {:induction false} RowsRoundTrip(pixels: seq<Byte>, rowBytes: nat, pad: nat, n: nat, rest: seq<Byte>)
    requires ExactRows(pixels, rowBytes, n)
    ensures RowsAvailable(SaveRows(pixels, rowBytes, pad, n) + rest, rowBytes, rowBytes + pad, n)
    ensures LoadRows(SaveRows(pixels, rowBytes, pad, n) + rest, rowBytes, rowBytes + pad, n) == pixels
  {
    if n > 0 {
      var row, tail := pixels[..rowBytes], pixels[rowBytes..];
      var file := SaveRows(pixels, rowBytes, pad, n) + rest;
      var later := SaveRows(tail, rowBytes, pad, n - 1) + rest;
      assert file == row + Zeros(pad) + later;
      assert file[..rowBytes] == row;
      assert file[rowBytes + pad..] == later;
      if n == 1 {
        assert tail == [];
      } else {
        RowsRoundTrip(tail, rowBytes, pad, n - 1, rest);
      }
      assert row + tail == pixels;
    }
  }

  /*
   * Whole files.
   */

  /** `rows * paddedRowSize * channels`, the image-size field as the source computes it. */
  function ImgSizeAsWritten(rows: nat, paddedRowSize: nat, channels: nat): (r: nat)
    ensures r < Two32
    ensures rows * paddedRowSize * channels < Two32 ==> r == rows * paddedRowSize * channels
  {
    (rows * paddedRowSize * channels) % Two32
  }

  /** The image-size field as the BMP format defines it: the bytes of the padded pixel rows. */
  function ImgSize(rows: nat, paddedRowSize: nat): (r: nat)
    ensures r < Two32
    ensures rows * paddedRowSize < Two32 ==> r == rows * paddedRowSize
  {
    (rows * paddedRowSize) % Two32
  }

  /** `rows` saved rows of `rowBytes` bytes with padding `pad` take `rows * (rowBytes + pad)` bytes. */
  lemma {:induction false} SaveRowsLength(pixels: seq<Byte>, rowBytes: nat, pad: nat, n: nat)
    requires ExactRows(pixels, rowBytes, n)
    ensures |SaveRows(pixels, rowBytes, pad, n)| == n * (rowBytes + pad)
  {
    if n > 0 {
      SaveRowsLength(pixels[rowBytes..], rowBytes, pad, n - 1);
      MulSucc(n - 1, rowBytes + pad);
    }
  }

  /** For a 2×2 RGB image the written field is 48 where the file holds 16 bytes of rows. */
  lemma ImgSizeCountsChannelsTwice()
    ensures PaddedRowBytes(2 * 3) == 8
    ensures ImgSizeAsWritten(2, 8, 3) == 48 && ImgSize(2, 8) == 16
    ensures ExactRows(Zeros(12), 6, 2) && |SaveRows(Zeros(12), 6, 2, 2)| == 16
  {
    ExactRowsLength(Zeros(12), 6, 2);
    SaveRowsLength(Zeros(12), 6, 2, 2);
  }

  /** The corrected field is the number of bytes that follow the header. */
  lemma ImgSizeIsBodySize(pixels: seq<Byte>, rows: nat, rowBytes: nat)
    requires ExactRows(pixels, rowBytes, rows) && rows * PaddedRowBytes(rowBytes) < Two32
    ensures ImgSize(rows, PaddedRowBytes(rowBytes)) == |SaveRows(pixels, rowBytes, PaddedRowBytes(rowBytes) - rowBytes, rows)|
  {
    SaveRowsLength(pixels, rowBytes, PaddedRowBytes(rowBytes) - rowBytes, rows);
  }

  /** Extents saveBitmap can write without its `uint32_t` casts dropping bits. */
  predicate Saveable(size: seq<nat>)
  {
    |size| == 3 && size[0] < Two32 && size[1] < Two32 && size[2] < Two16 &&
    PaddedRowBytes(size[1] * size[2]) < Two32
  }

  /** The header `saveBitmap` writes for the given extents. */
  function SavedHeader(size: seq<nat>): (r: BmpHeader)
    requires Saveable(size)
    ensures WellFormed(r)
  {
    var rows, cols, channels := size[0], size[1], size[2];
    MakeHeader(cols, rows, channels, ImgSizeAsWritten(rows, PaddedRowBytes(cols * channels), channels))
  }

  /** The file `saveBitmap` writes for a bitmap with the given extents and pixel bytes. */
  function SavedFile(size: seq<nat>, pixels: seq<Byte>): (r: seq<Byte>)
    requires Saveable(size) && ExactRows(pixels, size[1] * size[2], size[0])
  {
    var rowBytes := size[1] * size[2];
    EncodeHeader(SavedHeader(size)) + SaveRows(pixels, rowBytes, PaddedRowBytes(rowBytes) - rowBytes, size[0])
  }

  /** The stream after `seekg` to the header's pixel offset: empty when the offset is past the end. */
  function PixelStream(file: seq<Byte>): (r: seq<Byte>)
    requires HeaderSize <= |file|
    ensures DecodeHeader(file).offset <= |file| ==> r == file[DecodeHeader(file).offset..]
    ensures |file| < DecodeHeader(file).offset ==> r == []
  {
    var offset := DecodeHeader(file).offset;
    if offset <= |file| then file[offset..] else []
  }

  /** The bytes of one pixel row without padding: `width * channels`, with `bitCount / 8` channels. */
  function RowBytes(h: BmpHeader): nat
  {
    h.width * (h.bitCount / 8)
  }

  /** Whether `loadBitmap` finds the header and every pixel row in a file. */
  predicate Loadable(file: seq<Byte>)
  {
    HeaderSize <= |file| &&
    var h := DecodeHeader(file);
    var rowBytes := RowBytes(h);
    RowsAvailable(PixelStream(file), rowBytes, PaddedRowBytes(rowBytes), h.height)
  }

  /** The extents `loadBitmap` gives a file: (height, width, bitCount / 8). */
  function LoadedExtents(file: seq<Byte>): (r: seq<nat>)
    requires HeaderSize <= |file|
    ensures |r| == 3
  {
    var h := DecodeHeader(file);
    [h.height, h.width, h.bitCount / 8]
  }

  /** The pixel bytes `loadBitmap` gives a file: its rows from the header's offset on, padding dropped. */
  function LoadedPixels(file: seq<Byte>): (r: seq<Byte>)
    requires Loadable(file)
    ensures var e := LoadedExtents(file); ExactRows(r, e[1] * e[2], e[0])
  {
    var h := DecodeHeader(file);
    var rowBytes := RowBytes(h);
    LoadRowsExact(PixelStream(file), rowBytes, PaddedRowBytes(rowBytes), h.height);
    LoadRows(PixelStream(file), rowBytes, PaddedRowBytes(rowBytes), h.height)
  }

  /** Saving then loading gives back the extents and the pixel bytes. */
  lemma SaveLoadRoundTrip(size: seq<nat>, pixels: seq<Byte>)
    requires Saveable(size) && size[2] * 8 < Two16 && ExactRows(pixels, size[1] * size[2], size[0])
    ensures Loadable(SavedFile(size, pixels))
    ensures LoadedExtents(SavedFile(size, pixels)) == size
    ensures LoadedPixels(SavedFile(size, pixels)) == pixels
  {
    var rowBytes := size[1] * size[2];
    var pad := PaddedRowBytes(rowBytes) - rowBytes;
    var file := SavedFile(size, pixels);
    SavedFileSplits(size, pixels);
    var d := DecodeHeader(file);
    assert RowBytes(d) == rowBytes;
    RowsRoundTrip(pixels, rowBytes, pad, size[0], []);
    assert SaveRows(pixels, rowBytes, pad, size[0]) + [] == PixelStream(file);
  }

  /** A saved file decodes to the saved extents, and its pixel stream is the saved rows. */
  lemma SavedFileSplits(size: seq<nat>, pixels: seq<Byte>)
    requires Saveable(size) && size[2] * 8 < Two16 && ExactRows(pixels, size[1] * size[2], size[0])
    ensures HeaderSize <= |SavedFile(size, pixels)|
    ensures var d := DecodeHeader(SavedFile(size, pixels));
      d.width == size[1] && d.height == size[0] && d.bitCount / 8 == size[2] && d.offset == HeaderSize
    ensures var rowBytes := size[1] * size[2];
      PixelStream(SavedFile(size, pixels)) == SaveRows(pixels, rowBytes, PaddedRowBytes(rowBytes) - rowBytes, size[0])
  {
    var rowBytes := size[1] * size[2];
    var h := SavedHeader(size);
    var body := SaveRows(pixels, rowBytes, PaddedRowBytes(rowBytes) - rowBytes, size[0]);
    var file := EncodeHeader(h) + body;
    assert file == SavedFile(size, pixels);
    HeaderRoundTrip(h, body);
    assert file[HeaderSize..] == body;
  }

  /** The message `loadBitmap` and `saveBitmap` throw with; a path is streamed in double quotes. */
  function OpenError(verb: string, path: string): string
  {
    "Error " + verb + " bitmap " + (if verb == "loading" then "from " else "at ") + "\"" + path + "\""
  }

  /** One `read` of `src` into `data` at `at`: the bytes before `at` are kept. */
  method ReadInto(data: array<Byte>, at: nat, src: seq<Byte>)
    requires at + |src| <= data.Length
    modifies data
    ensures data[..at + |src|] == old(data[..at]) + src
  {
    forall j | 0 <= j < |src| {
      data[at + j] := src[j];
    }
  }

  /** Moving one row from the part still to load to the part loaded keeps the whole. */
  lemma Regroup(before: seq<Byte>, row: seq<Byte>, rest: seq<Byte>, now: seq<Byte>, later: seq<Byte>, whole: seq<Byte>)
    requires now == before + row && later == row + rest && before + later == whole
    ensures now + rest == whole
  {
    assert now + rest == before + (row + rest);
  }

  /**
   * Reading one row from the stream and then ignoring up to `padded - rowBytes`
   * bytes leaves the stream at the next row: loading the remaining `m - 1` rows
   * from there gives the rest of what loading `m` rows gives.
   */
  lemma ReadRowStep(stream: seq<Byte>, rowBytes: nat, padded: nat, m: nat, skip: nat)
    requires m > 0 && RowsAvailable(stream, rowBytes, padded, m)
    requires skip == if padded <= |stream| then padded else |stream|
    ensures rowBytes <= |stream|
    ensures RowsAvailable(stream[skip..], rowBytes, padded, m - 1)
    ensures LoadRows(stream, rowBytes, padded, m) == stream[..rowBytes] + LoadRows(stream[skip..], rowBytes, padded, m - 1)
  {
  }

  /**
   * One pass of the row loop of `loadBitmap`: reads the next row of `rest`
   * into `data` at `ptr` and ignores its padding.
   */
  method ReadRow(data: array<Byte>, ptr: nat, rest: seq<Byte>, rowBytes: nat, padded: nat, m: nat,
                 ghost loaded: seq<Byte>, ghost pixels: seq<Byte>) returns (rest': seq<Byte>, ghost loaded': seq<Byte>)
    requires m > 0 && RowsAvailable(rest, rowBytes, padded, m)
    requires ptr == |loaded| <= data.Length == |pixels|
    requires data[..ptr] == loaded && loaded + LoadRows(rest, rowBytes, padded, m) == pixels
    modifies data
    ensures RowsAvailable(rest', rowBytes, padded, m - 1)
    ensures ptr + rowBytes == |loaded'| <= data.Length
    ensures data[..ptr + rowBytes] == loaded' && loaded' + LoadRows(rest', rowBytes, padded, m - 1) == pixels
  {
    var skip := if padded <= |rest| then padded else |rest|;
    ReadRowStep(rest, rowBytes, padded, m, skip);
    ghost var left := LoadRows(rest, rowBytes, padded, m);
    ghost var after := LoadRows(rest[skip..], rowBytes, padded, m - 1);
    var line := rest[..rowBytes];
    assert left == line + after;
    assert ptr + rowBytes <= data.Length by {
      assert |loaded| + |left| == |pixels|;
    }
    ReadInto(data, ptr, line);
    Regroup(loaded, line, after, loaded + line, left, pixels);
    rest', loaded' := rest[skip..], loaded + line;
  }

  /**
   * The row loop of `loadBitmap`: `stream` is the file from the pixel offset on;
   * each row is read into `data` and its padding is ignored.
   */
  method ReadRows(stream: seq<Byte>, rowBytes: nat, padded: nat, n: nat, data: array<Byte>)
    requires RowsAvailable(stream, rowBytes, padded, n)
    requires data.Length == n * rowBytes
    modifies data
    ensures data[..] == LoadRows(stream, rowBytes, padded, n)
  {
    ghost var pixels := LoadRows(stream, rowBytes, padded, n);
    LoadRowsExact(stream, rowBytes, padded, n);
    var rest := stream;
    var ptr: nat, row: nat := 0, 0;
    ghost var loaded: seq<Byte> := [];
    var left := n;
    while row < n
      invariant row <= n && left == n - row && ptr == |loaded| <= data.Length == |pixels|
      invariant RowsAvailable(rest, rowBytes, padded, left)
      invariant data[..ptr] == loaded && loaded + LoadRows(rest, rowBytes, padded, left) == pixels
    {
      rest, loaded := ReadRow(data, ptr, rest, rowBytes, padded, left, loaded, pixels);
      ptr, row, left := ptr + rowBytes, row + 1, left - 1;
    }
    ReadAll(data[..], ptr, LoadRows(rest, rowBytes, padded, left), pixels);
  }

  /** When nothing is left to load, the loaded prefix is the whole array. */
  lemma ReadAll(all: seq<Byte>, ptr: nat, left: seq<Byte>, pixels: seq<Byte>)
    requires ptr <= |all| == |pixels| && left == [] && all[..ptr] + left == pixels
    ensures all == pixels
  {
    assert all[..ptr] == pixels;
  }

  /** The number of elements of a three-dimensional array. */
  lemma Product3(a: nat, b: nat, c: nat)
    ensures Product([a, b, c]) == a * b * c == a * (b * c)
  {
    assert [a, b, c][1..] == [b, c] && [b, c][1..] == [c] && [c][1..] == [];
    assert Product([c]) == c;
    assert a * b * c == a * (b * c);
  }

  /**
   * `loadBitmap`: `file` is the content of the file at `path`, or `None`
   * when it cannot be opened. Reads the header, then `height` rows of
   * `width * channels` bytes from the header's offset on, skipping each
   * row's padding, into a new owned bitmap.
   */
  method LoadBitmap(path: string, file: Option<seq<Byte>>) returns (r: Result<ContigMultiArray<Byte>>)
    requires file.Some? ==> Loadable(file.value)
    ensures file.None? <==> r.Err?
    ensures r.Err? ==> r.message == OpenError("loading", path)
    ensures r.Ok? ==> fresh(r.value) && fresh(r.value.data) && r.value.Valid() && r.value.data != null
    ensures r.Ok? ==> r.value.FreesBuffer() && r.value.offset == 0
    ensures r.Ok? ==> r.value.size == LoadedExtents(file.value)
    ensures r.Ok? ==> r.value.data[..] == LoadedPixels(file.value)
  {
    if file.None? {
      return Err(OpenError("loading", path));
    }
    var bytes := file.value;
    var header := DecodeHeader(bytes);
    var channels := header.bitCount / 8;
    var size := [header.height, header.width, channels];
    Product3(size[0], size[1], size[2]);
    var data := new Byte[size[0] * size[1] * size[2]];
    var rowBytes := size[1] * channels;
    var stream := if header.offset <= |bytes| then bytes[header.offset..] else [];
    assert stream == PixelStream(bytes);
    ReadRows(stream, rowBytes, PaddedRowBytes(rowBytes), size[0], data);
    assert size[0] == 0 ==> data[..] == [];
    var bitmap := new ContigMultiArray.View(data, 0, size, true);
    return Ok(bitmap);
  }

  /**
   * The row loop of `saveBitmap`: appends each of `n` rows of `rowBytes`
   * bytes, from `data[from..]`, followed by `rowPadding` zero bytes.
   */
  method WriteRows(out: seq<Byte>, data: array<Byte>, from: nat, rowBytes: nat, rowPadding: nat, n: nat,
                   ghost pixels: seq<Byte>) returns (r: seq<Byte>)
    requires from + |pixels| <= data.Length && data[from..from + |pixels|] == pixels
    requires ExactRows(pixels, rowBytes, n)
    ensures r == out + SaveRows(pixels, rowBytes, rowPadding, n)
  {
    ghost var whole := out + SaveRows(pixels, rowBytes, rowPadding, n);
    r := out;
    var ptr: nat := 0;
    var row: nat := 0;
    while row < n
      invariant row <= n && ptr <= |pixels|
      invariant ExactRows(pixels[ptr..], rowBytes, n - row)
      invariant r + SaveRows(pixels[ptr..], rowBytes, rowPadding, n - row) == whole
    {
      assert pixels[ptr..][rowBytes..] == pixels[ptr + rowBytes..];
      assert data[from + ptr..from + ptr + rowBytes] == pixels[ptr..][..rowBytes];
      r := r + data[from + ptr..from + ptr + rowBytes];
      r := r + Zeros(rowPadding);
      ptr := ptr + rowBytes;
      row := row + 1;
    }
  }

  /**
   * `saveBitmap`: the bytes written to `path`, or the exception when the
   * file cannot be opened for writing (`writable` false). Writes the header,
   * then each row followed by `rowPadding` zero bytes; the padding is below 4.
   */
  method SaveBitmap(bitmap: ContigMultiArray<Byte>, path: string, writable: bool) returns (r: Result<seq<Byte>>)
    requires bitmap.Valid() && bitmap.data != null && Saveable(bitmap.size)
    ensures !writable <==> r.Err?
    ensures r.Err? ==> r.message == OpenError("saving", path)
    ensures r.Ok? ==> ExactRows(bitmap.Elements(), bitmap.size[1] * bitmap.size[2], bitmap.size[0])
    ensures r.Ok? ==> r.value == SavedFile(bitmap.size, bitmap.Elements())
  {
    if !writable {
      return Err(OpenError("saving", path));
    }
    var rows, cols, channels := bitmap.size[0], bitmap.size[1], bitmap.size[2];
    var rowBytes := cols * channels;
    var paddedRowSize := PaddedRowBytes(rowBytes);
    var rowPadding := paddedRowSize - rowBytes;
    assert rowPadding <= 4;
    var out := EncodeHeader(SavedHeader(bitmap.size));
    Product3(rows, cols, channels);
    assert bitmap.size == [rows, cols, channels];
    ghost var pixels := bitmap.Elements();
    ExactRowsLength(pixels, rowBytes, rows);
    out := WriteRows(out, bitmap.data, bitmap.offset, rowBytes, rowPadding, rows, pixels);
    return Ok(out);
  }
}
