/**
 The PNG file a canvas is written as (scripts/smoke/images.py, `to_png` and `_chunk`), and a
 reader for it in the terms of RFC 2083: signature, length-prefixed chunks with a check word,
 a thirteen byte header and unfiltered scanlines. Compression and the check word are functions
 of which only one thing is used: inflating undoes deflating.
 */
module Pngs {

  import opened Canvases
  import opened Wrappers

  const WORDS := 0x1_0000_0000
  const MAX_SIGNED := 0x7FFF_FFFF // the largest length, width and height RFC 2083 allows

  type Bytes = seq<Byte>
  type Word = n: int | 0 <= n < 0x1_0000_0000

  datatype Codec = Codec(deflate: Bytes -> Bytes, inflate: Bytes -> Option<Bytes>, crc: Bytes -> Word)

  ghost predicate Lossless(z: Codec) {
    forall data: Bytes :: z.inflate(z.deflate(data)) == Some(data)
  }

  datatype Unpackable = Unpackable(number: nat)

  const SIGNATURE: Bytes := [137, 80, 78, 71, 13, 10, 26, 10]
  const IHDR: Bytes := [73, 72, 68, 82]
  const IDAT: Bytes := [73, 68, 65, 84]
  const IEND: Bytes := [73, 69, 78, 68]

  // ----- Writing -----

  function PackWord(n: Word): (s: Bytes)
    ensures |s| == 4
  {
    [n / 0x100_0000, n / 0x1_0000 % 256, n / 256 % 256, n % 256]
  }

  /** `struct.pack(">I", n)`, which raises for a number that needs more than four bytes. */
  function Pack(n: nat): Result<Bytes, Unpackable> {
    if n < WORDS then Ok(PackWord(n)) else Err(Unpackable(n))
  }

  function ChunkBytes(z: Codec, tag: Bytes, data: Bytes): Result<Bytes, Unpackable> {
    match Pack(|data|)
    case Ok(length) => Ok(length + (tag + (data + PackWord(z.crc(tag + data)))))
    case Err(e) => Err(e)
  }

  function HeaderBytes(w: Word, h: Word): (s: Bytes)
    ensures |s| == 13
  {
    PackWord(w) + (PackWord(h) + [8, 2, 0, 0, 0])
  }

  /** The scanlines from row y on: a zero filter byte and the row's pixels, for each. */
  function Scanlines(pixels: Bytes, w: nat, h: nat, y: nat): (s: Bytes)
    requires Sized(pixels, w, h) && y <= h
    decreases h - y
  {
    if y == h then []
    else
      RowSpan(w, h, y);
      [0] + (pixels[y * (w * 3)..(y + 1) * (w * 3)] + Scanlines(pixels, w, h, y + 1))
  }

  lemma RowSpan(w: nat, h: nat, y: nat)
    requires y < h
    ensures 0 <= y * (w * 3) && (y + 1) * (w * 3) == y * (w * 3) + w * 3 && y * (w * 3) + w * 3 <= 3 * (w * h)
    ensures y * (w * 3) == 3 * (y * w)
  {
    RowEnd(w, h, y);
    assert y * (w * 3) == 3 * (y * w);
    assert (y + 1) * (w * 3) == y * (w * 3) + w * 3;
  }

  method ChunkOf(z: Codec, tag: Bytes, data: Bytes) returns (r: Result<Bytes, Unpackable>)
    requires |tag| == 4
    ensures r == ChunkBytes(z, tag, data)
    ensures r.Err? <==> |data| >= WORDS
  {
    var length := Pack(|data|);
    match length
    case Err(e) => r := Err(e);
    case Ok(bytes) =>
      var body := tag + data;
      var check := z.crc(body);
      r := Ok(bytes + tag + data + PackWord(check));
      assert bytes + tag + data + PackWord(check) == bytes + (tag + (data + PackWord(check)));
  }

  function FileBytes(z: Codec, w: nat, h: nat, pixels: Bytes): Result<Bytes, Unpackable>
    requires Sized(pixels, w, h)
  {
    if w >= WORDS then Err(Unpackable(w))
    else if h >= WORDS then Err(Unpackable(h))
    else
      var data := z.deflate(Scanlines(pixels, w, h, 0));
      if |data| >= WORDS then Err(Unpackable(|data|))
      else Ok(SIGNATURE + (ChunkBytes(z, IHDR, HeaderBytes(w, h)).value +
                           (ChunkBytes(z, IDAT, data).value + ChunkBytes(z, IEND, []).value)))
  }

  method ToPng(canvas: Canvas, z: Codec) returns (r: Result<Bytes, Unpackable>)
    requires canvas.Valid()
    ensures r == FileBytes(z, canvas.width, canvas.height, canvas.pixels)
  {
    var w, h := canvas.width, canvas.height;
    var raw: Bytes := [];
    var stride := w * 3;
    for y := 0 to h
      invariant raw + Scanlines(canvas.pixels, w, h, y) == Scanlines(canvas.pixels, w, h, 0)
    {
      RowSpan(w, h, y);
      var row := canvas.pixels[y * stride..(y + 1) * stride];
      assert raw + ([0] + (row + Scanlines(canvas.pixels, w, h, y + 1)))
          == raw + [0] + row + Scanlines(canvas.pixels, w, h, y + 1);
      raw := raw + [0];
      raw := raw + row;
    }
    assert raw == Scanlines(canvas.pixels, w, h, 0);
    if w >= WORDS { return Err(Unpackable(w)); }
    if h >= WORDS { return Err(Unpackable(h)); }
    var first := ChunkOf(z, IHDR, HeaderBytes(w, h));
    var middle := ChunkOf(z, IDAT, z.deflate(raw));
    var last := ChunkOf(z, IEND, []);
    if middle.Err? { return middle; }
    r := Ok(SIGNATURE + first.value + middle.value + last.value);
    assert SIGNATURE + first.value + middle.value + last.value
        == SIGNATURE + (first.value + (middle.value + last.value));
  }

  // ----- Reading (RFC 2083) -----

  datatype Chunk = Chunk(tag: Bytes, data: Bytes)

  datatype Image = Image(width: nat, height: nat, rows: seq<seq<RGB>>)

  function WordAt(s: Bytes, i: nat): Word
    requires i + 4 <= |s|
  {
    (s[i] as int) * 0x100_0000 + (s[i + 1] as int) * 0x1_0000 + (s[i + 2] as int) * 256 + s[i + 3]
  }

  /** Sections 3.2 and 3.4: length, type, data, check word over type and data; the length is at most 2^31 - 1. */
  function ReadChunk(z: Codec, s: Bytes): (r: Option<(Chunk, Bytes)>)
    ensures r.Some? ==> |r.value.1| < |s|
  {
    if |s| < 12 then None
    else
      var n := WordAt(s, 0);
      if n > MAX_SIGNED || |s| < 12 + n then None
      else if WordAt(s, 8 + n) != z.crc(s[4..8 + n]) then None
      else Some((Chunk(s[4..8], s[8..8 + n]), s[12 + n..]))
  }

  function ReadChunks(z: Codec, s: Bytes): Option<seq<Chunk>>
    decreases |s|
  {
    if s == [] then Some([])
    else
      match ReadChunk(z, s)
      case None => None
      case Some((c, rest)) =>
        match ReadChunks(z, rest)
        case None => None
        case Some(cs) => Some([c] + cs)
  }

  /** The image data is spread over the IDAT chunks in order (section 4.1.3); this reader takes no other kind between them. */
  function ImageData(cs: seq<Chunk>): Option<Bytes> {
    if cs == [] then Some([])
    else
      match ImageData(cs[1..])
      case None => None
      case Some(rest) =>
        if cs[0].tag == IDAT then Some(cs[0].data + rest)
        else None
  }

  function ReadRow(s: Bytes, w: nat): (row: seq<RGB>)
    requires |s| == 3 * w
    ensures |row| == w && forall x :: 0 <= x < w ==> row[x] == Triple(s, x)
  {
    seq(w, x requires 0 <= x < w => Triple(s, x))
  }

  /** Scanlines of filter type 0 (section 6.2), top to bottom. */
  function ReadRows(s: Bytes, w: nat, h: nat): (r: Option<seq<seq<RGB>>>)
    ensures r.Some? ==> |r.value| == h && (h > 0 ==> s != [] && s[0] == 0)
    decreases h
  {
    if h == 0 then (if s == [] then Some([]) else None)
    else if |s| < 1 + 3 * w || s[0] != 0 then None
    else
      match ReadRows(s[1 + 3 * w..], w, h - 1)
      case None => None
      case Some(rows) => Some([ReadRow(s[1..1 + 3 * w], w)] + rows)
  }

  /** Section 4.1.1: sides from 1 to 2^31 - 1, eight bits a sample, colour type 2, no interlace. */
  function ReadHeader(s: Bytes): Option<(nat, nat)> {
    if |s| != 13 || s[8..] != [8, 2, 0, 0, 0] then None
    else if 1 <= WordAt(s, 0) <= MAX_SIGNED && 1 <= WordAt(s, 4) <= MAX_SIGNED then Some((WordAt(s, 0), WordAt(s, 4)))
    else None
  }

  function Assemble(z: Codec, cs: seq<Chunk>): Option<Image> {
    if |cs| < 3 || cs[0].tag != IHDR || cs[|cs| - 1] != Chunk(IEND, []) then None
    else
      match (ReadHeader(cs[0].data), ImageData(cs[1..|cs| - 1]))
      case (Some((w, h)), Some(packed)) =>
        (match z.inflate(packed)
         case None => None
         case Some(raw) =>
           match ReadRows(raw, w, h)
           case None => None
           case Some(rows) => Some(Image(w, h, rows)))
      case _ => None
  }

  function Decode(z: Codec, file: Bytes): Option<Image> {
    if |file| < 8 || file[..8] != SIGNATURE then None
    else
      match ReadChunks(z, file[8..])
      case None => None
      case Some(cs) => Assemble(z, cs)
  }

  // ----- Round trip -----

  lemma UnpackWord(n: Word, before: Bytes, after: Bytes)
    ensures WordAt(before + (PackWord(n) + after), |before|) == n
  {
    var s := before + (PackWord(n) + after);
    assert s[|before|] == PackWord(n)[0] && s[|before| + 1] == PackWord(n)[1];
    assert s[|before| + 2] == PackWord(n)[2] && s[|before| + 3] == PackWord(n)[3];
    Digits(n);
  }

  lemma Digits(n: Word)
    ensures n / 0x100_0000 * 0x100_0000 + n / 0x1_0000 % 256 * 0x1_0000 + n / 256 % 256 * 256 + n % 256 == n
  {
    var a := n / 256;
    var b := a / 256;
    assert n / 0x1_0000 == b;
    assert n / 0x100_0000 == b / 256;
  }

  /** Reading a written chunk gives it back, unless its length is one the format does not allow. */
  lemma ChunkBack(z: Codec, tag: Bytes, data: Bytes, rest: Bytes)
    requires |tag| == 4 && |data| < WORDS
    ensures ReadChunk(z, ChunkBytes(z, tag, data).value + rest)
         == if |data| <= MAX_SIGNED then Some((Chunk(tag, data), rest)) else None
  {
    var n := |data|;
    var check := PackWord(z.crc(tag + data));
    var s := ChunkBytes(z, tag, data).value + rest;
    assert s == [] + (PackWord(n) + (tag + (data + check) + rest));
    UnpackWord(n, [], tag + (data + check) + rest);
    if n <= MAX_SIGNED {
      var front := PackWord(n) + (tag + data);
      assert s == front + (check + rest);
      UnpackWord(z.crc(tag + data), front, rest);
      assert s[4..8 + n] == tag + data;
      assert s[4..8] == tag && s[8..8 + n] == data && s[12 + n..] == rest;
    }
  }

  lemma HeaderBack(w: Word, h: Word)
    ensures ReadHeader(HeaderBytes(w, h))
         == if 1 <= w <= MAX_SIGNED && 1 <= h <= MAX_SIGNED then Some((w, h)) else None
  {
    var s := HeaderBytes(w, h);
    UnpackWord(w, [], PackWord(h) + [8, 2, 0, 0, 0]);
    assert s == [] + (PackWord(w) + (PackWord(h) + [8, 2, 0, 0, 0]));
    UnpackWord(h, PackWord(w), [8, 2, 0, 0, 0]);
    assert s[8..] == [8, 2, 0, 0, 0];
  }

  /** The rows read are the rows of the canvas, pixel by pixel. */
  ghost predicate ShowsRows(rows: seq<seq<RGB>>, pixels: Bytes, w: nat, h: nat, y: nat) {
    && Sized(pixels, w, h) && y <= h && |rows| == h - y
    && (forall k :: 0 <= k < |rows| ==> |rows[k]| == w)
    && forall k, x :: 0 <= k < |rows| && 0 <= x < w ==> rows[k][x] == PixelAt(pixels, w, h, x, y + k)
  }

  /** One scanline holds one row of the picture. */
  lemma RowBack(pixels: Bytes, w: nat, h: nat, y: nat, x: nat)
    requires Sized(pixels, w, h) && y < h && x < w
    ensures 0 <= y * (w * 3) <= (y + 1) * (w * 3) <= |pixels|
    ensures var row := pixels[y * (w * 3)..(y + 1) * (w * 3)];
            |row| == 3 * w && Triple(row, x) == PixelAt(pixels, w, h, x, y)
  {
    RowSpan(w, h, y);
    CellBound(w, h, x, y);
    var row := pixels[y * (w * 3)..(y + 1) * (w * 3)];
    assert 3 * Cell(w, x, y) == y * (w * 3) + 3 * x;
  }

  lemma RowOnTop(pixels: Bytes, w: nat, h: nat, y: nat, row: seq<RGB>, rest: seq<seq<RGB>>)
    requires ShowsRows(rest, pixels, w, h, y + 1) && |row| == w
    requires forall x :: 0 <= x < w ==> row[x] == PixelAt(pixels, w, h, x, y)
    ensures ShowsRows([row] + rest, pixels, w, h, y)
  {
    var rows := [row] + rest;
    forall k, x | 0 <= k < |rows| && 0 <= x < w
      ensures |rows[k]| == w && rows[k][x] == PixelAt(pixels, w, h, x, y + k)
    {
      if k > 0 {
        assert rows[k] == rest[k - 1];
        assert y + 1 + (k - 1) == y + k;
        assert rest[k - 1][x] == PixelAt(pixels, w, h, x, y + 1 + (k - 1));
      }
    }
  }

  lemma {:induction false} RowsBack(pixels: Bytes, w: nat, h: nat, y: nat)
    requires Sized(pixels, w, h) && y <= h
    ensures var rows := ReadRows(Scanlines(pixels, w, h, y), w, h - y);
            rows.Some? && ShowsRows(rows.value, pixels, w, h, y)
    decreases h - y
  {
    if y < h {
      RowSpan(w, h, y);
      var row := pixels[y * (w * 3)..(y + 1) * (w * 3)];
      var s := Scanlines(pixels, w, h, y);
      assert s[1..1 + 3 * w] == row && s[1 + 3 * w..] == Scanlines(pixels, w, h, y + 1);
      RowsBack(pixels, w, h, y + 1);
      forall x | 0 <= x < w ensures ReadRow(row, w)[x] == PixelAt(pixels, w, h, x, y) {
        RowBack(pixels, w, h, y, x);
      }
      RowOnTop(pixels, w, h, y, ReadRow(row, w), ReadRows(Scanlines(pixels, w, h, y + 1), w, h - (y + 1)).value);
    }
  }

  /** What the format can hold: sides from 1 to 2^31 - 1 and compressed data no longer than that. */
  predicate Holds(z: Codec, w: nat, h: nat, pixels: Bytes)
    requires Sized(pixels, w, h)
  {
    1 <= w <= MAX_SIGNED && 1 <= h <= MAX_SIGNED && |z.deflate(Scanlines(pixels, w, h, 0))| <= MAX_SIGNED
  }

  function FileChunks(z: Codec, w: Word, h: Word, pixels: Bytes): seq<Chunk>
    requires Sized(pixels, w, h)
  {
    [Chunk(IHDR, HeaderBytes(w, h)), Chunk(IDAT, z.deflate(Scanlines(pixels, w, h, 0))), Chunk(IEND, [])]
  }

  lemma LastChunkBack(z: Codec)
    ensures ReadChunks(z, ChunkBytes(z, IEND, []).value) == Some([Chunk(IEND, [])])
  {
    var end := ChunkBytes(z, IEND, []).value;
    ChunkBack(z, IEND, [], []);
    assert end + [] == end;
    assert ReadChunks(z, []) == Some([]);
    assert [Chunk(IEND, [])] + [] == [Chunk(IEND, [])];
  }

  lemma ChunksBack(z: Codec, w: Word, h: Word, pixels: Bytes)
    requires Sized(pixels, w, h) && |z.deflate(Scanlines(pixels, w, h, 0))| < WORDS
    ensures var data := z.deflate(Scanlines(pixels, w, h, 0));
            ReadChunks(z, ChunkBytes(z, IHDR, HeaderBytes(w, h)).value +
                          (ChunkBytes(z, IDAT, data).value + ChunkBytes(z, IEND, []).value))
            == if |data| <= MAX_SIGNED then Some(FileChunks(z, w, h, pixels)) else None
  {
    var data := z.deflate(Scanlines(pixels, w, h, 0));
    var end := ChunkBytes(z, IEND, []).value;
    var tail := ChunkBytes(z, IDAT, data).value + end;
    ChunkBack(z, IHDR, HeaderBytes(w, h), tail);
    ChunkBack(z, IDAT, data, end);
    LastChunkBack(z);
    if |data| <= MAX_SIGNED {
      assert ReadChunks(z, tail) == Some([Chunk(IDAT, data)] + [Chunk(IEND, [])]);
      assert [Chunk(IHDR, HeaderBytes(w, h))] + ([Chunk(IDAT, data)] + [Chunk(IEND, [])]) == FileChunks(z, w, h, pixels);
    } else {
      assert ReadChunks(z, tail) == None;
    }
  }

  lemma AssembleBack(z: Codec, w: Word, h: Word, pixels: Bytes)
    requires Lossless(z) && Sized(pixels, w, h)
    ensures var image := Assemble(z, FileChunks(z, w, h, pixels));
            && (image.Some? <==> 1 <= w <= MAX_SIGNED && 1 <= h <= MAX_SIGNED)
            && (image.Some? ==> image.value.width == w && image.value.height == h && ShowsRows(image.value.rows, pixels, w, h, 0))
  {
    var raw := Scanlines(pixels, w, h, 0);
    var cs := FileChunks(z, w, h, pixels);
    HeaderBack(w, h);
    assert cs[1..2] == [cs[1]] && cs[1..2][1..] == [];
    assert ImageData([]) == Some([]);
    assert ImageData([cs[1]]) == Some(cs[1].data + []);
    assert cs[1].data + [] == z.deflate(raw);
    RowsBack(pixels, w, h, 0);
  }

  /** The file is written and reads back exactly when the format can hold the picture, and then as the same picture. */
  lemma RoundTrip(z: Codec, w: nat, h: nat, pixels: Bytes)
    requires Lossless(z) && Sized(pixels, w, h)
    ensures var file := FileBytes(z, w, h, pixels);
            && (Holds(z, w, h, pixels) <==> file.Ok? && Decode(z, file.value).Some?)
            && (Holds(z, w, h, pixels) ==>
                  var image := Decode(z, file.value).value;
                  image.width == w && image.height == h && ShowsRows(image.rows, pixels, w, h, 0))
  {
    if FileBytes(z, w, h, pixels).Ok? {
      var file := FileBytes(z, w, h, pixels).value;
      var data := z.deflate(Scanlines(pixels, w, h, 0));
      var body := ChunkBytes(z, IHDR, HeaderBytes(w, h)).value +
                  (ChunkBytes(z, IDAT, data).value + ChunkBytes(z, IEND, []).value);
      assert file[..8] == SIGNATURE && file[8..] == body;
      ChunksBack(z, w, h, pixels);
      AssembleBack(z, w, h, pixels);
    }
  }
}
