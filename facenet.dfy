// The input side of the FaceNet embedding model: a 160 x 160 ARGB bitmap is
// written, row by row, into a direct buffer of 32-bit floats, three per
// pixel, each colour byte c becoming (c - 128) / 128. Division by 128 is
// exact in binary floating point, so reals stand for the floats here.

module FaceNet {
  const Size: nat := 160
  const Channels: nat := 3
  const FloatBytes: nat := 4
  /** Floats in the 1 x 160 x 160 x 3 input tensor. */
  const InputFloats: nat := Size * Size * Channels
  /** `1 * 160 * 160 * 3 * 4`, the byte capacity of the input buffer. */
  const InputBytes: nat := InputFloats * FloatBytes
  /** The model's single output row. */
  const EmbeddingLength: nat := 128

  /** An Android colour int, `0xAARRGGBB`. */
  type Pixel = bv32

  function Red(p: Pixel): (c: nat)
    ensures c < 256
  {
    ((p >> 16) & 0xFF) as nat
  }

  function Green(p: Pixel): (c: nat)
    ensures c < 256
  {
    ((p >> 8) & 0xFF) as nat
  }

  function Blue(p: Pixel): (c: nat)
    ensures c < 256
  {
    (p & 0xFF) as nat
  }

  /** Channel 0, 1, 2 of a pixel, in the order the buffer receives them. */
  function Channel(p: Pixel, ch: nat): (c: nat)
    requires ch < Channels
    ensures c < 256
  {
    if ch == 0 then Red(p) else if ch == 1 then Green(p) else Blue(p)
  }

  /** `(c - 128f) / 128f`: centred on 128 and scaled into [-1, 127/128]. */
  function Normalize(c: nat): (v: real)
    requires c < 256
    ensures -1.0 <= v <= 127.0 / 128.0
    ensures v == 0.0 <==> c == 128
    ensures v < 0.0 <==> c < 128
  {
    (c as real - 128.0) / 128.0
  }

  /** The byte a normalized value came from. */
  function Denormalize(v: real): real {
    v * 128.0 + 128.0
  }

  lemma NormalizeRoundTrip(c: nat)
    requires c < 256
    ensures Denormalize(Normalize(c)) == c as real
  {
  }

  /** Distinct colour bytes give distinct inputs. */
  lemma NormalizeInjective(c: nat, d: nat)
    requires c < 256 && d < 256
    ensures Normalize(c) == Normalize(d) <==> c == d
  {
    if Normalize(c) == Normalize(d) {
      NormalizeRoundTrip(c);
      NormalizeRoundTrip(d);
    }
  }

  /** A decoded bitmap; `pixels[y][x]` is `getPixel(x, y)`. */
  datatype Bitmap = Bitmap(pixels: seq<seq<Pixel>>)

  /** The shape `createScaledBitmap(bitmap, 160, 160, true)` produces. */
  predicate IsResized(b: Bitmap) {
    |b.pixels| == Size && forall y :: 0 <= y < Size ==> |b.pixels[y]| == Size
  }

  function GetPixel(b: Bitmap, x: nat, y: nat): Pixel
    requires IsResized(b) && x < Size && y < Size
  {
    b.pixels[y][x]
  }

  /** The three floats one pixel contributes: red, green, blue. */
  function PixelFloats(p: Pixel): (f: seq<real>)
    ensures |f| == Channels
    ensures forall ch :: 0 <= ch < Channels ==> f[ch] == Normalize(Channel(p, ch))
  {
    [Normalize(Red(p)), Normalize(Green(p)), Normalize(Blue(p))]
  }

  /** The floats of a row, pixel after pixel (x ascending). */
  function RowFloats(row: seq<Pixel>): (f: seq<real>)
    ensures |f| == Channels * |row|
  {
    if |row| == 0 then [] else RowFloats(row[..|row| - 1]) + PixelFloats(row[|row| - 1])
  }

  /** The floats of several rows, row after row (y ascending). */
  function RowsFloats(rows: seq<seq<Pixel>>): (f: seq<real>)
  {
    if |rows| == 0 then [] else RowsFloats(rows[..|rows| - 1]) + RowFloats(rows[|rows| - 1])
  }

  /** The whole input tensor, in the order the buffer is written. */
  function InputTensor(b: Bitmap): (t: seq<real>)
    requires IsResized(b)
    ensures |t| == InputFloats
  {
    RowsFullLength(b.pixels, Size);
    RowsFloats(b.pixels)
  }

  lemma {:induction false} RowsFullLength(rows: seq<seq<Pixel>>, width: nat)
    requires forall y :: 0 <= y < |rows| ==> |rows[y]| == width
    ensures |RowsFloats(rows)| == |rows| * (Channels * width)
  {
    if |rows| > 0 {
      RowsFullLength(rows[..|rows| - 1], width);
    }
  }

  lemma {:induction false} RowFloatsIndex(row: seq<Pixel>, x: nat, ch: nat)
    requires x < |row| && ch < Channels
    ensures x * Channels + ch < |RowFloats(row)|
    ensures RowFloats(row)[x * Channels + ch] == Normalize(Channel(row[x], ch))
  {
    var init := row[..|row| - 1];
    if x < |row| - 1 {
      RowFloatsIndex(init, x, ch);
      assert init[x] == row[x];
    }
  }

  lemma {:induction false} RowsFloatsIndex(rows: seq<seq<Pixel>>, y: nat, x: nat, ch: nat)
    requires forall i :: 0 <= i < |rows| ==> |rows[i]| == Size
    requires y < |rows| && x < Size && ch < Channels
    ensures (y * Size + x) * Channels + ch < |RowsFloats(rows)|
    ensures RowsFloats(rows)[(y * Size + x) * Channels + ch] == Normalize(Channel(rows[y][x], ch))
  {
    var n := |rows| - 1;
    var init := rows[..n];
    RowsFullLength(init, Size);
    RowFloatsIndex(rows[y], x, ch);
    var k := (y * Size + x) * Channels + ch;
    assert k == y * 480 + (x * 3 + ch);
    assert RowsFloats(rows) == RowsFloats(init) + RowFloats(rows[n]);
    assert |RowsFloats(init)| == n * 480;
    if y < n {
      RowsFloatsIndex(init, y, x, ch);
      assert init[y] == rows[y];
    }
  }

  /** Row-major order, y outer and x inner: pixel (x, y) owns slots
      (y * 160 + x) * 3 up to (y * 160 + x) * 3 + 2, red, green, blue. */
  lemma SlotLayout(b: Bitmap, x: nat, y: nat, ch: nat)
    requires IsResized(b) && x < Size && y < Size && ch < Channels
    ensures (y * Size + x) * Channels + ch < InputFloats
    ensures InputTensor(b)[(y * Size + x) * Channels + ch] == Normalize(Channel(GetPixel(b, x, y), ch))
  {
    RowsFloatsIndex(b.pixels, y, x, ch);
  }

  /** Two colour ints that differ at most in their alpha byte. */
  predicate SameRgb(p: Pixel, q: Pixel) {
    p & 0xFF_FFFF == q & 0xFF_FFFF
  }

  /** The alpha byte never reaches the tensor: two bitmaps whose pixels agree
      on their low 24 bits give the same input. */
  lemma AlphaIgnored(a: Bitmap, b: Bitmap)
    requires IsResized(a) && IsResized(b)
    requires forall y, x :: 0 <= y < Size && 0 <= x < Size ==> SameRgb(a.pixels[y][x], b.pixels[y][x])
    ensures InputTensor(a) == InputTensor(b)
  {
    RowsAlphaIgnored(a.pixels, b.pixels);
  }

  lemma {:induction false} RowsAlphaIgnored(a: seq<seq<Pixel>>, b: seq<seq<Pixel>>)
    requires |a| == |b| && forall y :: 0 <= y < |a| ==> |a[y]| == |b[y]|
    requires forall y, x :: 0 <= y < |a| && 0 <= x < |a[y]| ==> SameRgb(a[y][x], b[y][x])
    ensures RowsFloats(a) == RowsFloats(b)
  {
    if |a| > 0 {
      var n := |a| - 1;
      RowsAlphaIgnored(a[..n], b[..n]);
      RowAlphaIgnored(a[n], b[n]);
    }
  }

  lemma {:induction false} RowAlphaIgnored(a: seq<Pixel>, b: seq<Pixel>)
    requires |a| == |b| && forall x :: 0 <= x < |a| ==> SameRgb(a[x], b[x])
    ensures RowFloats(a) == RowFloats(b)
  {
    if |a| > 0 {
      var n := |a| - 1;
      RowAlphaIgnored(a[..n], b[..n]);
      SameLowBytes(a[n], b[n]);
    }
  }

  lemma SameLowBytes(p: Pixel, q: Pixel)
    requires SameRgb(p, q)
    ensures PixelFloats(p) == PixelFloats(q)
  {
    assert (p >> 16) & 0xFF == ((p & 0xFF_FFFF) >> 16) & 0xFF;
    assert (q >> 16) & 0xFF == ((q & 0xFF_FFFF) >> 16) & 0xFF;
    assert (p >> 8) & 0xFF == ((p & 0xFF_FFFF) >> 8) & 0xFF;
    assert (q >> 8) & 0xFF == ((q & 0xFF_FFFF) >> 8) & 0xFF;
    assert p & 0xFF == (p & 0xFF_FFFF) & 0xFF;
    assert q & 0xFF == (q & 0xFF_FFFF) & 0xFF;
  }

  /** A direct byte buffer written only with `putFloat`: its storage is one
      float slot per four bytes, and `position` counts bytes. */
  class InputBuffer {
    const capacity: nat
    const slots: array<real>
    var position: nat

    ghost predicate Valid()
      reads this
    {
      slots.Length == capacity / FloatBytes && position % FloatBytes == 0 && position <= capacity
    }

    /** The floats written so far, in order. */
    function Written(): (w: seq<real>)
      reads this, slots
      requires Valid()
      ensures |w| * FloatBytes == position
    {
      slots[..position / FloatBytes]
    }

    /** `ByteBuffer.allocateDirect(capacity)`: zero-filled, position 0. */
    constructor (capacity: nat)
      ensures Valid() && fresh(slots)
      ensures this.capacity == capacity && position == 0
      ensures slots[..] == seq(capacity / FloatBytes, _ => 0.0)
    {
      this.capacity := capacity;
      slots := new real[capacity / FloatBytes](_ => 0.0);
      position := 0;
    }

    /** `putFloat(v)`: stores v at the current position and advances it by
        four bytes; it needs four bytes of room. */
    method PutFloat(v: real)
      requires Valid() && position + FloatBytes <= capacity
      modifies this, slots
      ensures Valid()
      ensures position == old(position) + FloatBytes
      ensures Written() == old(Written()) + [v]
      ensures slots[..] == old(slots[..])[old(position) / FloatBytes := v]
    {
      slots[position / FloatBytes] := v;
      position := position + FloatBytes;
    }
  }

  /** The three `putFloat` calls of one pixel. */
  method PutPixel(input: InputBuffer, pixel: Pixel)
    requires input.Valid() && input.position + Channels * FloatBytes <= input.capacity
    modifies input, input.slots
    ensures input.Valid()
    ensures input.Written() == old(input.Written()) + PixelFloats(pixel)
  {
    input.PutFloat(Normalize(Red(pixel)));
    input.PutFloat(Normalize(Green(pixel)));
    input.PutFloat(Normalize(Blue(pixel)));
  }

  /** The inner loop: one row, x ascending. */
  method PutRow(input: InputBuffer, row: seq<Pixel>)
    requires input.Valid() && input.position + |row| * Channels * FloatBytes <= input.capacity
    modifies input, input.slots
    ensures input.Valid()
    ensures input.Written() == old(input.Written()) + RowFloats(row)
  {
    ghost var before := input.Written();
    for x := 0 to |row|
      invariant input.Valid()
      invariant input.Written() == before + RowFloats(row[..x])
    {
      assert row[..x + 1][..x] == row[..x];
      PutPixel(input, row[x]);
    }
    assert row[..|row|] == row;
  }

  /** The two loops of `getEmbedding` that fill the input buffer. */
  method FillInput(resized: Bitmap) returns (input: InputBuffer)
    requires IsResized(resized)
    ensures fresh(input) && fresh(input.slots) && input.Valid()
    ensures input.capacity == InputBytes && input.position == InputBytes
    ensures input.Written() == InputTensor(resized)
  {
    input := new InputBuffer(InputBytes);
    var rows := resized.pixels;
    for y := 0 to Size
      invariant input.Valid() && fresh(input.slots) && input.capacity == InputBytes
      invariant input.Written() == RowsFloats(rows[..y])
    {
      RowsFullLength(rows[..y], Size);
      assert rows[..y + 1][..y] == rows[..y];
      PutRow(input, rows[y]);
    }
    assert rows[..Size] == rows;
    RowsFullLength(rows, Size);
  }

  /** The TFLite model as a function from the input tensor to its one output
      row of 128 floats. */
  ghost predicate IsModel(model: seq<real> -> seq<real>) {
    forall t :: |model(t)| == EmbeddingLength
  }

  /** `getEmbedding` on an already resized bitmap: the buffer is filled, the
      model run, and the single row of the 1 x 128 output returned. */
  method GetEmbedding(resized: Bitmap, model: seq<real> -> seq<real>) returns (embedding: seq<real>)
    requires IsResized(resized) && IsModel(model)
    ensures |embedding| == EmbeddingLength
    ensures embedding == model(InputTensor(resized))
  {
    var input := FillInput(resized);
    var output := [model(input.Written())];
    embedding := output[0];
  }
}
