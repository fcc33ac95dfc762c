/**
 * The GL-free helpers of the FreeType text renderer
 * (lib/glft2/src/TextRenderer.cpp, lib/glft2/include/glft2/TextRenderer.hpp):
 * rounding a glyph size up to a power of two, filling the two-channel
 * texture buffer of a glyph, and measuring a multi-line string.
 *
 * Text is a Dafny string standing for the bytes of its UTF-8 encoding: '\n'
 * is a single byte, and every byte of a character from 128 up is itself at
 * least 128, so such a character contributes no width, as in the source.
 */
module TextRenderer {

  /** 1, 2, 4, 8, ... */
  predicate IsPowerOfTwo(n: int)
    decreases if n < 1 then 0 else n
  {
    n >= 1 && (n == 1 || (n % 2 == 0 && IsPowerOfTwo(n / 2)))
  }

  /** Two distinct powers of two are at least a factor two apart. */
  lemma {:induction false} PowerOfTwoGap(p: int, q: int)
    requires IsPowerOfTwo(p) && IsPowerOfTwo(q) && p < q
    ensures 2 * p <= q
    decreases q
  {
    if p != q / 2 {
      if p < q / 2 {
        PowerOfTwoGap(p, q / 2);
      } else {
        PowerOfTwoGap(q / 2, p);
      }
    }
  }

  /**
   * next_p2: doubles from 1 until reaching `a`. Doubling past 2^30 would
   * overflow the source's int, so `a` is at most 2^30.
   */
  method NextP2(a: int) returns (r: int)
    requires a <= 0x4000_0000
    ensures IsPowerOfTwo(r) && a <= r
    ensures a <= 1 ==> r == 1
    ensures a >= 1 ==> r < 2 * a
    ensures forall p :: IsPowerOfTwo(p) && a <= p ==> r <= p
  {
    r := 1;
    while r < a
      invariant IsPowerOfTwo(r)
      invariant r == 1 || r < 2 * a
      decreases a - r
    {
      r := r * 2;
      assert IsPowerOfTwo(r) by { assert r / 2 * 2 == r; }
    }
    forall p | IsPowerOfTwo(p) && a <= p
      ensures r <= p
    {
      if p < r {
        PowerOfTwoGap(p, r);
      }
    }
  }

  /** A rendered glyph: `width` x `rows` coverage bytes, row after row. */
  datatype Bitmap = Bitmap(width: nat, rows: nat, buffer: seq<int>)

  predicate WellFormed(b: Bitmap)
  {
    |b.buffer| == b.width * b.rows
  }

  lemma MulAtLeast(w: int, d: int)
    requires w > 0 && d >= 1
    ensures w * d >= w
  {
    assert w * d == w + w * (d - 1);
  }

  /** A cell (i, j) inside a w x rows grid has row-major index below w * rows. */
  lemma RowMajorBound(i: int, j: int, w: int, rows: int)
    requires 0 <= i < w && 0 <= j < rows
    ensures 0 <= i + w * j < w * rows
  {
    assert w * rows == w * j + w * (rows - j);
    MulAtLeast(w, rows - j);
  }

  /** The coverage of pixel (i, j), and 0 outside the bitmap. */
  function Pixel(b: Bitmap, i: nat, j: nat): int
    requires WellFormed(b)
  {
    if i >= b.width || j >= b.rows then 0
    else RowMajorBound(i, j, b.width, b.rows); b.buffer[i + b.width * j]
  }

  /** The index of the luminosity byte of texel (i, j) in a texture `width` texels wide. */
  function Slot(i: int, j: int, width: int): int
  {
    2 * (i + j * width)
  }

  /** Row j of the expanded texture, columns 0 .. i-1: a luminosity byte of 255 and an alpha byte per texel. */
  function TextureRow(b: Bitmap, j: nat, i: nat): (r: seq<int>)
    requires WellFormed(b)
    ensures |r| == 2 * i
  {
    if i == 0 then [] else TextureRow(b, j, i - 1) + [255, Pixel(b, i - 1, j)]
  }

  /** The whole expanded texture of a `width` x `rows` texture, row after row. */
  function Texture(b: Bitmap, width: nat, rows: nat): (r: seq<int>)
    requires WellFormed(b)
    ensures |r| == 2 * (rows * width)
  {
    if rows == 0 then []
    else
      assert rows * width == (rows - 1) * width + width;
      Texture(b, width, rows - 1) + TextureRow(b, rows - 1, width)
  }

  lemma {:induction false} TextureRowAt(b: Bitmap, j: nat, i: nat, c: nat)
    requires WellFormed(b) && c < i
    ensures TextureRow(b, j, i)[2 * c] == 255 && TextureRow(b, j, i)[2 * c + 1] == Pixel(b, c, j)
  {
    if c < i - 1 {
      TextureRowAt(b, j, i - 1, c);
    }
  }

  /**
   * The texture holds 255 at the source's index 2(i + j*width) and the
   * bitmap's pixel, or 0 in the padding, at the index after it.
   */
  lemma {:induction false} TextureAt(b: Bitmap, width: nat, rows: nat, i: nat, j: nat)
    requires WellFormed(b) && i < width && j < rows
    ensures 0 <= Slot(i, j, width) && Slot(i, j, width) + 1 < |Texture(b, width, rows)|
    ensures Texture(b, width, rows)[Slot(i, j, width)] == 255
    ensures Texture(b, width, rows)[Slot(i, j, width) + 1] == Pixel(b, i, j)
  {
    var prefix := Texture(b, width, rows - 1);
    assert Texture(b, width, rows) == prefix + TextureRow(b, rows - 1, width);
    if j < rows - 1 {
      TextureAt(b, width, rows - 1, i, j);
    } else {
      assert Slot(i, j, width) == |prefix| + 2 * i;
      TextureRowAt(b, j, width, i);
    }
  }

  /** (j + 1) * width written out, and its bound inside a texture of `height` rows. */
  lemma NextRowBase(j: nat, width: nat, height: nat)
    requires j < height
    ensures (j + 1) * width == j * width + width
    ensures j * width + width <= height * width
  {
    assert height * width == (j + 1) * width + (height - j - 1) * width;
  }

  /**
   * storeTextureData: fills all 2 * width * height entries of the two-channel
   * texture, row by row.
   */
  method StoreTextureData(width: nat, height: nat, bitmap: Bitmap, data: array<int>)
    requires WellFormed(bitmap)
    requires data.Length == 2 * width * height
    modifies data
    ensures data[..] == Texture(bitmap, width, height)
  {
    ghost var texture := Texture(bitmap, width, height);
    assert |texture| == data.Length;
    var j := 0;
    var base := 0;
    while j < height
      invariant 0 <= j <= height
      invariant base == j * width
      invariant forall k :: 0 <= k < 2 * base ==> data[k] == texture[k]
    {
      NextRowBase(j, width, height);
      StoreTextureRow(width, height, bitmap, data, j, base);
      base := base + width;
      j := j + 1;
    }
    assert data[..] == texture;
  }

  /** The inner loop of `StoreTextureData`: row `j`, whose first texel has index `base`. */
  method StoreTextureRow(width: nat, height: nat, bitmap: Bitmap, data: array<int>, j: nat, base: nat)
    requires WellFormed(bitmap) && j < height
    requires data.Length == 2 * (height * width) && base == j * width
    requires base + width <= height * width
    requires forall k :: 0 <= k < 2 * base ==> data[k] == Texture(bitmap, width, height)[k]
    modifies data
    ensures forall k :: 0 <= k < 2 * (base + width) ==> data[k] == Texture(bitmap, width, height)[k]
  {
    ghost var texture := Texture(bitmap, width, height);
    var i := 0;
    while i < width
      invariant 0 <= i <= width
      invariant forall k :: 0 <= k < 2 * (base + i) ==> data[k] == texture[k]
    {
      TextureAt(bitmap, width, height, i, j);
      assert Slot(i, j, width) == 2 * (i + base);
      data[2 * (i + base)] := 255;
      data[2 * (i + base) + 1] :=
        if i >= bitmap.width || j >= bitmap.rows then 0
        else (RowMajorBound(i, j, bitmap.width, bitmap.rows); bitmap.buffer[i + bitmap.width * j]);
      i := i + 1;
    }
  }

  /**
   * The texture preparation of make_dlist: both sides rounded up to powers of
   * two, a zeroed buffer, then storeTextureData. Every bitmap pixel lands in
   * the texture.
   */
  method PrepareGlyphTexture(bitmap: Bitmap) returns (width: nat, height: nat, data: array<int>)
    requires WellFormed(bitmap)
    requires bitmap.width <= 0x4000_0000 && bitmap.rows <= 0x4000_0000
    ensures IsPowerOfTwo(width) && IsPowerOfTwo(height)
    ensures bitmap.width <= width && bitmap.rows <= height
    ensures fresh(data) && data[..] == Texture(bitmap, width, height)
    ensures forall i, j :: 0 <= i < bitmap.width && 0 <= j < bitmap.rows ==>
      0 <= Slot(i, j, width) + 1 < data.Length && data[Slot(i, j, width) + 1] == Pixel(bitmap, i, j)
  {
    var w := NextP2(bitmap.width);
    var h := NextP2(bitmap.rows);
    width, height := w, h;
    data := new int[2 * width * height](_ => 0);
    StoreTextureData(width, height, bitmap, data);
    forall i, j | 0 <= i < bitmap.width && 0 <= j < bitmap.rows
      ensures 0 <= Slot(i, j, width) + 1 < data.Length && data[Slot(i, j, width) + 1] == Pixel(bitmap, i, j)
    {
      TextureAt(bitmap, width, height, i, j);
    }
  }

  // ---- measureText ----

  /** The part of font_data that measuring reads: the height and 128 cached widths. */
  datatype FontData = FontData(h: real, charWidths: seq<real>)

  predicate ValidFont(f: FontData)
  {
    |f.charWidths| == 128
  }

  /** The first newline at or after k, or the end of s. */
  function LineEnd(s: string, k: nat): (e: nat)
    requires k <= |s|
    ensures k <= e <= |s|
    ensures e < |s| ==> s[e] == '\n'
    ensures forall m :: k <= m < e ==> s[m] != '\n'
    decreases |s| - k
  {
    if k == |s| || s[k] == '\n' then k else LineEnd(s, k + 1)
  }

  /**
   * The lines std::getline reads from s: split at each '\n', with no empty
   * line after a final '\n'.
   */
  function Lines(s: string): seq<string>
    decreases |s|
  {
    if s == [] then []
    else
      var e := LineEnd(s, 0);
      if e == |s| then [s] else [s[..e]] + Lines(s[e + 1..])
  }

  /** Each line followed by a newline, all concatenated. */
  function JoinLines(ls: seq<string>): string
  {
    if ls == [] then [] else ls[0] + "\n" + JoinLines(ls[1..])
  }

  function NewlineCount(s: string): nat
  {
    if s == [] then 0 else (if s[0] == '\n' then 1 else 0) + NewlineCount(s[1..])
  }

  lemma {:induction false} NewlineCountAppend(a: string, b: string)
    ensures NewlineCount(a + b) == NewlineCount(a) + NewlineCount(b)
  {
    if a == [] {
      assert a + b == b;
    } else {
      assert (a + b)[0] == a[0];
      assert (a + b)[1..] == a[1..] + b;
      NewlineCountAppend(a[1..], b);
    }
  }

  lemma {:induction false} NoNewlineCount(s: string)
    requires forall m :: 0 <= m < |s| ==> s[m] != '\n'
    ensures NewlineCount(s) == 0
  {
    if s != [] {
      NoNewlineCount(s[1..]);
    }
  }

  /** No line holds a newline. */
  lemma {:induction false} LinesHaveNoNewline(s: string)
    ensures forall l :: l in Lines(s) ==> '\n' !in l
    decreases |s|
  {
    if s != [] {
      var e := LineEnd(s, 0);
      if e < |s| {
        LinesHaveNoNewline(s[e + 1..]);
      }
    }
  }

  /**
   * Writing every line back with its newline rebuilds the text, plus the
   * newline the last line lacked when the text does not end in one.
   */
  lemma {:induction false} LinesRejoin(s: string)
    ensures JoinLines(Lines(s)) == if s == [] || s[|s| - 1] == '\n' then s else s + "\n"
    decreases |s|
  {
    if s != [] {
      var e := LineEnd(s, 0);
      if e == |s| {
        assert Lines(s) == [s];
        assert JoinLines([s]) == s + "\n" + JoinLines([]);
      } else {
        var rest := s[e + 1..];
        var head := s[..e] + "\n";
        assert JoinLines(Lines(s)) == head + JoinLines(Lines(rest)) by {
          var ls := Lines(rest);
          assert Lines(s) == [s[..e]] + ls;
          assert ([s[..e]] + ls)[1..] == ls;
        }
        assert s == head + rest;
        LinesRejoin(rest);
        if rest == [] {
          assert JoinLines(Lines(rest)) == [];
        } else if rest[|rest| - 1] == '\n' {
          assert s[|s| - 1] == '\n';
        } else {
          assert s[|s| - 1] != '\n';
          assert head + (rest + "\n") == s + "\n";
        }
      }
    }
  }

  /** getline yields one line per newline, plus one for an unterminated last line. */
  lemma {:induction false} LineCount(s: string)
    ensures |Lines(s)| == NewlineCount(s) + (if s != [] && s[|s| - 1] != '\n' then 1 else 0)
    decreases |s|
  {
    if s != [] {
      var e := LineEnd(s, 0);
      if e == |s| {
        assert NewlineCount(s) == 0 by {
          NoNewlineCount(s);
        }
      } else {
        var rest := s[e + 1..];
        assert NewlineCount(s) == 1 + NewlineCount(rest) by {
          NoNewlineCount(s[..e]);
          assert s == s[..e] + ("\n" + rest);
          NewlineCountAppend(s[..e], "\n" + rest);
          NewlineCountAppend("\n", rest);
        }
        assert |Lines(s)| == 1 + |Lines(rest)|;
        LineCount(rest);
        if rest != [] {
          assert rest[|rest| - 1] == s[|s| - 1];
        }
      }
    }
  }

  /** The width a character adds: its cached width below 128, nothing from 128 up. */
  function CharWidth(f: FontData, c: char): real
    requires ValidFont(f)
  {
    if (c as int) < 128 then f.charWidths[c as int] else 0.0
  }

  /** Sum of the character widths of a line, accumulated left to right. */
  function LineWidth(f: FontData, line: string): real
    requires ValidFont(f)
  {
    if line == [] then 0.0 else LineWidth(f, line[..|line| - 1]) + CharWidth(f, line[|line| - 1])
  }

  /** The running maximum of the line widths, starting from 0. */
  function MaxLineWidth(f: FontData, lines: seq<string>): real
    requires ValidFont(f)
  {
    if lines == [] then 0.0
    else
      var m := MaxLineWidth(f, lines[..|lines| - 1]);
      var w := LineWidth(f, lines[|lines| - 1]);
      if m < w then w else m
  }

  /** The maximum bounds every line and is 0 or the width of one of them. */
  lemma {:induction false} MaxLineWidthIsMaximum(f: FontData, lines: seq<string>)
    requires ValidFont(f)
    ensures MaxLineWidth(f, lines) >= 0.0
    ensures forall l :: l in lines ==> LineWidth(f, l) <= MaxLineWidth(f, lines)
    ensures MaxLineWidth(f, lines) == 0.0 || exists l :: l in lines && LineWidth(f, l) == MaxLineWidth(f, lines)
  {
    if lines != [] {
      var init := lines[..|lines| - 1];
      MaxLineWidthIsMaximum(f, init);
      assert lines == init + [lines[|lines| - 1]];
      forall l | l in lines
        ensures LineWidth(f, l) <= MaxLineWidth(f, lines)
      {
        if l != lines[|lines| - 1] {
          assert l in init;
        }
      }
      var last := lines[|lines| - 1];
      assert last in lines;
      if MaxLineWidth(f, init) < LineWidth(f, last) {
        assert LineWidth(f, last) == MaxLineWidth(f, lines);
      } else if MaxLineWidth(f, init) != 0.0 {
        var l :| l in init && LineWidth(f, l) == MaxLineWidth(f, init);
        assert l in lines;
      }
    }
  }

  /** The width measureText reports: the widest line, scaled. */
  function MeasuredWidth(f: FontData, text: string, scale: real): real
    requires ValidFont(f)
  {
    MaxLineWidth(f, Lines(text)) * scale
  }

  /** The height measureText reports: one font height per line, scaled. */
  function MeasuredHeight(f: FontData, text: string, scale: real): real
  {
    (|Lines(text)| as real) * f.h * scale
  }

  /** An empty text measures 0 x 0 at any scale. */
  lemma MeasureEmpty(f: FontData, scale: real)
    requires ValidFont(f)
    ensures MeasuredWidth(f, "", scale) == 0.0 && MeasuredHeight(f, "", scale) == 0.0
  {
  }

  /**
   * measureText: the widest line times the scale, and the number of lines
   * times the font height times the scale.
   */
  method MeasureText(f: FontData, text: string, scale: real) returns (width: real, height: real)
    requires ValidFont(f)
    ensures width == MeasuredWidth(f, text, scale)
    ensures height == MeasuredHeight(f, text, scale)
  {
    var lines := Lines(text);
    var maxWidth := 0.0;
    var numLines := 0;
    while numLines < |lines|
      invariant 0 <= numLines <= |lines|
      invariant maxWidth == MaxLineWidth(f, lines[..numLines])
    {
      var line := lines[numLines];
      var lineWidth := 0.0;
      var k := 0;
      while k < |line|
        invariant 0 <= k <= |line|
        invariant lineWidth == LineWidth(f, line[..k])
      {
        if (line[k] as int) < 128 {
          lineWidth := lineWidth + f.charWidths[line[k] as int];
        }
        assert line[..k + 1][..k] == line[..k];
        k := k + 1;
      }
      assert line[..k] == line;
      assert lines[..numLines + 1][..numLines] == lines[..numLines];
      maxWidth := if maxWidth < lineWidth then lineWidth else maxWidth;
      numLines := numLines + 1;
    }
    assert lines[..numLines] == lines;
    width := maxWidth * scale;
    height := (numLines as real) * f.h * scale;
  }
}
