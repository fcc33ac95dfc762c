/**
 * The texture enhancer (texture_enhance/enhance_ocv.py): a centered square
 * crop of an 8-bit colour image, a per-channel tone curve and a clipped
 * boost of two channels. Images are rows of columns of 3-channel pixels.
 */
module EnhanceOcv {

  /** An 8-bit channel value. */
  type Byte = b: int | 0 <= b < 256

  type Image = seq<seq<seq<Byte>>>

  const CropSize: nat := 5000
  const Channels: nat := 3

  /** height rows of width pixels of 3 channels each. */
  predicate Shaped(img: Image, height: nat, width: nat)
  {
    |img| == height &&
    (forall y :: 0 <= y < height ==> |img[y]| == width) &&
    (forall y, x :: 0 <= y < height && 0 <= x < width ==> |img[y][x]| == Channels)
  }

  /**
   * One axis of the crop box: around the centre extent // 2, half the crop
   * size to each side, clamped to [0, extent]. Python's // on these
   * non-negative operands is Dafny's /.
   */
  function CropRange(extent: nat, size: nat): (r: (nat, nat))
    ensures 0 <= r.0 <= extent / 2 <= r.1 <= extent
    ensures r.1 - r.0 <= 2 * (size / 2) <= size
    ensures extent >= size && size % 2 == 0 ==> r.1 - r.0 == size
    ensures extent < size ==> r == (0, extent)
  {
    var center := extent / 2;
    var lo := if center - size / 2 > 0 then center - size / 2 else 0;
    var hi := if center + size / 2 < extent then center + size / 2 else extent;
    (lo, hi)
  }

  /** The crop box: columns [x1, x2) and rows [y1, y2). */
  datatype Box = Box(x1: nat, x2: nat, y1: nat, y2: nat)

  function CropBox(width: nat, height: nat, size: nat): (b: Box)
    ensures 0 <= b.x1 <= width / 2 <= b.x2 <= width && 0 <= b.y1 <= height / 2 <= b.y2 <= height
    ensures b.x2 - b.x1 <= size && b.y2 - b.y1 <= size
  {
    var (x1, x2) := CropRange(width, size);
    var (y1, y2) := CropRange(height, size);
    Box(x1, x2, y1, y2)
  }

  /** With the script's even crop size of 5000 the crop is a full square whenever the image is large enough. */
  lemma CropIsSquare(width: nat, height: nat)
    requires width >= CropSize && height >= CropSize
    ensures var b := CropBox(width, height, CropSize); b.x2 - b.x1 == CropSize && b.y2 - b.y1 == CropSize
  {
  }

  /** A smaller image is not rejected: the crop keeps all of it. */
  lemma SmallImageKeptWhole(width: nat, height: nat)
    requires width < CropSize && height < CropSize
    ensures CropBox(width, height, CropSize) == Box(0, width, 0, height)
  {
  }

  /** img[y1:y2, x1:x2]: the rows and columns of the box, every channel kept. */
  function Crop(img: Image, height: nat, width: nat, b: Box): (r: Image)
    requires Shaped(img, height, width)
    requires b.x1 <= b.x2 <= width && b.y1 <= b.y2 <= height
    ensures Shaped(r, b.y2 - b.y1, b.x2 - b.x1)
    ensures forall y, x :: 0 <= y < b.y2 - b.y1 && 0 <= x < b.x2 - b.x1 ==> r[y][x] == img[b.y1 + y][b.x1 + x]
  {
    seq(b.y2 - b.y1, y requires 0 <= y < b.y2 - b.y1 => img[b.y1 + y][b.x1..b.x2])
  }

  /** Channel c of every pixel replaced by f of channel c of the same pixel of src. */
  function SetChannel(dst: Image, src: Image, height: nat, width: nat, c: nat, f: Byte -> Byte): (r: Image)
    requires Shaped(dst, height, width) && Shaped(src, height, width) && c < Channels
    ensures Shaped(r, height, width)
    ensures forall y, x, k :: 0 <= y < height && 0 <= x < width && 0 <= k < Channels ==>
      r[y][x][k] == if k == c then f(src[y][x][c]) else dst[y][x][k]
  {
    seq(height, y requires 0 <= y < height =>
      seq(width, x requires 0 <= x < width => dst[y][x][c := f(src[y][x][c])]))
  }

  /** np.zeros_like: an image of the same shape, all zero. */
  function ZerosLike(height: nat, width: nat): (r: Image)
    ensures Shaped(r, height, width)
    ensures forall y, x, k :: 0 <= y < height && 0 <= x < width && 0 <= k < Channels ==> r[y][x][k] == 0
  {
    seq(height, y => seq(width, x => [0, 0, 0]))
  }

  /**
   * The gamma step: a zero image filled channel by channel with the tone
   * curve of the cropped image. The curve (a power of 1.5 on [0, 1], scaled
   * and stored as an 8-bit value) is a parameter.
   */
  method GammaCorrect(img: Image, height: nat, width: nat, curve: Byte -> Byte) returns (out: Image)
    requires Shaped(img, height, width)
    ensures Shaped(out, height, width)
    ensures forall y, x, k :: 0 <= y < height && 0 <= x < width && 0 <= k < Channels ==>
      out[y][x][k] == curve(img[y][x][k])
  {
    out := ZerosLike(height, width);
    var i := 0;
    while i < Channels
      invariant 0 <= i <= Channels
      invariant Shaped(out, height, width)
      invariant forall y, x, k :: 0 <= y < height && 0 <= x < width && 0 <= k < Channels ==>
        out[y][x][k] == if k < i then curve(img[y][x][k]) else 0
    {
      out := SetChannel(out, img, height, width, i, curve);
      i := i + 1;
    }
  }

  /** np.clip to [0, 255] of a non-negative product, stored back as an 8-bit value (truncated). */
  function Boosted(v: Byte, gain: real): (r: Byte)
    requires gain >= 0.0
    ensures (v as real) * gain < 256.0 ==> r == ((v as real) * gain).Floor
    ensures (v as real) * gain >= 255.0 ==> r == 255
    ensures gain >= 1.0 ==> r >= v
  {
    var p := (v as real) * gain;
    if p >= 255.0 then 255 else p.Floor
  }

  /**
   * The warm-tone step: channel 1 scaled by gainGreen and channel 2 by
   * gainRed, each clipped to [0, 255]; channel 0 is not written.
   */
  method Boost(img: Image, height: nat, width: nat, gainGreen: real, gainRed: real) returns (out: Image)
    requires Shaped(img, height, width) && gainGreen >= 0.0 && gainRed >= 0.0
    ensures Shaped(out, height, width)
    ensures forall y, x :: 0 <= y < height && 0 <= x < width ==>
      out[y][x][0] == img[y][x][0] &&
      out[y][x][1] == Boosted(img[y][x][1], gainGreen) &&
      out[y][x][2] == Boosted(img[y][x][2], gainRed)
  {
    out := img;
    out := SetChannel(out, out, height, width, 1, v => Boosted(v, gainGreen));
    out := SetChannel(out, out, height, width, 2, v => Boosted(v, gainRed));
  }

  /**
   * The whole script between reading and writing the image: crop, tone
   * curve, then the boost with the script's gains of 1.15 and 1.25.
   */
  method Enhance(img: Image, height: nat, width: nat, curve: Byte -> Byte) returns (out: Image, b: Box)
    requires Shaped(img, height, width)
    ensures b == CropBox(width, height, CropSize)
    ensures Shaped(out, b.y2 - b.y1, b.x2 - b.x1)
    ensures forall y, x :: 0 <= y < b.y2 - b.y1 && 0 <= x < b.x2 - b.x1 ==>
      out[y][x][0] == curve(img[b.y1 + y][b.x1 + x][0]) &&
      out[y][x][1] == Boosted(curve(img[b.y1 + y][b.x1 + x][1]), 1.15) &&
      out[y][x][2] == Boosted(curve(img[b.y1 + y][b.x1 + x][2]), 1.25)
  {
    b := CropBox(width, height, CropSize);
    var cropped := Crop(img, height, width, b);
    var corrected := GammaCorrect(cropped, b.y2 - b.y1, b.x2 - b.x1, curve);
    out := Boost(corrected, b.y2 - b.y1, b.x2 - b.x1, 1.15, 1.25);
  }
}
