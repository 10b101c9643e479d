/** The repack-and-normalise step of inference (lib/modelService.ts, lines
    77-117): a 128x128 RGBA pixel buffer becomes a channel-major float tensor
    of shape [1, 3, 128, 128]. The canvas that draws and resizes the image is
    not modelled; its pixel buffer is the input. */
module Preprocessing {

  /** One byte of an RGBA pixel buffer. */
  newtype byte = x: int | 0 <= x < 256

  const INPUT_SIZE: nat := 128
  const NUM_CHANNELS: nat := 3
  /** Pixels in one resized image. */
  const PIXEL_COUNT: nat := INPUT_SIZE * INPUT_SIZE
  /** Bytes per RGBA pixel. */
  const BYTES_PER_PIXEL: nat := 4
  /** Elements of the [1, 3, 128, 128] input tensor. */
  const TENSOR_SIZE: nat := 1 * NUM_CHANNELS * INPUT_SIZE * INPUT_SIZE

  /** The affine map (p/255 - 0.5)/0.5 that sends the byte range onto [-1, 1]. */
  function Normalize(p: byte): (r: real)
    ensures -1.0 <= r <= 1.0
    ensures r == (2.0 * (p as int) as real - 255.0) / 255.0
  {
    ((p as int) as real / 255.0 - 0.5) / 0.5
  }

  lemma NormalizeStrictlyMonotone(p: byte, q: byte)
    requires p < q
    ensures Normalize(p) < Normalize(q)
  {
  }

  /** A black byte maps to -1 and a saturated byte to 1. */
  lemma NormalizeEndpoints()
    ensures Normalize(0) == -1.0 && Normalize(255) == 1.0
  {
  }

  /** Byte c (0 red, 1 green, 2 blue, 3 alpha) of pixel i in an interleaved
      RGBA buffer. */
  function ChannelByte(pixels: seq<byte>, i: nat, c: nat): byte
    requires |pixels| == BYTES_PER_PIXEL * PIXEL_COUNT && i < PIXEL_COUNT && c < BYTES_PER_PIXEL
  {
    pixels[BYTES_PER_PIXEL * i + c]
  }

  /** The plane of channel c (0 red, 1 green, 2 blue) of an RGBA buffer,
      normalised, in pixel order. */
  function Plane(pixels: seq<byte>, c: nat): (r: seq<real>)
    requires |pixels| == BYTES_PER_PIXEL * PIXEL_COUNT && c < NUM_CHANNELS
  {
    seq(PIXEL_COUNT, i requires 0 <= i < PIXEL_COUNT => Normalize(ChannelByte(pixels, i, c)))
  }

  /** The tensor the preprocessing must produce: all red values, then all
      green, then all blue; alpha is dropped. */
  function Tensor(pixels: seq<byte>): seq<real>
    requires |pixels| == BYTES_PER_PIXEL * PIXEL_COUNT
  {
    Plane(pixels, 0) + Plane(pixels, 1) + Plane(pixels, 2)
  }

  /** Element c*pixelCount + i of the tensor is channel c of pixel i. */
  lemma TensorAt(pixels: seq<byte>, c: nat, i: nat)
    requires |pixels| == BYTES_PER_PIXEL * PIXEL_COUNT
    requires c < NUM_CHANNELS && i < PIXEL_COUNT
    ensures |Tensor(pixels)| == TENSOR_SIZE
    ensures Tensor(pixels)[c * PIXEL_COUNT + i] == Normalize(pixels[BYTES_PER_PIXEL * i + c])
  {
    var t := Tensor(pixels);
    if c == 0 {
      assert t[i] == Plane(pixels, 0)[i];
    } else if c == 1 {
      assert t[PIXEL_COUNT + i] == Plane(pixels, 1)[i];
    } else {
      assert t[2 * PIXEL_COUNT + i] == Plane(pixels, 2)[i];
    }
  }

  /** Every tensor element lies in [-1, 1]. */
  lemma TensorInRange(pixels: seq<byte>, k: nat)
    requires |pixels| == BYTES_PER_PIXEL * PIXEL_COUNT && k < TENSOR_SIZE
    ensures -1.0 <= Tensor(pixels)[k] <= 1.0
  {
    TensorAt(pixels, k / PIXEL_COUNT, k % PIXEL_COUNT);
  }

  /** Alpha bytes (offset 3 of each pixel) never influence the tensor. */
  lemma AlphaIgnored(pixels: seq<byte>, other: seq<byte>)
    requires |pixels| == |other| == BYTES_PER_PIXEL * PIXEL_COUNT
    requires forall k :: 0 <= k < |pixels| && k % BYTES_PER_PIXEL != 3 ==> pixels[k] == other[k]
    ensures Tensor(pixels) == Tensor(other)
  {
    forall c | 0 <= c < NUM_CHANNELS
      ensures Plane(pixels, c) == Plane(other, c)
    {
      forall i | 0 <= i < PIXEL_COUNT
        ensures pixels[BYTES_PER_PIXEL * i + c] == other[BYTES_PER_PIXEL * i + c]
      {
        assert (BYTES_PER_PIXEL * i + c) % BYTES_PER_PIXEL == c;
      }
    }
  }

  /** An image whose colour bytes are all 0 preprocesses to all -1. */
  lemma BlackImage(pixels: seq<byte>)
    requires |pixels| == BYTES_PER_PIXEL * PIXEL_COUNT
    requires forall i, c :: 0 <= i < PIXEL_COUNT && 0 <= c < NUM_CHANNELS ==> ChannelByte(pixels, i, c) == 0
    ensures Tensor(pixels) == seq(TENSOR_SIZE, _ => -1.0)
  {
    var t := Tensor(pixels);
    forall k | 0 <= k < TENSOR_SIZE
      ensures t[k] == -1.0
    {
      var c, i := k / PIXEL_COUNT, k % PIXEL_COUNT;
      TensorAt(pixels, c, i);
      assert k == c * PIXEL_COUNT + i;
    }
  }

  /** Fills a fresh tensor from the pixel buffer, one pixel per iteration,
      writing its red, green and blue values into the three planes. */
  method Preprocess(pixels: array<byte>) returns (tensor: array<real>)
    requires pixels.Length == BYTES_PER_PIXEL * PIXEL_COUNT
    ensures fresh(tensor) && tensor.Length == TENSOR_SIZE
    ensures tensor[..] == Tensor(pixels[..])
  {
    tensor := new real[TENSOR_SIZE];
    var pixelCount := INPUT_SIZE * INPUT_SIZE;
    for i := 0 to pixelCount
      invariant forall j :: 0 <= j < i ==> tensor[j] == Normalize(pixels[BYTES_PER_PIXEL * j])
      invariant forall j :: 0 <= j < i ==> tensor[pixelCount + j] == Normalize(pixels[BYTES_PER_PIXEL * j + 1])
      invariant forall j :: 0 <= j < i ==> tensor[pixelCount * 2 + j] == Normalize(pixels[BYTES_PER_PIXEL * j + 2])
    {
      var pixelIndex := i * BYTES_PER_PIXEL;
      tensor[i] := Normalize(pixels[pixelIndex]);
      tensor[pixelCount + i] := Normalize(pixels[pixelIndex + 1]);
      tensor[pixelCount * 2 + i] := Normalize(pixels[pixelIndex + 2]);
    }
    ghost var t := Tensor(pixels[..]);
    forall k | 0 <= k < TENSOR_SIZE
      ensures tensor[k] == t[k]
    {
      TensorAt(pixels[..], k / PIXEL_COUNT, k % PIXEL_COUNT);
    }
  }
}
