// data/screenshot.py, optimize_image: shrink a chart screenshot to at most
// 1920 pixels a side, then re-encode it as JPEG at falling quality until it
// fits the size limit. PIL is outside this model: opening the file is given
// as its result, and the JPEG encoder as a function from size and quality
// to the encoded bytes or the message of the exception it raised.
module ImageOptimizer {
  import opened Wrappers

  type Byte = b: int | 0 <= b < 256

  const MaxDimension: int := 1920

  /** `len(data) / (1024 * 1024)`. */
  function SizeMb(data: seq<Byte>): real
  {
    |data| as real / 1048576.0
  }

  /** `int(x)` of a non-negative float: the whole part. */
  function Truncate(x: real): (n: int)
    requires x >= 0.0
    ensures n >= 0 && n as real <= x < n as real + 1.0
  {
    x.Floor
  }

  /**
   * The resize step (data/screenshot.py:36-42): only a side above 1920
   * triggers it, and both sides are scaled by the same ratio, the smaller of
   * 1920/width and 1920/height. A zero side divides by zero, and PIL's
   * resize raises ValueError when a scaled side truncates to 0.
   */
  function Resized(width: nat, height: nat): (r: Result<(nat, nat), string>)
  {
    if width > MaxDimension || height > MaxDimension then
      if width == 0 || height == 0 then Err("division by zero")
      else
        var ratio := Ratio(width, height);
        var (w, h) := (Truncate(width as real * ratio), Truncate(height as real * ratio));
        if w == 0 || h == 0 then Err("height and width must be > 0") else Ok((w, h))
    else Ok((width, height))
  }

  /** `min(1920 / width, 1920 / height)`. */
  function Ratio(width: nat, height: nat): real
    requires width > 0 && height > 0
  {
    Min(1920.0 / width as real, 1920.0 / height as real)
  }

  function Min(a: real, b: real): real
  {
    if a <= b then a else b
  }

  /** A side scaled by at most 1920/side is at most 1920. */
  lemma ScaledWithin(side: nat, ratio: real)
    requires side > 0 && 0.0 <= ratio <= 1920.0 / side as real
    ensures side as real * ratio <= 1920.0
  {
    assert side as real * (1920.0 / side as real) == 1920.0;
  }

  /**
   * After the resize step both sides are at most 1920 and at least 1 for an
   * oversize image, an image within bounds is left alone, and an oversize
   * image fails exactly when a side is 0 or scales to 0.
   */
  lemma ResizedWithin(width: nat, height: nat)
    ensures Resized(width, height).Ok? ==>
      Resized(width, height).value.0 <= MaxDimension && Resized(width, height).value.1 <= MaxDimension
    ensures width <= MaxDimension && height <= MaxDimension ==> Resized(width, height) == Ok((width, height))
    ensures (width > MaxDimension || height > MaxDimension) ==>
      (Resized(width, height).Ok? <==>
        width > 0 && height > 0
        && Truncate(width as real * Ratio(width, height)) > 0 && Truncate(height as real * Ratio(width, height)) > 0)
    ensures (width > MaxDimension || height > MaxDimension) && Resized(width, height).Ok? ==>
      Resized(width, height).value.0 >= 1 && Resized(width, height).value.1 >= 1
  {
    if (width > MaxDimension || height > MaxDimension) && width > 0 && height > 0 {
      var ratio := Ratio(width, height);
      ScaledWithin(width, ratio);
      ScaledWithin(height, ratio);
    }
  }

  /** A 3841 by 1 screenshot scales its height to int(0.4998...) = 0, which PIL refuses. */
  lemma ThinImageFails()
    ensures Resized(3841, 1).Err?
  {
    var ratio := Ratio(3841, 1);
    assert ratio == 1920.0 / 3841.0;
    assert 1 as real * ratio < 1.0;
  }

  /** A JPEG encoder: the bytes for an image of the given size at the given quality, or an error. */
  type Encoder = (nat, nat, int) -> Result<seq<Byte>, string>

  /**
   * The quality search (data/screenshot.py:48-60) as a recursion: encode at
   * `quality`; stop when the result fits or the quality is 10 or less,
   * otherwise try again 5 lower. Gives the final quality and its bytes.
   */
  function Search(encode: Encoder, width: nat, height: nat, maxSizeMb: real, quality: int)
    : (r: Result<(int, seq<Byte>), string>)
    decreases if quality > 10 then quality else 0
  {
    match encode(width, height, quality)
    case Err(e) => Err(e)
    case Ok(data) =>
      if SizeMb(data) <= maxSizeMb || quality <= 10 then Ok((quality, data))
      else Search(encode, width, height, maxSizeMb, quality - 5)
  }

  /**
   * The search ends at a quality q − 5k, with the bytes encoded at it; every
   * quality it passed was above 10 and too large; and the result is too
   * large only when the quality is down to 10 or less. The final quality
   * stays above 5 unless the first one already was 5 or less.
   */
  lemma {:induction false} SearchMeaning(encode: Encoder, width: nat, height: nat, maxSizeMb: real, quality: int)
    requires Search(encode, width, height, maxSizeMb, quality).Ok?
    ensures var (q, data) := Search(encode, width, height, maxSizeMb, quality).value;
      && q <= quality && (quality - q) % 5 == 0
      && encode(width, height, q) == Ok(data)
      && (SizeMb(data) > maxSizeMb ==> q <= 10)
      && (q < quality ==> q > 5)
      && (forall k :: 0 <= k < (quality - q) / 5 ==> Passed(encode, width, height, maxSizeMb, quality - 5 * k))
    decreases if quality > 10 then quality else 0
  {
    var data := encode(width, height, quality).value;
    if !(SizeMb(data) <= maxSizeMb || quality <= 10) {
      SearchMeaning(encode, width, height, maxSizeMb, quality - 5);
      var (q, _) := Search(encode, width, height, maxSizeMb, quality).value;
      forall k | 0 <= k < (quality - q) / 5
        ensures Passed(encode, width, height, maxSizeMb, quality - 5 * k)
      {
        if k > 0 {
          assert quality - 5 * k == (quality - 5) - 5 * (k - 1);
        }
      }
    }
  }

  /** A quality the loop went past: encoding worked, the result was too large and the quality above 10. */
  predicate Passed(encode: Encoder, width: nat, height: nat, maxSizeMb: real, quality: int)
  {
    quality > 10 && encode(width, height, quality).Ok? && SizeMb(encode(width, height, quality).value) > maxSizeMb
  }

  /** The BytesIO buffer the loop rewrites. */
  class OutputBuffer {
    var contents: seq<Byte>

    constructor ()
      ensures contents == []
    {
      contents := [];
    }

    /** `seek(0)` then `truncate()`. */
    method Clear()
      modifies this`contents
      ensures contents == []
    {
      contents := [];
    }

    method Write(data: seq<Byte>)
      modifies this`contents
      ensures contents == old(contents) + data
    {
      contents := contents + data;
    }
  }

  datatype OptimizationInfo =
    | Optimized(originalSizeMb: real, optimizedSizeMb: real, compressionRatio: real,
                finalQuality: int, width: nat, height: nat)
    | Failed(error: string)

  /**
   * optimize_image (data/screenshot.py:22-86). `decoded` is the image size
   * PIL reads from the file, or the message of the exception it raised. Any
   * exception gives back the file's own bytes with `{'error': msg}`.
   */
  method OptimizeImage(buffer: OutputBuffer, file: seq<Byte>, decoded: Result<(nat, nat), string>,
                       encode: Encoder, maxSizeMb: real, quality: int)
    returns (data: seq<Byte>, info: OptimizationInfo)
    modifies buffer`contents
    ensures info.Failed? ==> data == file
    ensures info.Optimized? ==>
      && decoded.Ok? && SizeMb(file) != 0.0
      && Resized(decoded.value.0, decoded.value.1) == Ok((info.width, info.height))
      && Search(encode, info.width, info.height, maxSizeMb, quality) == Ok((info.finalQuality, data))
      && info.originalSizeMb == SizeMb(file)
      && info.optimizedSizeMb == SizeMb(data)
      && info.compressionRatio == (1.0 - SizeMb(data) / SizeMb(file)) * 100.0
    ensures info.Failed? <==>
      || decoded.Err?
      || Resized(decoded.value.0, decoded.value.1).Err?
      || Search(encode, Resized(decoded.value.0, decoded.value.1).value.0,
                Resized(decoded.value.0, decoded.value.1).value.1, maxSizeMb, quality).Err?
      || SizeMb(file) == 0.0
  {
    if decoded.Err? {
      return file, Failed(decoded.error);
    }
    var originalSize := SizeMb(file);
    var (width, height) := decoded.value;
    var resized := Resized(width, height);
    if resized.Err? {
      return file, Failed(resized.error);
    }
    var (w, h) := resized.value;
    buffer.Clear();
    var currentQuality := quality;
    while true
      invariant Search(encode, w, h, maxSizeMb, currentQuality) == Search(encode, w, h, maxSizeMb, quality)
      decreases if currentQuality > 10 then currentQuality else 0
    {
      buffer.Clear();
      var encoded := encode(w, h, currentQuality);
      if encoded.Err? {
        return file, Failed(encoded.error);
      }
      buffer.Write(encoded.value);
      assert buffer.contents == encoded.value;
      var optimizedSize := SizeMb(buffer.contents);
      if optimizedSize <= maxSizeMb || currentQuality <= 10 {
        assert Search(encode, w, h, maxSizeMb, currentQuality) == Ok((currentQuality, buffer.contents));
        break;
      }
      currentQuality := currentQuality - 5;
    }
    data := buffer.contents;
    var optimizedSize := SizeMb(data);
    if originalSize == 0.0 {
      return file, Failed("float division by zero");
    }
    info := Optimized(originalSize, optimizedSize, (1.0 - optimizedSize / originalSize) * 100.0, currentQuality, w, h);
  }
}
