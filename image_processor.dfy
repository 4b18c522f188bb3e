/** The image-preparation collaborator, reduced to the part the orchestrator
    depends on: the size limit it is built with and the size check on its
    output. Decoding, resizing, re-encoding and reading GPS metadata are
    library work that this model takes as an input. */
module ImageProcessing {
  import opened Wrappers
  import opened Errors
  import opened Json

  /** The limit taken when none, or zero, is given: 5 MiB. */
  const DefaultMaxSize: int := 5 * 1024 * 1024

  /** What the codec made of the file at the image path: the file is missing,
      decoding or encoding failed, or the re-encoded bytes together with the
      location read from the metadata (`Null` when there was none). */
  datatype Codec =
    | Missing
    | CodecFailure
    | Encoded(bytes: seq<bv8>, location: JSON)

  /** `max_size or 5 MiB`: an absent or zero limit takes the default. */
  function EffectiveMaxSize(maxSize: Option<int>): (r: int)
    ensures maxSize.Some? && maxSize.value != 0 ==> r == maxSize.value
    ensures maxSize.None? || maxSize.value == 0 ==> r == DefaultMaxSize
  {
    match maxSize
    case Some(n) => if n != 0 then n else DefaultMaxSize
    case None => DefaultMaxSize
  }

  /** `process_image` after the codec has run: a missing file raises before
      anything else; a codec failure, or output larger than the limit, is an
      image-processing error; otherwise the bytes and the location. */
  function Prepared(codec: Codec, maxSize: int): (r: Result<(seq<bv8>, JSON), Error>)
    ensures r.Ok? <==> codec.Encoded? && |codec.bytes| <= maxSize
    ensures r.Ok? ==> r.value == (codec.bytes, codec.location)
    ensures codec.Missing? ==> r == Err(FileNotFoundError)
    ensures !codec.Missing? && r.Err? ==> r.error == ImageProcessingError
  {
    match codec
    case Missing => Err(FileNotFoundError)
    case CodecFailure => Err(ImageProcessingError)
    case Encoded(bytes, location) =>
      if |bytes| > maxSize then Err(ImageProcessingError) else Ok((bytes, location))
  }

  class ImageProcessor {
    var maxSize: int

    constructor (maxSizeArg: Option<int>)
      ensures maxSize == EffectiveMaxSize(maxSizeArg)
    {
      maxSize := EffectiveMaxSize(maxSizeArg);
    }

    method ProcessImage(codec: Codec) returns (r: Result<(seq<bv8>, JSON), Error>)
      ensures r == Prepared(codec, maxSize)
    {
      if codec.Missing? {
        return Err(FileNotFoundError);
      }
      if codec.CodecFailure? {
        return Err(ImageProcessingError);
      }
      var finalSize := |codec.bytes|;
      if finalSize > maxSize {
        return Err(ImageProcessingError);
      }
      return Ok((codec.bytes, codec.location));
    }
  }
}
