/**
 * The image artifact processor of the open admin platform: it accepts uploads by
 * file-name suffix, reports an image's dimensions, and converts an image by
 * running a chain of effects over it, stripping the alpha channel before and
 * after the chain when the image is a JPEG, and re-encoding it in the format it
 * was read in.
 *
 * Decoding, encoding, colour conversion and the effects themselves are library
 * or delegate code: `Image` is an abstract type and those operations are the
 * function-typed fields of `ImageCodec` and `EffectsManager`.
 */
module ImageArtifact {
  import opened Wrappers
  import opened Strings

  /** Decoded pixel data (a BufferedImage); its contents are never inspected here. */
  type Image(==)

  /** The bytes of an input or output stream. */
  type Bytes = seq<bv8>

  /** The upload types accepted by a fresh processor. */
  const DEFAULT_UPLOAD_TYPES: seq<string> := ["gif", "jpg", "jpeg", "png", "bmp", "wbmp"]

  /** The JPEG compression quality of a fresh processor (a Java float). */
  const DEFAULT_COMPRESSION_QUALITY: real := 0.9

  const METADATA_ERROR: string :=
    "Unable to retrieve image metadata from stream. Are you sure the stream provided is a valid input stream for an image source?"

  /** One effect of the chain, as the effects manager built it. */
  datatype Operation = Operation(name: string, factor: real, parameters: map<string, seq<string>>)

  /** What an image reader reports: its format name and the size of the first image. */
  datatype Reader = Reader(formatName: string, width: int, height: int)

  datatype ImageMetadata = ImageMetadata(width: int, height: int)

  /** The exceptions `convert` can end in. */
  datatype ConvertError =
    | NoImageReader                    // no reader recognises the stream
    | NoImageWriter(formatName: string) // no writer exists for the format read

  /** The image library, as seen by the processor. */
  datatype ImageCodec = ImageCodec(
    // ImageIO.getImageReaders(ImageIO.createImageInputStream(stream)), in order
    readers: Bytes -> seq<Reader>,
    // ImageIO.read(ImageIO.createImageInputStream(stream))
    read: Bytes -> Image,
    // stripAlpha: the image redrawn into an RGB image without alpha
    stripAlpha: Image -> Image,
    // whether ImageIO.getImageWritersByFormatName(format) has a writer
    hasWriter: string -> bool,
    // the bytes the writer produces for (format, compression quality, image)
    write: (string, real, Image) -> Bytes)

  /** The effects delegate. */
  datatype EffectsManager = EffectsManager(
    // renderEffect(name, factor, parameters, image)
    renderEffect: (string, real, map<string, seq<string>>, Image) -> Image)

  // ---------------------------------------------------------------------------
  // Upload types

  /** Some configured type is a suffix of the file name (case-sensitive, no dot required). */
  predicate Accepts(types: seq<string>, filename: string)
  {
    exists i :: 0 <= i < |types| && EndsWith(filename, types[i])
  }

  /** With no configured type nothing is accepted. */
  lemma AcceptsNothingWhenEmpty(filename: string)
    ensures !Accepts([], filename)
  {
  }

  /** With the default types: a dot is not required, and the test is case-sensitive. */
  lemma AcceptsDefaultExamples()
    ensures Accepts(DEFAULT_UPLOAD_TYPES, "xjpg")
    ensures Accepts(DEFAULT_UPLOAD_TYPES, "photo.jpeg")
    ensures !Accepts(DEFAULT_UPLOAD_TYPES, "photo.JPG")
    ensures !Accepts(DEFAULT_UPLOAD_TYPES, "notes.txt")
  {
    assert EndsWith("xjpg", DEFAULT_UPLOAD_TYPES[1]);
    assert EndsWith("photo.jpeg", DEFAULT_UPLOAD_TYPES[2]);
    forall i | 0 <= i < |DEFAULT_UPLOAD_TYPES|
      ensures !EndsWith("photo.JPG", DEFAULT_UPLOAD_TYPES[i]) && !EndsWith("notes.txt", DEFAULT_UPLOAD_TYPES[i])
    {
      var t := DEFAULT_UPLOAD_TYPES[i];
      assert "photo.JPG"[|"photo.JPG"| - |t|..] != t by {
        assert "photo.JPG"[|"photo.JPG"| - 1] == 'G' != t[|t| - 1];
      }
      assert "notes.txt"[|"notes.txt"| - |t|..] != t by {
        assert "notes.txt"[|"notes.txt"| - 1] == 't' != t[|t| - 1];
      }
    }
  }

  // ---------------------------------------------------------------------------
  // The conversion pipeline as a sequence of steps

  /** The format names for which alpha is stripped (compared case-sensitively). */
  predicate IsJpeg(formatName: string)
  {
    formatName == "jpeg" || formatName == "jpg"
  }

  /** One step of a conversion. */
  datatype Step = StripAlpha | RenderEffect(op: Operation)

  /** The effect steps for a list of operations, in order. */
  function Renders(operations: seq<Operation>): seq<Step>
  {
    seq(|operations|, i requires 0 <= i < |operations| => RenderEffect(operations[i]))
  }

  /** The steps of `convert` for an image read in the given format. */
  function ConvertSteps(formatName: string, operations: seq<Operation>): seq<Step>
  {
    var strip := if IsJpeg(formatName) then [StripAlpha] else [];
    strip + Renders(operations) + strip
  }

  /** How often a step list strips alpha. */
  function StripCount(steps: seq<Step>): nat
  {
    if steps == [] then 0 else (if steps[0] == StripAlpha then 1 else 0) + StripCount(steps[1..])
  }

  lemma {:induction false} StripCountAppend(a: seq<Step>, b: seq<Step>)
    ensures StripCount(a + b) == StripCount(a) + StripCount(b)
    decreases |a|
  {
    if a == [] {
      assert a + b == b;
    } else {
      assert (a + b)[0] == a[0];
      assert (a + b)[1..] == a[1..] + b;
      StripCountAppend(a[1..], b);
    }
  }

  lemma {:induction false} StripCountRenders(operations: seq<Operation>)
    ensures StripCount(Renders(operations)) == 0
    decreases |operations|
  {
    if operations != [] {
      assert Renders(operations)[1..] == Renders(operations[1..]);
      StripCountRenders(operations[1..]);
    }
  }

  /**
   * For "jpeg" and "jpg" alpha is stripped twice, first and last, around the
   * effects in operation order; for any other format it is never stripped.
   */
  lemma ConvertStepsShape(formatName: string, operations: seq<Operation>)
    ensures var steps := ConvertSteps(formatName, operations);
      var off := if IsJpeg(formatName) then 1 else 0;
      |steps| == |operations| + 2 * off &&
      (forall i :: 0 <= i < |operations| ==> steps[off + i] == RenderEffect(operations[i])) &&
      (IsJpeg(formatName) ==> steps[0] == StripAlpha && steps[|steps| - 1] == StripAlpha) &&
      StripCount(steps) == 2 * off
  {
    var strip := if IsJpeg(formatName) then [StripAlpha] else [];
    StripCountAppend(strip + Renders(operations), strip);
    StripCountAppend(strip, Renders(operations));
    StripCountRenders(operations);
  }

  /** The image after running the steps one after another, each on the previous one's output. */
  function Run(codec: ImageCodec, effects: EffectsManager, steps: seq<Step>, image: Image): Image
    decreases |steps|
  {
    if steps == [] then image
    else
      var next := match steps[0]
        case StripAlpha => codec.stripAlpha(image)
        case RenderEffect(op) => effects.renderEffect(op.name, op.factor, op.parameters, image);
      Run(codec, effects, steps[1..], next)
  }

  /** Running two step lists in turn is running their concatenation. */
  lemma {:induction false} RunAppend(
    codec: ImageCodec, effects: EffectsManager, a: seq<Step>, b: seq<Step>, image: Image)
    ensures Run(codec, effects, a + b, image) == Run(codec, effects, b, Run(codec, effects, a, image))
    decreases |a|
  {
    if a == [] {
      assert a + b == b;
    } else {
      assert (a + b)[0] == a[0];
      assert (a + b)[1..] == a[1..] + b;
      var next := match a[0]
        case StripAlpha => codec.stripAlpha(image)
        case RenderEffect(op) => effects.renderEffect(op.name, op.factor, op.parameters, image);
      RunAppend(codec, effects, a[1..], b, next);
    }
  }

  /**
   * One more operation renders its effect on the output of the earlier ones:
   * the effects run in array order, each fed the previous one's image.
   */
  lemma RunRendersSnoc(
    codec: ImageCodec, effects: EffectsManager, operations: seq<Operation>, op: Operation, image: Image)
    ensures Run(codec, effects, Renders(operations + [op]), image)
         == effects.renderEffect(op.name, op.factor, op.parameters, Run(codec, effects, Renders(operations), image))
  {
    assert Renders(operations + [op]) == Renders(operations) + [RenderEffect(op)];
    RunAppend(codec, effects, Renders(operations), [RenderEffect(op)], image);
    var mid := Run(codec, effects, Renders(operations), image);
    assert Run(codec, effects, [RenderEffect(op)], mid) == effects.renderEffect(op.name, op.factor, op.parameters, mid);
  }

  /** For a format that is not "jpeg" or "jpg" the conversion is the effect chain alone. */
  lemma NonJpegRunsEffectsOnly(
    codec: ImageCodec, effects: EffectsManager, formatName: string, operations: seq<Operation>, image: Image)
    requires !IsJpeg(formatName)
    ensures Run(codec, effects, ConvertSteps(formatName, operations), image)
         == Run(codec, effects, Renders(operations), image)
  {
    assert ConvertSteps(formatName, operations) == Renders(operations);
  }

  /** For "jpeg" and "jpg" the conversion strips alpha, runs the effects, and strips alpha again. */
  lemma JpegStripsAroundEffects(
    codec: ImageCodec, effects: EffectsManager, formatName: string, operations: seq<Operation>, image: Image)
    requires IsJpeg(formatName)
    ensures Run(codec, effects, ConvertSteps(formatName, operations), image)
         == codec.stripAlpha(Run(codec, effects, Renders(operations), codec.stripAlpha(image)))
  {
    var strip := [StripAlpha];
    RunAppend(codec, effects, strip + Renders(operations), strip, image);
    RunAppend(codec, effects, strip, Renders(operations), image);
    assert Run(codec, effects, strip, image) == codec.stripAlpha(image);
    var mid := Run(codec, effects, Renders(operations), codec.stripAlpha(image));
    assert Run(codec, effects, strip, mid) == codec.stripAlpha(mid);
  }

  // ---------------------------------------------------------------------------
  // The processor

  /** ImageArtifactProcessor: its two settings and the libraries it calls. */
  class ImageArtifactProcessor {
    var supportedUploadTypes: seq<string>
    var compressionQuality: real
    const codec: ImageCodec
    const effectsManager: EffectsManager

    /** A processor with the default upload types and compression quality. */
    constructor (codec: ImageCodec, effectsManager: EffectsManager)
      ensures supportedUploadTypes == DEFAULT_UPLOAD_TYPES
      ensures compressionQuality == DEFAULT_COMPRESSION_QUALITY
      ensures this.codec == codec && this.effectsManager == effectsManager
    {
      supportedUploadTypes := DEFAULT_UPLOAD_TYPES;
      compressionQuality := DEFAULT_COMPRESSION_QUALITY;
      this.codec := codec;
      this.effectsManager := effectsManager;
    }

    /** Whether the file name ends with one of the supported upload types; the stream is not looked at. */
    method IsSupported(artifactStream: Bytes, filename: string) returns (supported: bool)
      ensures supported <==> Accepts(supportedUploadTypes, filename)
    {
      for i := 0 to |supportedUploadTypes|
        invariant forall j :: 0 <= j < i ==> !EndsWith(filename, supportedUploadTypes[j])
      {
        if EndsWith(filename, supportedUploadTypes[i]) {
          return true;
        }
      }
      return false;
    }

    /** The width and height of the first image, as reported by the first reader; an error when there is no reader. */
    function GetImageMetadata(artifactStream: Bytes): (r: Result<ImageMetadata, string>)
      ensures r.Failure? <==> codec.readers(artifactStream) == []
      ensures r.Failure? ==> r.error == METADATA_ERROR
      ensures r.Success? ==>
        var reader := codec.readers(artifactStream)[0];
        r.value.width == reader.width && r.value.height == reader.height
    {
      var readers := codec.readers(artifactStream);
      if |readers| > 0 then
        Success(ImageMetadata(readers[0].width, readers[0].height))
      else
        Failure(METADATA_ERROR)
    }

    /**
     * Decodes the stream, applies the conversion steps for the format the first
     * reader reports, and encodes the result in that same format with the
     * configured compression quality. The mime type is not used.
     */
    method Convert(artifactStream: Bytes, operations: seq<Operation>, mimeType: string)
      returns (r: Result<Bytes, ConvertError>)
      ensures codec.readers(artifactStream) == [] ==> r == Failure(NoImageReader)
      ensures codec.readers(artifactStream) != [] ==>
        var formatName := codec.readers(artifactStream)[0].formatName;
        var image := Run(codec, effectsManager, ConvertSteps(formatName, operations), codec.read(artifactStream));
        r == if codec.hasWriter(formatName)
             then Success(codec.write(formatName, compressionQuality, image))
             else Failure(NoImageWriter(formatName))
    {
      var readers := codec.readers(artifactStream);
      if readers == [] {
        return Failure(NoImageReader);
      }
      var formatName := readers[0].formatName;
      var image := codec.read(artifactStream);
      ghost var original := image;
      var before: seq<Step> := [];

      if formatName == "jpeg" || formatName == "jpg" {
        image := codec.stripAlpha(image);
        before := [StripAlpha];
      }
      assert image == Run(codec, effectsManager, before + Renders(operations[..0]), original);

      for i := 0 to |operations|
        invariant image == Run(codec, effectsManager, before + Renders(operations[..i]), original)
      {
        var operation := operations[i];
        ghost var done := before + Renders(operations[..i]);
        assert before + Renders(operations[..i + 1]) == done + [RenderEffect(operation)];
        RunAppend(codec, effectsManager, done, [RenderEffect(operation)], original);
        image := effectsManager.renderEffect(operation.name, operation.factor, operation.parameters, image);
      }
      assert operations[..|operations|] == operations;

      if formatName == "jpeg" || formatName == "jpg" {
        RunAppend(codec, effectsManager, before + Renders(operations), [StripAlpha], original);
        assert Run(codec, effectsManager, [StripAlpha], image) == codec.stripAlpha(image);
        image := codec.stripAlpha(image);
      } else {
        assert ConvertSteps(formatName, operations) == before + Renders(operations);
      }
      assert image == Run(codec, effectsManager, ConvertSteps(formatName, operations), original);

      if !codec.hasWriter(formatName) {
        return Failure(NoImageWriter(formatName));
      }
      return Success(codec.write(formatName, compressionQuality, image));
    }

    function GetSupportedUploadTypes(): seq<string>
      reads this
    {
      supportedUploadTypes
    }

    method SetSupportedUploadTypes(supportedUploadTypes: seq<string>)
      modifies this`supportedUploadTypes
      ensures GetSupportedUploadTypes() == supportedUploadTypes
      ensures compressionQuality == old(compressionQuality)
    {
      this.supportedUploadTypes := supportedUploadTypes;
    }

    function GetCompressionQuality(): real
      reads this
    {
      compressionQuality
    }

    method SetCompressionQuality(compressionQuality: real)
      modifies this`compressionQuality
      ensures GetCompressionQuality() == compressionQuality
      ensures supportedUploadTypes == old(supportedUploadTypes)
    {
      this.compressionQuality := compressionQuality;
    }
  }
}
