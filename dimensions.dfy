/** The data model of imagist (imagist/imagist.go:20-27, 38-43, 78-99) and
    the admission checks of Imagist.Add (imagist/imagist.go:183-216). */
module Dimensions {
  import opened Wrappers
  import opened Anchors

  // The image types Add accepts.
  const TypeImageJPG: string := "jpg"
  const TypeImageJPEG: string := "jpeg"
  const TypeImagePNG: string := "png"

  /** The "no floor" sentinel util.NoLimit. The util package is not part of
      this model, so this value stands in for it; a floor equal to the
      sentinel is never compared, so no property depends on the value. */
  const NoLimit: int := -1

  /** One requested output variant. The watermark is a shared pointer (null
      when the variant has none). */
  datatype FormatDimensions = FormatDimensions(
    name: string, width: int, height: int, backdrop: bool, watermark: WatermarkPosition?)

  /** The per-upload dimension spec: two optional floors and the variants. */
  datatype ImageDimensions = ImageDimensions(minWidth: int, minHeight: int, formats: seq<FormatDimensions>)

  /** The spec used when Add is given none: no floors and no variants. */
  const DefaultDimensions: ImageDimensions := ImageDimensions(NoLimit, NoLimit, [])

  /** The decoded header (image.Config) of the original image. */
  datatype Header = Header(width: nat, height: nat)

  /** What image.DecodeConfig reports on success: the header and the name of
      the codec that recognised it. */
  datatype Decoded = Decoded(config: Header, imgType: string)

  /** An image processing task. */
  datatype Job = Job(fileDiskPath: string, config: Header, dimensions: ImageDimensions)

  /** The errors Add returns, in the order it checks for them. */
  datatype AddError =
    | NotAnImage
    | DecodeFailed
    | UnsupportedType(imgType: string)
    | BelowMinWidth(minWidth: int)
    | BelowMinHeight(minHeight: int)

  /** A format entry read at one instant: the value its watermark pointer refers to. */
  datatype Format = Format(name: string, width: int, height: int, backdrop: bool, watermark: Option<Position>)

  function Snapshot(f: FormatDimensions): (s: Format)
    reads f.watermark
  {
    Format(f.name, f.width, f.height, f.backdrop,
      if f.watermark == null then None else Some(f.watermark.Value()))
  }

  /** The watermark objects of a list of format entries. */
  ghost function Marks(fs: seq<FormatDimensions>): (marks: set<WatermarkPosition>)
  {
    set k | 0 <= k < |fs| && fs[k].watermark != null :: fs[k].watermark
  }

  ghost function Snapshots(fs: seq<FormatDimensions>): (s: seq<Format>)
    reads Marks(fs)
  {
    seq(|fs|, k requires 0 <= k < |fs| reads Marks(fs) => Snapshot(fs[k]))
  }

  predicate AcceptedType(imgType: string)
  {
    imgType == TypeImageJPG || imgType == TypeImageJPEG || imgType == TypeImagePNG
  }

  /** The header is at least as large as every floor that is not the sentinel. */
  predicate MeetsFloors(config: Header, d: ImageDimensions)
  {
    (d.minWidth == NoLimit || d.minWidth <= config.width) &&
    (d.minHeight == NoLimit || d.minHeight <= config.height)
  }

  function SpecOrDefault(dimensions: Option<ImageDimensions>): (d: ImageDimensions)
  {
    if dimensions.Some? then dimensions.value else DefaultDimensions
  }

  /** The checks of Add, in source order: signature, header decode, type
      allow-list, then (only when validating) the width floor and the height
      floor. isImage is the outcome of the signature check and decoded that of
      the header decode (None when it fails). On success the result is the job
      Add enqueues. */
  function Validate(isImage: bool, decoded: Option<Decoded>, fileDiskPath: string,
                    dimensions: Option<ImageDimensions>, validate: bool): (r: Result<Job, AddError>)
    ensures r.Ok? <==>
      isImage && decoded.Some? && AcceptedType(decoded.value.imgType) &&
      (validate ==> MeetsFloors(decoded.value.config, SpecOrDefault(dimensions)))
    ensures r.Ok? ==> r.value == Job(fileDiskPath, decoded.value.config, SpecOrDefault(dimensions))
  {
    if !isImage then Err(NotAnImage)
    else
      var d := SpecOrDefault(dimensions);
      if decoded.None? then Err(DecodeFailed)
      else
        var config, imgType := decoded.value.config, decoded.value.imgType;
        if !AcceptedType(imgType) then
          Err(UnsupportedType(imgType))
        else if validate && d.minWidth != NoLimit && config.width < d.minWidth then
          Err(BelowMinWidth(d.minWidth))
        else if validate && d.minHeight != NoLimit && config.height < d.minHeight then
          Err(BelowMinHeight(d.minHeight))
        else
          Ok(Job(fileDiskPath, config, d))
  }

  /** Which error a rejected upload gets: the earliest failing check wins, so a
      non-image is never decoded and an unsupported type is never measured. */
  lemma RejectionOrder(isImage: bool, decoded: Option<Decoded>, fileDiskPath: string,
                       dimensions: Option<ImageDimensions>, validate: bool)
    ensures var r := Validate(isImage, decoded, fileDiskPath, dimensions, validate);
      (!isImage ==> r == Err(NotAnImage)) &&
      (isImage && decoded.None? ==> r == Err(DecodeFailed)) &&
      (isImage && decoded.Some? && !AcceptedType(decoded.value.imgType) ==>
        r == Err(UnsupportedType(decoded.value.imgType)))
  {
  }

  /** gif headers decode (the codec is registered) but are not accepted. */
  lemma GifIsRejected(config: Header, fileDiskPath: string, dimensions: Option<ImageDimensions>, validate: bool)
    ensures Validate(true, Some(Decoded(config, "gif")), fileDiskPath, dimensions, validate) == Err(UnsupportedType("gif"))
  {
  }

  /** With validation on, a width below its floor is reported before a height
      below its floor, and each names the floor it failed. */
  lemma FloorErrors(config: Header, imgType: string, fileDiskPath: string, d: ImageDimensions)
    requires AcceptedType(imgType)
    ensures var r := Validate(true, Some(Decoded(config, imgType)), fileDiskPath, Some(d), true);
      (d.minWidth != NoLimit && config.width < d.minWidth ==> r == Err(BelowMinWidth(d.minWidth))) &&
      (var widthMet := d.minWidth == NoLimit || d.minWidth <= config.width;
       widthMet && d.minHeight != NoLimit && config.height < d.minHeight ==> r == Err(BelowMinHeight(d.minHeight)))
  {
  }

  /** Size never causes a rejection when validation is off, or when both
      floors are the sentinel (as in the default spec): the verdict is then the
      same for any two headers. */
  lemma SizeIgnoredWithoutFloors(c1: Header, c2: Header, imgType: string, fileDiskPath: string,
                                 dimensions: Option<ImageDimensions>, validate: bool)
    requires !validate || dimensions.None? ||
             (dimensions.value.minWidth == NoLimit && dimensions.value.minHeight == NoLimit)
    ensures Validate(true, Some(Decoded(c1, imgType)), fileDiskPath, dimensions, validate).Ok? ==
            Validate(true, Some(Decoded(c2, imgType)), fileDiskPath, dimensions, validate).Ok?
  {
  }

  /** Giving no spec is the same as giving the default spec. */
  lemma MissingSpecIsDefault(isImage: bool, decoded: Option<Decoded>, fileDiskPath: string, validate: bool)
    ensures Validate(isImage, decoded, fileDiskPath, None, validate) ==
            Validate(isImage, decoded, fileDiskPath, Some(DefaultDimensions), validate)
  {
  }
}
