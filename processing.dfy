/** Per-format planning: what execute and imageProcess decide for each
    requested variant (imagist/imagist.go:228-369), with the pixel work
    replaced by the boxes it is asked to produce. */
module Processing {
  import opened Wrappers
  import opened Anchors
  import opened Dimensions

  datatype Env = Dev | Prod

  /** The process-wide settings imageProcess reads: the environment and the
      base keys of the watermark and backdrop assets. */
  datatype Config = Config(env: Env, watermarkBase: string, backdropBase: string)

  /** An asset as the asset source holds it: bytes that do not decode, or a
      decodable picture of some size. */
  datatype Asset = Undecodable | Picture(width: nat, height: nat)

  /** The outcome of every I/O step of imageProcess: whether the original
      opens, the asset source (a key that is absent fails to open), whether the
      original's file name has a known codec, the output paths that cannot be
      created and those whose encoding fails. */
  datatype Io = Io(sourceOpens: bool, assets: map<string, Asset>, codecKnown: bool,
                   uncreatable: set<string>, encodeFails: set<string>)

  datatype Box = Box(width: nat, height: nat)

  datatype Nrgba = Nrgba(r: nat, g: nat, b: nat, a: nat)

  /** The colour of the solid backdrop used when the backdrop asset does not
      load: navy with an alpha of 0. */
  const FallbackColour: Nrgba := Nrgba(0, 29, 56, 0)

  /** The bottom layer of a backdrop: the backdrop asset filled to the canvas,
      or a canvas of one solid colour. */
  datatype Layer = AssetFilled | Solid(colour: Nrgba)

  /** How the variant is laid out: the original filled (resized and cropped)
      to a box, or fitted into a box and centred on a backdrop canvas. */
  datatype Layout = Fill(box: Box) | Backdrop(fit: Box, canvas: Box, layer: Layer)

  /** The abstract result of one variant: its layout, where the watermark is
      overlaid (if it is) and the path the variant is written to. */
  datatype Plan = Plan(layout: Layout, watermark: Option<Point>, output: string)

  /** The errors imageProcess returns before any output file exists; a failed
      encode is a Written result with encoded false. */
  datatype ProcessError = OpenFailed | WatermarkNotFound | UnknownFormat | CreateFailed

  /** What imageProcess leaves behind: an error before any file is created,
      or a created output file (encoded says whether encoding succeeded). */
  datatype Processed = Failed(error: ProcessError) | Written(plan: Plan, encoded: bool)

  /** execute's guard: entries with an empty name or a non-positive size are skipped. */
  predicate Admissible(f: Format)
  {
    f.name != "" && f.width > 0 && f.height > 0
  }

  /** The target box: each side of the requested box capped at the original's
      side (no upscaling). This is the corrected capping; see
      TargetSizeAsWritten for the code as written. */
  function TargetSize(f: Format, original: Header): (b: Box)
    requires Admissible(f)
    ensures b.width <= f.width && b.width <= original.width
    ensures b.height <= f.height && b.height <= original.height
    ensures b.width == f.width || b.width == original.width
    ensures b.height == f.height || b.height == original.height
  {
    Box(if original.width < f.width then original.width else f.width,
        if original.height < f.height then original.height else f.height)
  }

  /** The target box as the source computes it: the height test compares the
      original's height with itself, so the height is never capped. */
  function TargetSizeAsWritten(f: Format, original: Header): (b: Box)
    requires Admissible(f)
    ensures b.height == f.height
    ensures b.width == TargetSize(f, original).width
  {
    Box(if original.width < f.width then original.width else f.width,
        if original.height < original.height then original.height else f.height)
  }

  /** The two cappings differ exactly when the requested height exceeds the
      original's height. */
  lemma AsWrittenDiffersOnlyForTallFormats(f: Format, original: Header)
    requires Admissible(f)
    ensures TargetSizeAsWritten(f, original) != TargetSize(f, original) <==> original.height < f.height
  {
  }

  /** A 600x200 original and a 300x400 variant: as written the target is
      300x400, taller than the original; corrected it is 300x200. */
  lemma AsWrittenUpscalesHeight()
    ensures var f, original := Format("banner", 300, 400, false, None), Header(600, 200);
      TargetSizeAsWritten(f, original) == Box(300, 400) && TargetSizeAsWritten(f, original).height > original.height &&
      TargetSize(f, original) == Box(300, 200)
  {
  }

  /** Ties (a square original) are not landscape. */
  predicate Landscape(original: Header)
  {
    original.height < original.width
  }

  /** The backdrop layer: the asset when it both opens and decodes, in either
      environment, and the solid fallback colour on any failure. */
  function BackdropLayer(cfg: Config, io: Io): (layer: Layer)
  {
    if cfg.backdropBase in io.assets && io.assets[cfg.backdropBase].Picture? then AssetFilled
    else Solid(FallbackColour)
  }

  function LayoutFor(cfg: Config, io: Io, target: Box, landscape: bool, f: Format): (layout: Layout)
    requires Admissible(f)
  {
    if f.backdrop && !landscape then Backdrop(target, Box(f.width, f.height), BackdropLayer(cfg, io))
    else Fill(target)
  }

  /** The bounds of the image the watermark is laid on: the filled box, or the
      backdrop canvas (the pixel library returns images whose Min is the origin). */
  function Background(layout: Layout): (bg: Rect)
  {
    match layout
    case Fill(box) => Rect(0, 0, box.width, box.height)
    case Backdrop(_, canvas, _) => Rect(0, 0, canvas.width, canvas.height)
  }

  /** The box the original image is scaled into. */
  function Foreground(layout: Layout): (fit: Box)
  {
    match layout
    case Fill(box) => box
    case Backdrop(fit, _, _) => fit
  }

  function WatermarkKey(cfg: Config, name: string): (key: string)
  {
    cfg.watermarkBase + ":" + name
  }

  function OutputPath(imgDiskPath: string, name: string): (path: string)
  {
    imgDiskPath + ":" + name
  }

  /** Loading the watermark of one variant: the key is absent (Open fails),
      present but undecodable, or a picture of some size. */
  datatype MarkLoad = NotFound | Unreadable | Loaded(width: nat, height: nat)

  function LoadWatermark(cfg: Config, io: Io, name: string): (load: MarkLoad)
  {
    var key := WatermarkKey(cfg, name);
    if key !in io.assets then NotFound
    else match io.assets[key]
      case Undecodable => Unreadable
      case Picture(w, h) => Loaded(w, h)
  }

  /** In production, a variant with a watermark whose key does not open is
      aborted; in development the same failure only skips the overlay. */
  predicate WatermarkAborts(cfg: Config, io: Io, f: Format)
  {
    cfg.env == Prod && f.watermark.Some? && LoadWatermark(cfg, io, f.name).NotFound?
  }

  /** imageProcess for one admissible variant with target box `target`. */
  function PlanFormat(cfg: Config, io: Io, imgDiskPath: string, target: Box, landscape: bool, f: Format): (r: Processed)
    requires Admissible(f)
    ensures r.Written? ==> r.plan.output == OutputPath(imgDiskPath, f.name)
    ensures r.Written? ==> Foreground(r.plan.layout) == target
    ensures r.Written? ==> (r.plan.layout.Backdrop? <==> f.backdrop && !landscape)
    ensures r.Written? && r.plan.layout.Backdrop? ==> r.plan.layout.canvas == Box(f.width, f.height)
    ensures r.Written? && r.plan.layout.Backdrop? ==>
      r.plan.layout.layer == (if cfg.backdropBase in io.assets && io.assets[cfg.backdropBase].Picture?
                              then AssetFilled else Solid(FallbackColour))
    ensures r.Written? ==> (r.plan.watermark.Some? <==> f.watermark.Some? && LoadWatermark(cfg, io, f.name).Loaded?)
    ensures r.Written? && r.plan.watermark.Some? ==>
      var load := LoadWatermark(cfg, io, f.name);
      r.plan.watermark.value == Placement(f.watermark.value, Background(r.plan.layout), load.width, load.height)
    ensures r == Failed(OpenFailed) <==> !io.sourceOpens
    ensures r == Failed(WatermarkNotFound) <==> io.sourceOpens && WatermarkAborts(cfg, io, f)
    ensures r == Failed(UnknownFormat) <==> io.sourceOpens && !WatermarkAborts(cfg, io, f) && !io.codecKnown
    ensures r == Failed(CreateFailed) <==>
      io.sourceOpens && !WatermarkAborts(cfg, io, f) && io.codecKnown &&
      OutputPath(imgDiskPath, f.name) in io.uncreatable
    ensures r.Written? <==>
      io.sourceOpens && !WatermarkAborts(cfg, io, f) && io.codecKnown &&
      OutputPath(imgDiskPath, f.name) !in io.uncreatable
    ensures r.Written? ==> r.encoded == (OutputPath(imgDiskPath, f.name) !in io.encodeFails)
  {
    if !io.sourceOpens then Failed(OpenFailed)
    else
      var layout := LayoutFor(cfg, io, target, landscape, f);
      var load := LoadWatermark(cfg, io, f.name);
      if f.watermark.Some? && cfg.env == Prod && load.NotFound? then Failed(WatermarkNotFound)
      else
        var mark := if f.watermark.Some? && load.Loaded?
          then Some(Placement(f.watermark.value, Background(layout), load.width, load.height))
          else None;
        if !io.codecKnown then Failed(UnknownFormat)
        else
          var output := OutputPath(imgDiskPath, f.name);
          if output in io.uncreatable then Failed(CreateFailed)
          else Written(Plan(layout, mark, output), output !in io.encodeFails)
  }

  /** Distinct variant names give distinct output paths, so the variants of
      one job never overwrite each other. */
  lemma OutputPathInjective(imgDiskPath: string, a: string, b: string)
    ensures OutputPath(imgDiskPath, a) == OutputPath(imgDiskPath, b) <==> a == b
  {
    if OutputPath(imgDiskPath, a) == OutputPath(imgDiskPath, b) {
      var n := |imgDiskPath| + 1;
      assert a == OutputPath(imgDiskPath, a)[n..];
      assert b == OutputPath(imgDiskPath, b)[n..];
    }
  }

  /** The format with its watermark position normalised. */
  function NormalizedFormat(f: Format): (g: Format)
  {
    f.(watermark := if f.watermark.Some? then Some(Normalized(f.watermark.value)) else None)
  }

  /** Planning a variant whose shared position was already normalised gives
      the same result as planning it before. */
  lemma PlanIgnoresNormalization(cfg: Config, io: Io, imgDiskPath: string, target: Box, landscape: bool, f: Format)
    requires Admissible(f)
    ensures PlanFormat(cfg, io, imgDiskPath, target, landscape, NormalizedFormat(f)) ==
            PlanFormat(cfg, io, imgDiskPath, target, landscape, f)
  {
  }

  /** A missing or undecodable backdrop never turns into an error: whether the
      variant fails, and everything but the backdrop layer, does not depend on
      the backdrop asset. */
  lemma BackdropNeverFails(cfg: Config, io: Io, imgDiskPath: string, target: Box, landscape: bool, f: Format)
    requires Admissible(f)
    requires cfg.backdropBase != WatermarkKey(cfg, f.name)
    ensures var withBackdrop := io.(assets := io.assets[cfg.backdropBase := Picture(f.width, f.height)]);
      var r, r' := PlanFormat(cfg, io, imgDiskPath, target, landscape, f),
                   PlanFormat(cfg, withBackdrop, imgDiskPath, target, landscape, f);
      (r.Failed? <==> r'.Failed?) &&
      (r.Failed? ==> r == r') &&
      (r.Written? ==> r.plan.output == r'.plan.output && r.plan.watermark == r'.plan.watermark &&
                      r.encoded == r'.encoded && Foreground(r.plan.layout) == Foreground(r'.plan.layout))
  {
  }

  /** In the development environment a watermark that fails to load is
      skipped: the variant is exactly the one planned without a watermark. */
  lemma DevSkipsMissingWatermark(cfg: Config, io: Io, imgDiskPath: string, target: Box, landscape: bool, f: Format)
    requires Admissible(f) && cfg.env == Dev && !LoadWatermark(cfg, io, f.name).Loaded?
    ensures PlanFormat(cfg, io, imgDiskPath, target, landscape, f) ==
            PlanFormat(cfg, io, imgDiskPath, target, landscape, f.(watermark := None))
  {
  }

  /** In production a watermark whose key does not open aborts the variant
      before any file is created; one that opens but does not decode is skipped. */
  lemma ProdWatermarkFailures(cfg: Config, io: Io, imgDiskPath: string, target: Box, landscape: bool, f: Format)
    requires Admissible(f) && cfg.env == Prod && io.sourceOpens && f.watermark.Some?
    ensures LoadWatermark(cfg, io, f.name).NotFound? ==>
      PlanFormat(cfg, io, imgDiskPath, target, landscape, f) == Failed(WatermarkNotFound)
    ensures LoadWatermark(cfg, io, f.name).Unreadable? ==>
      PlanFormat(cfg, io, imgDiskPath, target, landscape, f) ==
      PlanFormat(cfg, io, imgDiskPath, target, landscape, f.(watermark := None))
  {
  }

  /** The backdrop canvas is the requested box, not the capped one: for a
      small portrait original it is larger than the original. */
  lemma BackdropCanvasCanExceedOriginal()
    ensures var f, original := Format("card", 400, 400, true, None), Header(100, 200);
      var target := TargetSize(f, original);
      var r := PlanFormat(Config(Dev, "wm", "bd"), Io(true, map[], true, {}, {}), "a.png", target, Landscape(original), f);
      r.Written? && r.plan.layout == Backdrop(Box(100, 200), Box(400, 400), Solid(FallbackColour))
  {
  }

  /** What execute does with one entry of the job's format list. */
  function ExecuteStep(imgDiskPath: string, original: Header, cfg: Config, io: Io, f: Format): (r: Option<Processed>)
  {
    if !Admissible(f) then None
    else Some(PlanFormat(cfg, io, imgDiskPath, TargetSize(f, original), Landscape(original), f))
  }

  /** The outcome of execute's loop, one entry per format in order: None for a
      skipped entry, otherwise what imageProcess did with it. */
  function Outcomes(imgDiskPath: string, original: Header, cfg: Config, io: Io, fs: seq<Format>): (r: seq<Option<Processed>>)
    ensures |r| == |fs|
    decreases |fs|
  {
    if fs == [] then []
    else Outcomes(imgDiskPath, original, cfg, io, fs[..|fs| - 1]) + [ExecuteStep(imgDiskPath, original, cfg, io, fs[|fs| - 1])]
  }

  /** Each format's outcome depends on that format alone: entries are handled
      independently, and a failing entry does not affect the others. */
  lemma {:induction false} OutcomesAt(imgDiskPath: string, original: Header, cfg: Config, io: Io, fs: seq<Format>, k: nat)
    requires k < |fs|
    ensures Outcomes(imgDiskPath, original, cfg, io, fs)[k] == ExecuteStep(imgDiskPath, original, cfg, io, fs[k])
    decreases |fs|
  {
    if k < |fs| - 1 {
      OutcomesAt(imgDiskPath, original, cfg, io, fs[..|fs| - 1], k);
    }
  }

  /** The loop's outcomes grow by one turn at a time. */
  lemma OutcomesSnoc(imgDiskPath: string, original: Header, cfg: Config, io: Io, fs: seq<Format>, i: nat)
    requires i < |fs|
    ensures Outcomes(imgDiskPath, original, cfg, io, fs[..i + 1]) ==
            Outcomes(imgDiskPath, original, cfg, io, fs[..i]) + [ExecuteStep(imgDiskPath, original, cfg, io, fs[i])]
  {
    assert fs[..i + 1][..i] == fs[..i];
  }

  /** Every entry with an empty name or a non-positive side is skipped and no
      other is; a written variant goes to `path:name` and scales the original
      into a box no wider and no taller than the original. */
  lemma OutcomesSkipInvalidAndNeverUpscale(imgDiskPath: string, original: Header, cfg: Config, io: Io, fs: seq<Format>, k: nat)
    requires k < |fs|
    ensures var r := Outcomes(imgDiskPath, original, cfg, io, fs)[k];
      (r.Some? <==> Admissible(fs[k])) &&
      (r.Some? && r.value.Written? ==>
        r.value.plan.output == OutputPath(imgDiskPath, fs[k].name) &&
        Foreground(r.value.plan.layout).width <= original.width &&
        Foreground(r.value.plan.layout).height <= original.height)
  {
    OutcomesAt(imgDiskPath, original, cfg, io, fs, k);
  }

  /** Two written variants of one job with different names are written to
      different files. */
  lemma OutcomesWriteDistinctFiles(imgDiskPath: string, original: Header, cfg: Config, io: Io, fs: seq<Format>, i: nat, k: nat)
    requires i < |fs| && k < |fs| && fs[i].name != fs[k].name
    ensures var r := Outcomes(imgDiskPath, original, cfg, io, fs);
      r[i].Some? && r[i].value.Written? && r[k].Some? && r[k].value.Written? ==>
      r[i].value.plan.output != r[k].value.plan.output
  {
    OutcomesSkipInvalidAndNeverUpscale(imgDiskPath, original, cfg, io, fs, i);
    OutcomesSkipInvalidAndNeverUpscale(imgDiskPath, original, cfg, io, fs, k);
    OutputPathInjective(imgDiskPath, fs[i].name, fs[k].name);
  }

  /** imageProcess on a format entry: the plan of the entry as it was on entry,
      and, when a watermark was loaded, its shared position normalised in place. */
  method ImageProcess(cfg: Config, io: Io, imgDiskPath: string, newSize: Box, landscape: bool, format: FormatDimensions)
    returns (r: Processed)
    requires Admissible(Snapshot(format))
    modifies format.watermark
    ensures r == PlanFormat(cfg, io, imgDiskPath, newSize, landscape, old(Snapshot(format)))
    ensures format.watermark != null ==>
      format.watermark.Value() == (if io.sourceOpens && LoadWatermark(cfg, io, format.name).Loaded?
                                   then Normalized(old(format.watermark.Value())) else old(format.watermark.Value()))
  {
    if !io.sourceOpens {
      return Failed(OpenFailed);
    }
    var layout := LayoutFor(cfg, io, newSize, landscape, Snapshot(format));

    var mark: Option<Point> := None;
    if format.watermark != null {
      var load := LoadWatermark(cfg, io, format.name);
      if load.NotFound? && cfg.env == Prod {
        return Failed(WatermarkNotFound);
      }
      if load.Loaded? {
        var pos := format.watermark.Place(Background(layout), load.width, load.height);
        mark := Some(pos);
      }
    }

    if !io.codecKnown {
      return Failed(UnknownFormat);
    }
    var newDiskPath := OutputPath(imgDiskPath, format.name);
    if newDiskPath in io.uncreatable {
      return Failed(CreateFailed);
    }
    r := Written(Plan(layout, mark, newDiskPath), newDiskPath !in io.encodeFails);
  }

  /** execute hands the entry to imageProcess (it is admissible), the original
      opens and the entry's watermark loads: the turn on this entry writes the
      normalised anchors back into its shared position. */
  predicate LoadsMark(cfg: Config, io: Io, f: FormatDimensions)
  {
    f.name != "" && f.width > 0 && f.height > 0 && f.watermark != null &&
    io.sourceOpens && LoadWatermark(cfg, io, f.name).Loaded?
  }

  /** Some turn among the first n entries writes back into position m. */
  predicate WrittenBack(cfg: Config, io: Io, fs: seq<FormatDimensions>, n: nat, m: WatermarkPosition)
    requires n <= |fs|
  {
    n > 0 && (WrittenBack(cfg, io, fs, n - 1, m) || (fs[n - 1].watermark == m && LoadsMark(cfg, io, fs[n - 1])))
  }

  /** The body of execute's loop for one format entry: skip it when the guard
      fails, otherwise cap the target box, test for landscape and run
      imageProcess. `before` is the entry as the job held it when execution
      started; its shared watermark position may since have been normalised by
      another entry that points to the same position. */
  method ExecuteEntry(imgDiskPath: string, original: Header, cfg: Config, io: Io,
                      format: FormatDimensions, ghost before: Format) returns (r: Option<Processed>)
    requires Snapshot(format) == before || Snapshot(format) == NormalizedFormat(before)
    modifies format.watermark
    ensures r == ExecuteStep(imgDiskPath, original, cfg, io, before)
    ensures format.watermark != null ==>
      format.watermark.Value() == (if LoadsMark(cfg, io, format) then Normalized(old(format.watermark.Value()))
                                   else old(format.watermark.Value()))
  {
    if format.name == "" || format.width <= 0 || format.height <= 0 {
      return None;
    }
    var newWidth: nat := format.width;
    var newHeight: nat := format.height;
    // Do not upscale (the height test is the corrected one; see TargetSizeAsWritten)
    if original.width < format.width {
      newWidth := original.width;
    }
    if original.height < format.height {
      newHeight := original.height;
    }
    var landscape := original.height < original.width;
    PlanIgnoresNormalization(cfg, io, imgDiskPath, Box(newWidth, newHeight), landscape, before);
    var processed := ImageProcess(cfg, io, imgDiskPath, Box(newWidth, newHeight), landscape, format);
    r := Some(processed);
  }

  /** The value of entry k's shared position after the first n turns, from
      its value f before them. */
  ghost function PositionAfter(cfg: Config, io: Io, fs: seq<FormatDimensions>, n: nat, k: nat, f: Format): (pos: Position)
    requires n <= |fs| && k < |fs| && fs[k].watermark != null && f.watermark.Some?
  {
    if WrittenBack(cfg, io, fs, n, fs[k].watermark) then Normalized(f.watermark.value) else f.watermark.value
  }

  /** execute's loop over the job's formats, in order. */
  method ExecuteFormats(j: Job, cfg: Config, io: Io) returns (outcomes: seq<Option<Processed>>)
    modifies Marks(j.dimensions.formats)
    ensures outcomes == Outcomes(j.fileDiskPath, j.config, cfg, io, old(Snapshots(j.dimensions.formats)))
    ensures var fs := j.dimensions.formats;
      forall k :: 0 <= k < |fs| && fs[k].watermark != null ==>
        fs[k].watermark.Value() == (if WrittenBack(cfg, io, fs, |fs|, fs[k].watermark)
                                    then Normalized(old(fs[k].watermark.Value())) else old(fs[k].watermark.Value()))
  {
    var fs := j.dimensions.formats;
    ghost var before := Snapshots(fs);
    outcomes := [];
    var i := 0;
    while i < |fs|
      invariant 0 <= i <= |fs|
      invariant forall k :: 0 <= k < |fs| ==> before[k] == old(Snapshot(fs[k]))
      invariant outcomes == Outcomes(j.fileDiskPath, j.config, cfg, io, before[..i])
      invariant forall k :: 0 <= k < |fs| && fs[k].watermark != null ==>
        fs[k].watermark.Value() == PositionAfter(cfg, io, fs, i, k, before[k])
    {
      var format := fs[i];
      label Turn:
      var r := ExecuteEntry(j.fileDiskPath, j.config, cfg, io, format, before[i]);
      forall k | 0 <= k < |fs| && fs[k].watermark != null
        ensures fs[k].watermark.Value() == PositionAfter(cfg, io, fs, i + 1, k, before[k])
      {
        if fs[k].watermark == format.watermark {
          NormalizedIdempotent(before[k].watermark.value);
        } else {
          assert fs[k].watermark.Value() == old@Turn(fs[k].watermark.Value());
        }
      }
      outcomes := outcomes + [r];
      OutcomesSnoc(j.fileDiskPath, j.config, cfg, io, before, i);
      i := i + 1;
    }
    assert before[..|fs|] == before;
  }
}
