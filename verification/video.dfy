/**
 * Video filter parameters: the region of interest that a crop filter is
 * derived from, and the key/value maps the crop and scale filters receive
 * (rs_mcai_worker_sdk/src/message/media/video/).
 */
module Video {
  import opened Wrappers
  import opened Strings

  /**
   * A region of interest: any subset of the six distances may be given, and
   * only some combinations determine a rectangle. All values are `u32`.
   */
  datatype RegionOfInterest = RegionOfInterest(
    top: Option<nat>,
    left: Option<nat>,
    right: Option<nat>,
    bottom: Option<nat>,
    width: Option<nat>,
    height: Option<nat>)

  datatype CropCoordinates = CropCoordinates(top: nat, left: nat, width: nat, height: nat)

  /** Target size of a scale filter; a missing side keeps the aspect ratio. */
  datatype Scaling = Scaling(width: Option<nat>, height: Option<nat>)

  datatype VideoFormat = VideoFormat(pixelFormats: string)

  /** Which two of the three distances along one axis are given. */
  datatype AxisPair = NearFar | NearSize | FarSize

  /**
   * The pair of distances given along one axis (near edge, far edge, size),
   * when exactly two of them are given.
   */
  function Given(near: Option<nat>, far: Option<nat>, size: Option<nat>): Option<AxisPair> {
    if near.Some? && far.Some? && size.None? then Some(NearFar)
    else if near.Some? && far.None? && size.Some? then Some(NearSize)
    else if near.None? && far.Some? && size.Some? then Some(FarSize)
    else None
  }

  function Horizontal(roi: RegionOfInterest): Option<AxisPair> {
    Given(roi.left, roi.right, roi.width)
  }

  function Vertical(roi: RegionOfInterest): Option<AxisPair> {
    Given(roi.top, roi.bottom, roi.height)
  }

  /**
   * The combinations the SDK turns into coordinates: two distances on each
   * axis, except (left, right) with (bottom, height) and (right, width) with
   * (top, bottom), which are rejected although they determine a rectangle.
   */
  predicate Supported(roi: RegionOfInterest) {
    && Horizontal(roi).Some?
    && Vertical(roi).Some?
    && (Horizontal(roi), Vertical(roi)) != (Some(NearFar), Some(FarSize))
    && (Horizontal(roi), Vertical(roi)) != (Some(FarSize), Some(NearFar))
  }

  /**
   * The `u32` subtractions of a supported region do not underflow: the given
   * far distance plus the given near distance or size fits in the image. An
   * unsupported region is never subtracted from, so it is not constrained.
   */
  predicate NoUnderflow(roi: RegionOfInterest, imageWidth: nat, imageHeight: nat) {
    Supported(roi) ==>
      && (Horizontal(roi) == Some(NearFar) ==> roi.right.value + roi.left.value <= imageWidth)
      && (Horizontal(roi) == Some(FarSize) ==> roi.right.value + roi.width.value <= imageWidth)
      && (Vertical(roi) == Some(NearFar) ==> roi.bottom.value + roi.top.value <= imageHeight)
      && (Vertical(roi) == Some(FarSize) ==> roi.bottom.value + roi.height.value <= imageHeight)
  }

  /** The rectangle agrees with every distance the region gives. */
  predicate Agrees(roi: RegionOfInterest, c: CropCoordinates, imageWidth: nat, imageHeight: nat) {
    && (roi.left.Some? ==> c.left == roi.left.value)
    && (roi.right.Some? ==> c.left + c.width + roi.right.value == imageWidth)
    && (roi.width.Some? ==> c.width == roi.width.value)
    && (roi.top.Some? ==> c.top == roi.top.value)
    && (roi.bottom.Some? ==> c.top + c.height + roi.bottom.value == imageHeight)
    && (roi.height.Some? ==> c.height == roi.height.value)
  }

  function DebugOption(o: Option<nat>): string {
    match o
    case None => "None"
    case Some(v) => "Some(" + NatToString(v) + ")"
  }

  /** Rust's derived `Debug` rendering of a region of interest. */
  function DebugRegion(roi: RegionOfInterest): string {
    "RegionOfInterest { top: " + DebugOption(roi.top)
    + ", left: " + DebugOption(roi.left)
    + ", right: " + DebugOption(roi.right)
    + ", bottom: " + DebugOption(roi.bottom)
    + ", width: " + DebugOption(roi.width)
    + ", height: " + DebugOption(roi.height) + " }"
  }

  /** The `u32` expression `(extent - far) - other`, which the caller keeps from underflowing. */
  function Remainder(extent: nat, far: nat, other: nat): nat
    requires far + other <= extent
  {
    (extent - far) - other
  }

  /**
   * Start and length along one axis from the two given distances: the near
   * edge is the start, the size the length, and the far edge fixes whichever
   * of the two is missing.
   */
  function AxisCoordinates(p: AxisPair, near: Option<nat>, far: Option<nat>, size: Option<nat>, extent: nat): (r: (nat, nat))
    requires Given(near, far, size) == Some(p)
    requires p == NearFar ==> far.value + near.value <= extent
    requires p == FarSize ==> far.value + size.value <= extent
    ensures near.Some? ==> r.0 == near.value
    ensures far.Some? ==> r.0 + r.1 + far.value == extent
    ensures size.Some? ==> r.1 == size.value
  {
    match p
    case NearFar => (near.value, Remainder(extent, far.value, near.value))
    case NearSize => (near.value, size.value)
    case FarSize => (Remainder(extent, far.value, size.value), size.value)
  }

  /**
   * `RegionOfInterest::get_crop_coordinates`. The source matches the six
   * optional fields against seven patterns; each pattern is one pair of given
   * distances per axis, so the coordinates are computed axis by axis here.
   */
  function GetCropCoordinates(roi: RegionOfInterest, imageWidth: nat, imageHeight: nat): (r: Result<CropCoordinates, string>)
    requires NoUnderflow(roi, imageWidth, imageHeight)
    ensures r.Ok? <==> Supported(roi)
    ensures r.Ok? ==> Agrees(roi, r.value, imageWidth, imageHeight)
    ensures r.Err? ==> r.error == "Cannot compute coordinates from such a region of interest: " + DebugRegion(roi)
  {
    if Supported(roi) then
      var (left, width) := AxisCoordinates(Horizontal(roi).value, roi.left, roi.right, roi.width, imageWidth);
      var (top, height) := AxisCoordinates(Vertical(roi).value, roi.top, roi.bottom, roi.height, imageHeight);
      Ok(CropCoordinates(top, left, width, height))
    else
      Err("Cannot compute coordinates from such a region of interest: " + DebugRegion(roi))
  }

  /** Two distances per axis fix the rectangle: coordinates that agree are unique. */
  lemma AgreementDeterminesCrop(roi: RegionOfInterest, a: CropCoordinates, b: CropCoordinates, imageWidth: nat, imageHeight: nat)
    requires Horizontal(roi).Some? && Vertical(roi).Some?
    requires Agrees(roi, a, imageWidth, imageHeight) && Agrees(roi, b, imageWidth, imageHeight)
    ensures a == b
  {
  }

  /** (left, right, bottom, height) fixes a rectangle, yet the SDK refuses it. */
  lemma DeterminedButRejected()
    ensures GetCropCoordinates(RegionOfInterest(None, Some(0), Some(200), Some(100), None, Some(100)), 600, 400).Err?
  {
  }

  /**
   * An unsupported region is rejected whatever its distances: left and right
   * exceed the 600-pixel width here, yet the answer is the error, not an
   * underflow.
   */
  lemma OversizedUnsupportedRejected()
    ensures var roi := RegionOfInterest(Some(1), Some(500), Some(500), None, None, None);
            GetCropCoordinates(roi, 600, 400)
            == Err("Cannot compute coordinates from such a region of interest: " + DebugRegion(roi))
  {
  }

  /** The test vectors of region_of_interest.rs on a 600x400 image. */
  lemma CropExamples()
    ensures GetCropCoordinates(RegionOfInterest(Some(0), Some(0), Some(200), Some(100), None, None), 600, 400)
         == Ok(CropCoordinates(0, 0, 400, 300))
    ensures GetCropCoordinates(RegionOfInterest(None, Some(0), None, Some(100), Some(200), Some(100)), 600, 400)
         == Ok(CropCoordinates(200, 0, 200, 100))
    ensures GetCropCoordinates(RegionOfInterest(None, None, Some(200), Some(100), Some(200), Some(100)), 600, 400)
         == Ok(CropCoordinates(200, 200, 200, 100))
  {
    NearEdgesExample();
    BottomExample();
    FarEdgesExample();
  }

  lemma NearEdgesExample()
    ensures GetCropCoordinates(RegionOfInterest(Some(0), Some(0), Some(200), Some(100), None, None), 600, 400)
         == Ok(CropCoordinates(0, 0, 400, 300))
  {
    CropExample(RegionOfInterest(Some(0), Some(0), Some(200), Some(100), None, None), CropCoordinates(0, 0, 400, 300));
  }

  lemma BottomExample()
    ensures GetCropCoordinates(RegionOfInterest(None, Some(0), None, Some(100), Some(200), Some(100)), 600, 400)
         == Ok(CropCoordinates(200, 0, 200, 100))
  {
    CropExample(RegionOfInterest(None, Some(0), None, Some(100), Some(200), Some(100)), CropCoordinates(200, 0, 200, 100));
  }

  lemma FarEdgesExample()
    ensures GetCropCoordinates(RegionOfInterest(None, None, Some(200), Some(100), Some(200), Some(100)), 600, 400)
         == Ok(CropCoordinates(200, 200, 200, 100))
  {
    CropExample(RegionOfInterest(None, None, Some(200), Some(100), Some(200), Some(100)), CropCoordinates(200, 200, 200, 100));
  }

  /** A supported region on a 600x400 image crops to the one rectangle agreeing with it. */
  lemma CropExample(roi: RegionOfInterest, c: CropCoordinates)
    requires Supported(roi) && NoUnderflow(roi, 600, 400) && Agrees(roi, c, 600, 400)
    ensures GetCropCoordinates(roi, 600, 400) == Ok(c)
  {
    AgreementDeterminesCrop(roi, GetCropCoordinates(roi, 600, 400).value, c, 600, 400);
  }

  /** `Scaling::get_filter_parameters`: a missing side is written as -1. */
  function ScalingParameters(s: Scaling): (params: map<string, string>)
    ensures params.Keys == {"width", "height"}
  {
    var width := if s.width.Some? then NatToString(s.width.value) else "-1";
    var height := if s.height.Some? then NatToString(s.height.value) else "-1";
    map["width" := width, "height" := height]
  }

  /** Reads one side back from its parameter text; `None` for text no side renders to. */
  function ReadSide(text: string): Option<Option<nat>> {
    if text == "-1" then Some(None)
    else if Canonical(text) then Some(Some(ParseNat(text)))
    else None
  }

  /** The scale filter parameters read back as a scaling. */
  function ReadScaling(params: map<string, string>): Option<Scaling> {
    if "width" !in params || "height" !in params then None
    else
      match (ReadSide(params["width"]), ReadSide(params["height"]))
      case (Some(w), Some(h)) => Some(Scaling(w, h))
      case _ => None
  }

  /** The scale parameters lose nothing: reading them back gives the scaling. */
  lemma ScalingRoundTrip(s: Scaling)
    ensures ReadScaling(ScalingParameters(s)) == Some(s)
  {
    var params := ScalingParameters(s);
    if s.width.Some? {
      NatToStringParse(NatToString(s.width.value));
      ParseNatToString(s.width.value);
      assert ReadSide(params["width"]) == Some(s.width);
    }
    if s.height.Some? {
      ParseNatToString(s.height.value);
      assert ReadSide(params["height"]) == Some(s.height);
    }
  }

  /** `CropCoordinates::get_filter_parameters`: ffmpeg's crop option names. */
  function CropParameters(c: CropCoordinates): (params: map<string, string>)
    ensures params.Keys == {"out_w", "out_h", "x", "y"}
  {
    map[
      "out_w" := NatToString(c.width),
      "out_h" := NatToString(c.height),
      "x" := NatToString(c.left),
      "y" := NatToString(c.top)]
  }

  /** The crop parameters read back as coordinates. */
  function ReadCrop(params: map<string, string>): Option<CropCoordinates> {
    if && "out_w" in params && Canonical(params["out_w"])
       && "out_h" in params && Canonical(params["out_h"])
       && "x" in params && Canonical(params["x"])
       && "y" in params && Canonical(params["y"])
    then Some(CropCoordinates(ParseNat(params["y"]), ParseNat(params["x"]), ParseNat(params["out_w"]), ParseNat(params["out_h"])))
    else None
  }

  /** The crop parameters map out_w/out_h/x/y back to width/height/left/top. */
  lemma CropRoundTrip(c: CropCoordinates)
    ensures ReadCrop(CropParameters(c)) == Some(c)
  {
    ParseNatToString(c.width);
    ParseNatToString(c.height);
    ParseNatToString(c.left);
    ParseNatToString(c.top);
  }
}
