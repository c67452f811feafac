/**
 * Typed audio/video filters and their lowering to the generic
 * name/label/parameters form the filter graph consumes
 * (rs_mcai_worker_sdk/src/message/media/filters.rs).
 */
module Filters {
  import opened Wrappers
  import opened Strings
  import opened Video
  import opened Audio

  /** A filter as the SDK hands it to the graph: parameters are a hash map. */
  datatype GenericFilter = GenericFilter(name: string, filterLabel: Option<string>, parameters: map<string, string>)

  datatype AudioFilter = AudioFormatFilter(format: AudioFormat) | AudioGeneric(generic: GenericFilter)

  datatype VideoFilter =
    | Crop(region: RegionOfInterest)
    | Resize(scaling: Scaling)
    | VideoFormatFilter(format: VideoFormat)
    | VideoGeneric(generic: GenericFilter)

  /** The graph library's parameter value; this conversion only produces text values. */
  datatype ParameterValue = StringValue(text: string)

  /** The graph library's filter; input and output links are left unset here. */
  datatype Filter = Filter(
    name: string,
    filterLabel: Option<string>,
    parameters: map<string, ParameterValue>,
    inputs: Option<seq<string>>,
    outputs: Option<seq<string>>)

  /** `GenericFilter::as_filter`: every parameter becomes a text value; never fails. */
  function AsFilter(g: GenericFilter): (r: Result<Filter, string>)
    ensures r.Ok?
    ensures r.value.name == g.name && r.value.filterLabel == g.filterLabel
    ensures r.value.parameters.Keys == g.parameters.Keys
    ensures forall k :: k in g.parameters ==> r.value.parameters[k] == StringValue(g.parameters[k])
    ensures r.value.inputs.None? && r.value.outputs.None?
  {
    Ok(Filter(g.name, g.filterLabel, map k | k in g.parameters :: StringValue(g.parameters[k]), None, None))
  }

  /** The generic filter a graph filter with text parameters came from. */
  function AsGeneric(f: Filter): GenericFilter {
    GenericFilter(f.name, f.filterLabel, map k | k in f.parameters :: f.parameters[k].text)
  }

  /** `as_filter` loses nothing: the generic filter can be read back. */
  lemma AsFilterRoundTrip(g: GenericFilter)
    ensures AsGeneric(AsFilter(g).value) == g
  {
    var back := AsGeneric(AsFilter(g).value);
    assert back.parameters == g.parameters;
  }

  /** No channel layout or sample format name contains the `|` separator. */
  predicate NamesFree(format: AudioFormat) {
    FreeOf(format.channelLayouts, Alternatives) && FreeOf(format.sampleFormats, Alternatives)
  }

  lemma FormatParametersRead(format: AudioFormat)
    ensures NamesFree(format) ==> ReadAudioFormat(AudioFormatParameters(format)) == Some(format)
  {
    if NamesFree(format) {
      AudioFormatRoundTrip(format);
    }
  }

  /** `AudioFilter::as_generic_filter`: never fails. */
  function AudioAsGenericFilter(f: AudioFilter): (r: Result<GenericFilter, string>)
    ensures r.Ok?
    ensures f.AudioGeneric? ==> r.value == f.generic
    ensures f.AudioFormatFilter? ==> r.value.name == "aformat" && r.value.filterLabel == Some("aformat_filter")
    ensures f.AudioFormatFilter? && NamesFree(f.format) ==> ReadAudioFormat(r.value.parameters) == Some(f.format)
  {
    match f
    case AudioFormatFilter(format) =>
      FormatParametersRead(format);
      Ok(GenericFilter("aformat", Some("aformat_filter"), AudioFormatParameters(format)))
    case AudioGeneric(generic) => Ok(generic)
  }

  /** The crop error is the only one; it needs the decoder's image size. */
  predicate CropInRange(f: VideoFilter, imageWidth: nat, imageHeight: nat) {
    f.Crop? ==> NoUnderflow(f.region, imageWidth, imageHeight)
  }

  /**
   * `VideoFilter::as_generic_filter`, with the decoder's width and height as
   * inputs. Only a crop can fail, with the region-of-interest error.
   */
  function VideoAsGenericFilter(f: VideoFilter, imageWidth: nat, imageHeight: nat): (r: Result<GenericFilter, string>)
    requires CropInRange(f, imageWidth, imageHeight)
    ensures r.Err? <==> f.Crop? && !Supported(f.region)
    ensures r.Err? ==> r.error == "Cannot compute coordinates from such a region of interest: " + DebugRegion(f.region)
    ensures f.VideoGeneric? ==> r == Ok(f.generic)
    ensures f.Crop? && r.Ok? ==>
              && r.value.name == "crop" && r.value.filterLabel == Some("crop_filter")
              && ReadCrop(r.value.parameters).Some?
              && Agrees(f.region, ReadCrop(r.value.parameters).value, imageWidth, imageHeight)
    ensures f.Resize? ==>
              && r.value.name == "scale" && r.value.filterLabel == Some("scale_filter")
              && ReadScaling(r.value.parameters) == Some(f.scaling)
    ensures f.VideoFormatFilter? ==>
              && r.value.name == "format" && r.value.filterLabel == Some("format_filter")
              && r.value.parameters.Keys == {"pix_fmts"}
              && r.value.parameters["pix_fmts"] == f.format.pixelFormats
  {
    match f
    case Crop(region) =>
      (match GetCropCoordinates(region, imageWidth, imageHeight)
       case Err(e) => Err(e)
       case Ok(coordinates) =>
         CropRoundTrip(coordinates);
         Ok(GenericFilter("crop", Some("crop_filter"), CropParameters(coordinates))))
    case Resize(scaling) =>
      ScalingRoundTrip(scaling);
      Ok(GenericFilter("scale", Some("scale_filter"), ScalingParameters(scaling)))
    case VideoFormatFilter(format) =>
      Ok(GenericFilter("format", Some("format_filter"), map["pix_fmts" := format.pixelFormats]))
    case VideoGeneric(generic) => Ok(generic)
  }
}
