/**
 * Stream types as the C ABI encodes them, the descriptors a C worker builds,
 * and their conversion to the SDK's stream descriptors
 * (c_mcai_worker_sdk/src/media/stream_descriptors.rs and
 * rs_mcai_worker_sdk/src/message/media/mod.rs).
 */
module StreamDescriptors {
  import opened Wrappers
  import opened Strings
  import opened Filters

  datatype StreamType = VideoStream | AudioStream | DataStream

  /** The enum discriminant, which is also the C header's constant. */
  function Code(t: StreamType): (code: nat)
    ensures code < 3
  {
    match t
    case VideoStream => 0
    case AudioStream => 1
    case DataStream => 2
  }

  /** `StreamType::try_from(u8)`. */
  function TryFromCode(value: nat): (r: Result<StreamType, string>)
    requires value < 256
    ensures r.Ok? <==> value < 3
    ensures r.Ok? ==> Code(r.value) == value
    ensures r.Err? ==> r.error == "Could not find " + NatToString(value) + " value into StreamType enum."
  {
    if value == 0 then Ok(VideoStream)
    else if value == 1 then Ok(AudioStream)
    else if value == 2 then Ok(DataStream)
    else Err("Could not find " + NatToString(value) + " value into StreamType enum.")
  }

  /** Every stream type survives encoding and decoding. */
  lemma CodeRoundTrip(t: StreamType)
    ensures TryFromCode(Code(t)) == Ok(t)
  {
  }

  /** The test vectors: 0, 1, 2 and the message for 3. */
  lemma TryFromExamples()
    ensures TryFromCode(0) == Ok(VideoStream) && TryFromCode(1) == Ok(AudioStream)
    ensures TryFromCode(2) == Ok(DataStream)
    ensures TryFromCode(3) == Err("Could not find 3 value into StreamType enum.")
  {
    assert NatToString(3) == "3";
    assert "Could not find " + "3" + " value into StreamType enum." == "Could not find 3 value into StreamType enum.";
  }

  /** What a C worker builds through the callbacks; `index` is a `u32`. */
  datatype CStreamDescriptor = CStreamDescriptor(index: nat, streamType: StreamType, filters: seq<GenericFilter>)

  datatype StreamConfiguration =
    | AudioConfiguration(audioFilters: seq<AudioFilter>)
    | ImageConfiguration(videoFilters: seq<VideoFilter>)
    | EbuTtmlLive
    | Json
    | DataConfiguration

  datatype StreamDescriptor = StreamDescriptor(index: nat, configuration: StreamConfiguration)

  /**
   * `From<Box<CStreamDescriptor>> for StreamDescriptor`: audio and video
   * filters are wrapped as generic ones in order; a data stream drops them.
   */
  function ToStreamDescriptor(c: CStreamDescriptor): (d: StreamDescriptor)
    ensures d.index == c.index
    ensures c.streamType == AudioStream <==> d.configuration.AudioConfiguration?
    ensures c.streamType == VideoStream <==> d.configuration.ImageConfiguration?
    ensures c.streamType == DataStream <==> d.configuration == DataConfiguration
    ensures d.configuration.AudioConfiguration? ==>
              && |d.configuration.audioFilters| == |c.filters|
              && forall k :: 0 <= k < |c.filters| ==> d.configuration.audioFilters[k] == AudioGeneric(c.filters[k])
    ensures d.configuration.ImageConfiguration? ==>
              && |d.configuration.videoFilters| == |c.filters|
              && forall k :: 0 <= k < |c.filters| ==> d.configuration.videoFilters[k] == VideoGeneric(c.filters[k])
  {
    match c.streamType
    case AudioStream => StreamDescriptor(c.index, AudioConfiguration(seq(|c.filters|, k requires 0 <= k < |c.filters| => AudioGeneric(c.filters[k]))))
    case VideoStream => StreamDescriptor(c.index, ImageConfiguration(seq(|c.filters|, k requires 0 <= k < |c.filters| => VideoGeneric(c.filters[k]))))
    case DataStream => StreamDescriptor(c.index, DataConfiguration)
  }

  /** The stream type a converted descriptor came from, if it can be told. */
  function StreamTypeOf(configuration: StreamConfiguration): Option<StreamType> {
    match configuration
    case AudioConfiguration(_) => Some(AudioStream)
    case ImageConfiguration(_) => Some(VideoStream)
    case DataConfiguration => Some(DataStream)
    case _ => None
  }

  /** The generic filters of a descriptor whose filters are all generic. */
  function GenericFiltersOf(configuration: StreamConfiguration): Option<seq<GenericFilter>> {
    match configuration
    case AudioConfiguration(fs) =>
      if forall k :: 0 <= k < |fs| ==> fs[k].AudioGeneric?
      then Some(seq(|fs|, k requires 0 <= k < |fs| && fs[k].AudioGeneric? => fs[k].generic))
      else None
    case ImageConfiguration(fs) =>
      if forall k :: 0 <= k < |fs| ==> fs[k].VideoGeneric?
      then Some(seq(|fs|, k requires 0 <= k < |fs| && fs[k].VideoGeneric? => fs[k].generic))
      else None
    case _ => Some([])
  }

  /**
   * The conversion loses only the filters of a data stream: index, type and,
   * for audio and video, every filter in order can be recovered.
   */
  lemma ConversionRecoverable(c: CStreamDescriptor)
    ensures StreamTypeOf(ToStreamDescriptor(c).configuration) == Some(c.streamType)
    ensures GenericFiltersOf(ToStreamDescriptor(c).configuration)
         == Some(if c.streamType == DataStream then [] else c.filters)
  {
    var configuration := ToStreamDescriptor(c).configuration;
    match configuration
    case AudioConfiguration(fs) =>
      var back := seq(|fs|, k requires 0 <= k < |fs| && fs[k].AudioGeneric? => fs[k].generic);
      assert back == c.filters;
    case ImageConfiguration(fs) =>
      var back := seq(|fs|, k requires 0 <= k < |fs| && fs[k].VideoGeneric? => fs[k].generic);
      assert back == c.filters;
    case _ =>
  }

  /** The conversion test: empty descriptors of each type at index 123. */
  lemma ConversionExamples()
    ensures ToStreamDescriptor(CStreamDescriptor(123, VideoStream, [])) == StreamDescriptor(123, ImageConfiguration([]))
    ensures ToStreamDescriptor(CStreamDescriptor(123, AudioStream, [])) == StreamDescriptor(123, AudioConfiguration([]))
    ensures ToStreamDescriptor(CStreamDescriptor(123, DataStream, [])) == StreamDescriptor(123, DataConfiguration)
  {
    assert ToStreamDescriptor(CStreamDescriptor(123, VideoStream, [])).configuration.videoFilters == [];
    assert ToStreamDescriptor(CStreamDescriptor(123, AudioStream, [])).configuration.audioFilters == [];
  }
}
