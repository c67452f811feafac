/**
 * The two example C workers shipped with the binding
 * (c_mcai_worker_sdk/worker.cpp and c_mcai_worker_sdk/media_worker.cpp),
 * modelled as the values they write through the ABI, and composed with the
 * host side of `CWorker` to state what the SDK ends up with.
 */
module ReferenceWorkers {
  import opened Wrappers
  import opened Strings
  import opened Json
  import opened Audio
  import opened Filters
  import opened StreamDescriptors
  import opened FilterGraph
  import opened ProcessReturns
  import opened CWorker

  /** The C `Parameter` struct of the worker's parameter table. */
  datatype WorkerParameter = WorkerParameter(identifier: string, title: string, kinds: seq<string>, required: bool)

  const GenericWorkerParameters: seq<WorkerParameter> :=
    [WorkerParameter("my_parameter", "My parameter", ["string"], true)]

  const MediaWorkerParameters: seq<WorkerParameter> :=
    [ WorkerParameter("source_path", "Source path", ["string"], true),
      WorkerParameter("destination_path", "Destination path", ["string"], true)]

  /** `get_parameters_size()`: `sizeof(worker_parameters) / sizeof(Parameter)`. */
  function GetParametersSize(table: seq<WorkerParameter>): nat {
    |table|
  }

  /**
   * `get_parameters(buffer)`: `memcpy` of the whole table into the buffer
   * the host allocated. `None` is an entry nobody wrote.
   */
  function GetParameters(buffer: seq<Option<WorkerParameter>>, table: seq<WorkerParameter>): (r: seq<Option<WorkerParameter>>)
    requires |table| <= |buffer|
    ensures |r| == |buffer|
    ensures forall k :: 0 <= k < |table| ==> r[k] == Some(table[k])
    ensures forall k :: |table| <= k < |r| ==> r[k] == buffer[k]
  {
    seq(|buffer|, k requires 0 <= k < |buffer| => if k < |table| then Some(table[k]) else buffer[k])
  }

  /**
   * The host allocates `get_parameters_size()` entries and reads them all
   * back after `get_parameters`: every entry it reads was written, and the
   * entries are the table.
   */
  lemma HostReadsWholeTable(table: seq<WorkerParameter>)
    ensures var buffer := seq(GetParametersSize(table), _ => None);
            GetParameters(buffer, table) == seq(|table|, k requires 0 <= k < |table| => Some(table[k]))
  {
  }

  /** A callback the worker makes, in order. */
  datatype Call = LogCall(level: string, text: string) | ProgressCall(percent: nat) | GetValueCall(key: string)

  /** The percentages reported, in order. */
  function Percents(calls: seq<Call>): (ps: seq<nat>)
    ensures |ps| <= |calls|
  {
    if |calls| == 0 then []
    else
      var rest := Percents(calls[1..]);
      if calls[0].ProgressCall? then [calls[0].percent] + rest else rest
  }

  /** Percentages reported by consecutive runs of calls follow one another. */
  lemma {:induction false} PercentsAppend(a: seq<Call>, b: seq<Call>)
    ensures Percents(a + b) == Percents(a) + Percents(b)
    decreases |a|
  {
    if |a| == 0 {
      assert a + b == b;
    } else {
      assert (a + b)[0] == a[0];
      assert (a + b)[1..] == a[1..] + b;
      PercentsAppend(a[1..], b);
    }
  }

  predicate Increasing(ps: seq<nat>) {
    forall i, j :: 0 <= i < j < |ps| ==> ps[i] < ps[j]
  }

  /** On LP64 targets: `sizeof(int)` and `sizeof(const char*)`. */
  const IntBytes: nat := 4
  const PointerBytes: nat := 8

  /**
   * What `process` leaves behind: its return code, the message pointer, the
   * output-path array (with the bytes allocated for it) and the callbacks it
   * made.
   */
  datatype WorkerRun = WorkerRun(
    returnCode: int,
    message: CStr,
    pathArray: Option<seq<CStr>>,
    pathArrayBytes: nat,
    calls: seq<Call>)

  /** The host's initial output-path array: one null entry (a `Vec` of one pointer). */
  const HostPathArray: seq<CStr> := [NullStr]

  /**
   * The generic worker's `process`, given what the "path" getter returned.
   * As written, the path array for two pointers gets `sizeof(int) * 2` bytes.
   */
  function GenericProcessAsWritten(pathValue: CStr): (run: WorkerRun)
    ensures run.returnCode == 0 <==> pathValue.Str?
    ensures pathValue.NullStr? ==> run.message == Str("Something went wrong...") && run.pathArray == Some(HostPathArray)
    ensures pathValue.Str? ==>
              && run.message == Str("Everything worked well!")
              && run.pathArray == Some([Str("/path/out.mxf"), NullStr])
    ensures Percents(run.calls) == if pathValue.Str? then [0, 33, 100] else [0]
  {
    var opening := [LogCall("debug", "Start C Worker process..."), ProgressCall(0), GetValueCall("path")];
    match pathValue
    case NullStr =>
      assert opening[1..][1..] == [GetValueCall("path")];
      assert Percents(opening) == [0];
      WorkerRun(1, Str("Something went wrong..."), Some(HostPathArray), PointerBytes, opening)
    case Str(value) =>
      var closing := [ProgressCall(33), LogCall("debug", value), ProgressCall(100)];
      var calls := opening + closing;
      assert opening[1..][1..] == [GetValueCall("path")];
      assert closing[1..][1..] == [ProgressCall(100)];
      assert Percents([ProgressCall(100)]) == [100] by {
        assert [ProgressCall(100)][1..] == [];
      }
      assert Percents(closing[1..]) == [100];
      PercentsAppend(opening, closing);
      assert Percents(opening) == [0];
      assert Percents(closing) == [33, 100];
      WorkerRun(0, Str("Everything worked well!"), Some([Str("/path/out.mxf"), NullStr]), 2 * IntBytes, calls)
  }

  /** The allocation is smaller than the two pointers stored in it. */
  lemma PathArrayOverflow(value: string)
    ensures var run := GenericProcessAsWritten(Str(value));
            run.pathArrayBytes < |run.pathArray.value| * PointerBytes
  {
  }

  /** The generic worker with the path array sized by `sizeof(const char*)`. */
  function GenericProcess(pathValue: CStr): (run: WorkerRun)
    ensures run.pathArray.Some? && |run.pathArray.value| * PointerBytes <= run.pathArrayBytes
    ensures run.returnCode == 0 <==> pathValue.Str?
    ensures run == GenericProcessAsWritten(pathValue).(pathArrayBytes := run.pathArrayBytes)
  {
    var run := GenericProcessAsWritten(pathValue);
    run.(pathArrayBytes := |run.pathArray.value| * PointerBytes)
  }

  /** Progress goes 0, 33, 100 on success and stops at 0 on failure: always increasing. */
  lemma ProgressIncreasing(pathValue: CStr)
    ensures Increasing(Percents(GenericProcess(pathValue).calls))
    ensures pathValue.Str? <==> Percents(GenericProcess(pathValue).calls)[|Percents(GenericProcess(pathValue).calls)| - 1] == 100
  {
  }

  /** The handler carries a "path" job parameter. */
  predicate PathGiven(handler: Option<Handler>) {
    handler.Some? && handler.value.parameters.Some? && "path" in handler.value.parameters.value
  }

  /**
   * The generic worker run by the host: the "path" getter, the worker's
   * `process` and the host's reading of its results. A missing path fails
   * with the worker's own message and no paths; a given one succeeds with the
   * single output path, unless rendering its value panics.
   */
  method RunGenericWorker(handler: Option<Handler>, debug: JsonValue -> string) returns (o: Outcome<ProcessReturn>)
    ensures !PathGiven(handler) ==> o == Returned(ProcessReturn(ErrorCode, "Something went wrong...", []))
    ensures o.Panicked? ==> PathGiven(handler)
    ensures PathGiven(handler) && o.Returned? ==> o.value == ProcessReturn(0, "Everything worked well!", ["/path/out.mxf"])
    ensures PathGiven(handler) && handler.value.parameters.value["path"].JString? ==>
              ('\0' !in handler.value.parameters.value["path"].s ==> o.Returned?)
  {
    var value := GetParameterValue(handler, Str("path"), debug);
    if value.Panicked? {
      return Panicked(value.reason);
    }
    var run := GenericProcess(value.value);
    if run.pathArray.value == [Str("/path/out.mxf"), NullStr] {
      assert run.pathArray.value[1].NullStr?;
    } else {
      assert run.pathArray.value[0].NullStr?;
    }
    var pr := CallWorkerProcess(run.returnCode, run.message, run.pathArray);
    if run.returnCode == 0 {
      assert |pr.outputPaths| == 1 by {
        assert run.pathArray.value[0] == Str("/path/out.mxf");
      }
    }
    return Returned(pr);
  }

  /** The FFmpeg media types the media worker distinguishes. */
  datatype MediaType = AudioMedia | VideoMedia | SubtitleMedia | DataMedia | OtherMedia

  /** `enum StreamType { VIDEO, AUDIO, DATA }` of media_worker.h. */
  const AudioCode: nat := 1
  const DataCode: nat := 2

  /** The filter the media worker attaches to each audio stream. */
  function AformatFilter(): GenericFilter {
    GenericFilter("aformat", Some("aformat_filter"), map["sample_rates" := "16000", "sample_fmts" := "s32", "channel_layouts" := "mono"])
  }

  /** The hand-built filter is the one the Rust SDK derives from a 16 kHz mono s32 format. */
  lemma AformatIsAudioFormat()
    ensures AudioAsGenericFilter(AudioFormatFilter(AudioFormat([16000], ["mono"], ["s32"]))) == Ok(AformatFilter())
  {
    var params := AudioFormatParameters(AudioFormat([16000], ["mono"], ["s32"]));
    assert Join(RateTexts([16000]), Alternatives) == "16000" by {
      assert RateTexts([16000]) == [NatToString(16000)];
      assert NatToString(16000) == "16000";
    }
    assert params == AformatFilter().parameters;
  }

  /** The descriptor the worker means to build for stream `i`, if any. */
  function Described(i: nat, t: MediaType): Option<CStreamDescriptor> {
    match t
    case AudioMedia => Some(CStreamDescriptor(i, AudioStream, [AformatFilter()]))
    case SubtitleMedia => Some(CStreamDescriptor(i, DataStream, []))
    case DataMedia => Some(CStreamDescriptor(i, DataStream, []))
    case VideoMedia => None
    case OtherMedia => None
  }

  /**
   * One turn of the loop in `init_process`: the callbacks made for stream
   * `i`, and the descriptor handle it stores, if any.
   */
  function DescribeStream(reg: Registry, i: nat, t: MediaType): (res: (Registry, Option<nat>))
    requires Valid(reg)
    ensures Valid(res.0) && reg.next <= res.0.next
    ensures res.1.Some? <==> Described(i, t).Some?
    ensures res.1.Some? ==>
              && res.1.value in res.0.descriptors && res.1.value !in reg.descriptors
              && res.0.descriptors[res.1.value] == Described(i, t).value
    ensures forall h :: h in reg.descriptors ==> h in res.0.descriptors && res.0.descriptors[h] == reg.descriptors[h]
  {
    match t
    case AudioMedia =>
      var (r1, d) := NewStreamDescriptor(reg, i, AudioCode);
      var (r2, f) := NewFilter(r1, Str("aformat"), Str("aformat_filter"));
      var r3 := AddFilterParameter(r2, f.handle, Str("sample_rates"), Str("16000"));
      var r4 := AddFilterParameter(r3, f.handle, Str("sample_fmts"), Str("s32"));
      var r5 := AddFilterParameter(r4, f.handle, Str("channel_layouts"), Str("mono"));
      assert r5.filters[f.handle] == AformatFilter();
      var r6 := AddDescriptorFilter(r5, d.handle, f.handle);
      assert r6.descriptors[d.handle].filters == [AformatFilter()];
      (r6, Some(d.handle))
    case SubtitleMedia =>
      var (r1, d) := NewStreamDescriptor(reg, i, DataCode);
      (r1, Some(d.handle))
    case DataMedia =>
      var (r1, d) := NewStreamDescriptor(reg, i, DataCode);
      (r1, Some(d.handle))
    case VideoMedia => (reg, None)
    case OtherMedia => (reg, None)
  }

  /** The slot holds the descriptor the worker meant, or was never written. */
  predicate SlotHolds(s: Slot, reg: Registry, d: Option<CStreamDescriptor>) {
    match d
    case None => s == Uninitialised
    case Some(x) => s.Descriptor? && s.handle in reg.descriptors && reg.descriptors[s.handle] == x
  }

  /**
   * The media worker's `init_process` as written: slot `i` is written only
   * for audio, subtitle and data streams, yet the reported count is the
   * number of streams.
   */
  method MediaInitProcessAsWritten(reg: Registry, streams: seq<MediaType>)
    returns (r: Registry, written: seq<Slot>, reportedSize: nat, returnCode: int)
    requires Valid(reg)
    ensures Valid(r) && returnCode == 0
    ensures reportedSize == |streams| && |written| == |streams|
    ensures forall k :: 0 <= k < |streams| ==> SlotHolds(written[k], r, Described(k, streams[k]))
  {
    r, written := reg, [];
    var i := 0;
    while i < |streams|
      invariant i <= |streams| && |written| == i && Valid(r)
      invariant forall k :: 0 <= k < i ==> SlotHolds(written[k], r, Described(k, streams[k]))
    {
      var (next, stored) := DescribeStream(r, i, streams[i]);
      var slot := if stored.Some? then Descriptor(stored.value) else Uninitialised;
      r, written := next, written + [slot];
      i := i + 1;
    }
    return r, written, |streams|, 0;
  }

  /** The descriptors the worker means to report, in stream order. */
  function ExpectedDescriptors(streams: seq<MediaType>): (ds: seq<CStreamDescriptor>)
    ensures |ds| <= |streams|
  {
    if |streams| == 0 then []
    else
      var last := |streams| - 1;
      var init := ExpectedDescriptors(streams[..last]);
      match Described(last, streams[last])
      case None => init
      case Some(d) => init + [d]
  }

  /** With every stream described, the expected descriptors are those of every stream. */
  lemma {:induction false} AllDescribed(streams: seq<MediaType>)
    requires forall k :: 0 <= k < |streams| ==> Described(k, streams[k]).Some?
    ensures |ExpectedDescriptors(streams)| == |streams|
    ensures forall k :: 0 <= k < |streams| ==> ExpectedDescriptors(streams)[k] == Described(k, streams[k]).value
  {
    if |streams| > 0 {
      var last := |streams| - 1;
      var init := streams[..last];
      assert forall k :: 0 <= k < |init| ==> init[k] == streams[k];
      AllDescribed(init);
    }
  }

  /** One more stream adds its descriptor, if it has one, after the others. */
  lemma ExpectedStep(streams: seq<MediaType>, i: nat)
    requires i < |streams|
    ensures ExpectedDescriptors(streams[..i + 1])
         == ExpectedDescriptors(streams[..i]) + (match Described(i, streams[i]) case None => [] case Some(d) => [d])
  {
    assert streams[..i + 1][..i] == streams[..i];
  }

  /**
   * `init_process` as evidently intended: the descriptors written are stored
   * one after another and their number is reported.
   */
  method MediaInitProcess(reg: Registry, streams: seq<MediaType>)
    returns (r: Registry, written: seq<Slot>, reportedSize: nat, returnCode: int)
    requires Valid(reg)
    ensures Valid(r) && returnCode == 0
    ensures reportedSize == |written| == |ExpectedDescriptors(streams)|
    ensures forall k :: 0 <= k < |written| ==> SlotHolds(written[k], r, Some(ExpectedDescriptors(streams)[k]))
  {
    r, written := reg, [];
    var i := 0;
    while i < |streams|
      invariant i <= |streams| && Valid(r)
      invariant |written| == |ExpectedDescriptors(streams[..i])|
      invariant forall k :: 0 <= k < |written| ==> SlotHolds(written[k], r, Some(ExpectedDescriptors(streams[..i])[k]))
    {
      var (next, stored) := DescribeStream(r, i, streams[i]);
      ExpectedStep(streams, i);
      if stored.Some? {
        written := written + [Descriptor(stored.value)];
      }
      r := next;
      i := i + 1;
    }
    assert streams[..i] == streams;
    return r, written, |written|, 0;
  }

  /** The host's 256-entry array after the worker copied `written` into its front. */
  function HostSlots(written: seq<Slot>): (slots: seq<Slot>)
    requires |written| <= DescriptorSlots
    ensures |slots| == DescriptorSlots
    ensures forall k :: 0 <= k < |written| ==> slots[k] == written[k]
  {
    written + NullSlots()[|written|..]
  }

  /** The descriptors the SDK receives for `ds`. */
  function Converted(ds: seq<CStreamDescriptor>): (sds: seq<StreamDescriptor>)
    ensures |sds| == |ds|
    ensures forall k :: 0 <= k < |ds| ==> sds[k] == ToStreamDescriptor(ds[k])
  {
    seq(|ds|, k requires 0 <= k < |ds| => ToStreamDescriptor(ds[k]))
  }

  /**
   * What the host sees of the worker's `init_process`: the worker copied more
   * entries than the host's 256-entry array holds (`count` of them), which
   * writes past its end, or the host read the array.
   */
  datatype HostInitRun = CopyOverflow(count: nat) | HostRead(outcome: InitOutcome)

  /**
   * The media worker as written, run by the host: more than 256 streams
   * overflow the host's array; otherwise any video (or other) stream makes
   * the host read an entry the worker never wrote, at the first such stream,
   * and only when every stream is described does the host get all
   * descriptors.
   */
  method HostInitAsWritten(streams: seq<MediaType>) returns (run: HostInitRun)
    ensures run.CopyOverflow? <==> |streams| > DescriptorSlots
    ensures run.CopyOverflow? ==> run.count == |streams|
    ensures run.HostRead? ==> run.outcome.InitRead?
    ensures run.HostRead? && (exists k :: 0 <= k < |streams| && Described(k, streams[k]).None?) ==>
              && run.outcome.collected.UndefinedRead? && run.outcome.collected.position < |streams|
              && Described(run.outcome.collected.position, streams[run.outcome.collected.position]).None?
              && forall k :: 0 <= k < run.outcome.collected.position ==> Described(k, streams[k]).Some?
    ensures run.HostRead? && (forall k :: 0 <= k < |streams| ==> Described(k, streams[k]).Some?) ==>
              run.outcome.collected == Descriptors(Converted(ExpectedDescriptors(streams)))
  {
    var r, written, size, code := MediaInitProcessAsWritten(Empty, streams);
    if |written| > DescriptorSlots {
      return CopyOverflow(|written|);
    }
    var slots := HostSlots(written);
    var o := CallWorkerInitProcess(code, slots, Some(size), r);
    run := HostRead(o);
    assert forall k :: 0 <= k < |streams| ==> (Live(slots[k], r) <==> Described(k, streams[k]).Some?);
    assert forall k :: 0 <= k < |streams| ==> slots[k] != NullSlot;
    if forall k :: 0 <= k < |streams| ==> Described(k, streams[k]).Some? {
      AllDescribed(streams);
      assert o.collected.descriptors == Converted(ExpectedDescriptors(streams));
    } else {
      var k :| 0 <= k < |streams| && Described(k, streams[k]).None?;
      assert !Live(slots[k], r);
    }
  }

  /** One video stream: the host reads entry 0, which the worker never wrote. */
  method VideoStreamUndefinedRead() returns (run: HostInitRun)
    ensures run == HostRead(InitRead(UndefinedRead(0)))
  {
    run := HostInitAsWritten([VideoMedia]);
    assert Described(0, [VideoMedia][0]).None?;
  }

  /**
   * The corrected worker run by the host: the array overflows exactly when
   * more than 256 descriptors are written; otherwise the SDK receives every
   * descriptor meant, in stream order.
   */
  method HostInit(streams: seq<MediaType>) returns (run: HostInitRun)
    ensures run.CopyOverflow? <==> |ExpectedDescriptors(streams)| > DescriptorSlots
    ensures run.CopyOverflow? ==> run.count == |ExpectedDescriptors(streams)|
    ensures run.HostRead? ==> run.outcome == InitRead(Descriptors(Converted(ExpectedDescriptors(streams))))
  {
    var r, written, size, code := MediaInitProcess(Empty, streams);
    if |written| > DescriptorSlots {
      return CopyOverflow(|written|);
    }
    var slots := HostSlots(written);
    var o := CallWorkerInitProcess(code, slots, Some(size), r);
    assert forall k :: 0 <= k < |written| ==> Live(slots[k], r) && slots[k] != NullSlot;
    assert o.collected.descriptors == Converted(ExpectedDescriptors(streams));
    run := HostRead(o);
  }

  /** The fields of an `AVFrame` the worker reads. */
  datatype AvFrame = AvFrame(width: int, height: int, pts: int)

  datatype FrameKind = VideoFrame | AudioFrame

  /** A frame is logged as video when both dimensions are non-zero, as audio otherwise. */
  function Classify(frame: AvFrame): (k: FrameKind) {
    if frame.width != 0 && frame.height != 0 then VideoFrame else AudioFrame
  }

  /** `printf`'s `%d` applied to an `unsigned int`: the bits read as a signed 32-bit value. */
  function AsSigned32(u: nat): (i: int)
    requires u < 0x1_0000_0000
    ensures -0x8000_0000 <= i < 0x8000_0000
    ensures i == u || i == u - 0x1_0000_0000
  {
    if u < 0x8000_0000 then u else u - 0x1_0000_0000
  }

  /** The JSON text `process_frame` writes for a job id already cut to `unsigned int`. */
  function FrameMessage(jobId: nat, pts: int): string
    requires jobId < 0x1_0000_0000
  {
    "{\"job_id\": " + IntToString(AsSigned32(jobId)) + ", \"pts\": " + IntToString(pts) + ", \"result\":\"OK\"}"
  }

  datatype FrameRun = FrameRun(returnCode: int, message: CStr, kind: FrameKind)

  /**
   * The media worker's `process_frame`: the host passes the job id cast to
   * `u32`; the worker writes the JSON text and returns 0.
   */
  function MediaProcessFrame(jobId: nat, frame: AvFrame): (run: FrameRun)
    ensures run.returnCode == 0
    ensures run.kind == VideoFrame <==> frame.width != 0 && frame.height != 0
    ensures run.message == Str(FrameMessage(jobId % 0x1_0000_0000, frame.pts))
  {
    FrameRun(0, Str(FrameMessage(jobId % 0x1_0000_0000, frame.pts)), Classify(frame))
  }

  /** A job id below 2^31 appears in the frame message as its own decimal numeral. */
  lemma FrameMessageJobId(jobId: nat, pts: int)
    requires jobId < 0x8000_0000
    ensures MediaProcessFrame(jobId, AvFrame(0, 0, pts)).message.text
         == "{\"job_id\": " + NatToString(jobId) + ", \"pts\": " + IntToString(pts) + ", \"result\":\"OK\"}"
  {
    assert jobId % 0x1_0000_0000 == jobId;
    assert AsSigned32(jobId) == jobId;
  }

  /** From 2^31 on, `%d` prints the job id as a negative number. */
  lemma FrameMessageWraps()
    ensures MediaProcessFrame(0x8000_0000, AvFrame(0, 0, 0)).message.text
         == "{\"job_id\": -" + NatToString(0x8000_0000) + ", \"pts\": 0, \"result\":\"OK\"}"
  {
    assert 0x8000_0000 % 0x1_0000_0000 == 0x8000_0000;
    assert AsSigned32(0x8000_0000) == -0x8000_0000;
    assert IntToString(-0x8000_0000) == "-" + NatToString(0x8000_0000);
    assert IntToString(0) == "0";
  }

  /** The host hands the worker's JSON text on as a JSON string, recoverable exactly. */
  lemma FrameThroughHost(jobId: nat, frame: AvFrame)
    ensures var run := MediaProcessFrame(jobId, frame);
            var r := CallWorkerProcessFrame(AudioVideo, run.returnCode, run.message);
            && r.Ok? && !r.value.endOfProcess && r.value.xmlContent.None?
            && ParseJsonStringLiteral(r.value.jsonContent.value) == Some(FrameMessage(jobId % 0x1_0000_0000, frame.pts))
  {
  }
}
