/**
 * The host side of the C worker ABI: what the binding makes of a C worker's
 * return code and out-parameters (c_mcai_worker_sdk/src/worker.rs), and the
 * callbacks it hands to the worker (c_mcai_worker_sdk/src/utils.rs). The
 * dynamic library is not loaded here: the worker's return code and the
 * values it wrote are inputs.
 */
module CWorker {
  import opened Wrappers
  import opened Strings
  import opened Json
  import opened Jobs
  import opened ProcessReturns
  import opened StreamDescriptors
  import opened FilterGraph

  /** The exported worker symbols, as the host names them in its messages. */
  const InitProcessFunction: string := "init_process"
  const ProcessFrameFunction: string := "process_frame"
  const ProcessFunction: string := "process"

  /** `format!("{:?} function returned error code: {:?}", name, code)`. */
  function ReturnedErrorCode(symbol: string, code: int): string {
    "\"" + symbol + "\" function returned error code: " + IntToString(code)
  }

  /** The host's descriptor array has 256 entries, all null before the call. */
  const DescriptorSlots: nat := 256

  /** One entry of the descriptor array after the worker ran. */
  datatype Slot = NullSlot | Descriptor(handle: nat) | Uninitialised

  predicate Live(s: Slot, reg: Registry) {
    s.Descriptor? && s.handle in reg.descriptors
  }

  /** What reading the array gives: descriptors, or a failure of the host itself. */
  datatype Collected =
    | Descriptors(descriptors: seq<StreamDescriptor>)
    | UndefinedRead(position: nat)
    | IndexPanic

  /**
   * What reading `size` entries of the array yields: the descriptors of a
   * prefix of live entries, ended by the size or by a null entry; the first
   * entry that is neither null nor live; or a panic once the index passes
   * the 256 entries.
   */
  predicate Reads(c: Collected, slots: seq<Slot>, size: nat, reg: Registry)
    requires |slots| == DescriptorSlots
  {
    && (c.Descriptors? ==>
          && |c.descriptors| <= size && |c.descriptors| <= DescriptorSlots
          && (|c.descriptors| == size || (|c.descriptors| < DescriptorSlots && slots[|c.descriptors|] == NullSlot))
          && forall k :: 0 <= k < |c.descriptors| ==>
               Live(slots[k], reg) && c.descriptors[k] == ToStreamDescriptor(reg.descriptors[slots[k].handle]))
    && (c.UndefinedRead? ==>
          && c.position < size && c.position < DescriptorSlots
          && slots[c.position] != NullSlot && !Live(slots[c.position], reg)
          && forall k :: 0 <= k < c.position ==> Live(slots[k], reg))
    && (c.IndexPanic? ==> size > DescriptorSlots && forall k :: 0 <= k < DescriptorSlots ==> Live(slots[k], reg))
  }

  /**
   * The reading loop of `call_worker_init_process`: entries 0 .. size-1 in
   * order, stopping at the first null one. An index past the 256-entry array
   * panics; an entry that is not a live descriptor box is undefined
   * behaviour.
   */
  method CollectDescriptors(slots: seq<Slot>, size: nat, reg: Registry) returns (c: Collected)
    requires |slots| == DescriptorSlots
    ensures Reads(c, slots, size, reg)
    ensures (forall k :: 0 <= k < size && k < DescriptorSlots ==> Live(slots[k], reg)) ==>
              if size <= DescriptorSlots then c.Descriptors? && |c.descriptors| == size else c.IndexPanic?
  {
    var out: seq<StreamDescriptor> := [];
    var i := 0;
    while i < size
      invariant i <= size && i <= DescriptorSlots
      invariant |out| == i
      invariant forall k :: 0 <= k < i ==> Live(slots[k], reg) && out[k] == ToStreamDescriptor(reg.descriptors[slots[k].handle])
      decreases size - i
    {
      if i >= DescriptorSlots {
        return IndexPanic;
      }
      match slots[i]
      case NullSlot =>
        return Descriptors(out);
      case Uninitialised =>
        return UndefinedRead(i);
      case Descriptor(h) =>
        if h !in reg.descriptors {
          return UndefinedRead(i);
        }
        out := out + [ToStreamDescriptor(reg.descriptors[h])];
      i := i + 1;
    }
    return Descriptors(out);
  }

  /** The whole outcome of `call_worker_init_process`. */
  datatype InitOutcome = InitFailed(error: MessageError) | InitRead(collected: Collected)

  /**
   * `call_worker_init_process` after the worker returned `returnCode`: a
   * non-zero code is an error and nothing is read; otherwise the reported
   * size (zero if its cell was never allocated) bounds the reading.
   */
  method CallWorkerInitProcess(returnCode: int, slots: seq<Slot>, reportedSize: Option<nat>, reg: Registry) returns (o: InitOutcome)
    requires |slots| == DescriptorSlots
    ensures returnCode != 0 <==> o.InitFailed?
    ensures o.InitFailed? ==> o.error == RuntimeError(ReturnedErrorCode(InitProcessFunction, returnCode))
    ensures o.InitRead? ==> Reads(o.collected, slots, reportedSize.GetOr(0), reg)
    ensures o.InitRead? && reportedSize.None? ==> o.collected == Descriptors([])
  {
    if returnCode != 0 {
      return InitFailed(RuntimeError(ReturnedErrorCode(InitProcessFunction, returnCode)));
    }
    var c := CollectDescriptors(slots, reportedSize.GetOr(0), reg);
    return InitRead(c);
  }

  /** The host's pre-call state: every slot null. */
  function NullSlots(): (slots: seq<Slot>)
    ensures |slots| == DescriptorSlots
    ensures forall k :: 0 <= k < |slots| ==> slots[k] == NullSlot
  {
    seq(DescriptorSlots, _ => NullSlot)
  }

  /** `ProcessFrame`: the frame kinds the SDK hands to `process_frame`. */
  datatype ProcessFrame = AudioVideo | EbuTtmlLiveFrame | DataFrame

  /** `ProcessResult`: JSON or XML content, or the end-of-process marker. */
  datatype ProcessResult = ProcessResult(endOfProcess: bool, jsonContent: Option<string>, xmlContent: Option<string>)

  /** `ProcessResult::new_json(&content)`: the content serialized as a JSON string. */
  function NewJson(content: string): (r: ProcessResult)
    ensures !r.endOfProcess && r.xmlContent.None? && r.jsonContent.Some?
    ensures ParseJsonStringLiteral(r.jsonContent.value) == Some(content)
  {
    JsonStringRoundTrip(content);
    ProcessResult(false, Some(JsonStringLiteral(content)), None)
  }

  /**
   * `call_worker_process_frame`: only audio/video frames reach the worker; a
   * non-zero return code is an error, otherwise the message the worker wrote
   * (empty if none) is the JSON result.
   */
  function CallWorkerProcessFrame(frame: ProcessFrame, returnCode: int, message: CStr): (r: Result<ProcessResult, MessageError>)
    ensures !frame.AudioVideo? ==> r == Err(NotImplemented)
    ensures frame.AudioVideo? ==> (r.Ok? <==> returnCode == 0)
    ensures frame.AudioVideo? && r.Err? ==> r.error == RuntimeError(ReturnedErrorCode(ProcessFrameFunction, returnCode))
    ensures r.Ok? ==> r.value.jsonContent.Some? && ParseJsonStringLiteral(r.value.jsonContent.value) == Some(GetCString(message))
  {
    if !frame.AudioVideo? then Err(NotImplemented)
    else if returnCode != 0 then Err(RuntimeError(ReturnedErrorCode(ProcessFrameFunction, returnCode)))
    else Ok(NewJson(GetCString(message)))
  }

  /** The array holds a null entry, which ends the list of paths. */
  predicate Terminated(paths: seq<CStr>) {
    exists k :: 0 <= k < |paths| && paths[k].NullStr?
  }

  /** The C array a worker writes for `paths`: each path, then the null sentinel. */
  function TerminatedArray(paths: seq<string>): (a: seq<CStr>)
    ensures |a| == |paths| + 1 && a[|paths|] == NullStr
    ensures forall k :: 0 <= k < |paths| ==> a[k] == Str(paths[k])
  {
    seq(|paths|, k requires 0 <= k < |paths| => Str(paths[k])) + [NullStr]
  }

  /** The output-path loop of `call_worker_process`: entries up to the first null. */
  method CollectPaths(entries: seq<CStr>) returns (paths: seq<string>)
    requires Terminated(entries)
    ensures |paths| < |entries| && entries[|paths|].NullStr?
    ensures forall k :: 0 <= k < |paths| ==> entries[k] == Str(paths[k])
  {
    paths := [];
    var offset := 0;
    while entries[offset].Str?
      invariant offset < |entries| && |paths| == offset
      invariant forall k :: 0 <= k < offset ==> entries[k] == Str(paths[k])
      invariant exists j :: offset <= j < |entries| && entries[j].NullStr?
      decreases |entries| - offset
    {
      paths := paths + [entries[offset].text];
      offset := offset + 1;
    }
  }

  /** Paths written with their sentinel are read back exactly. */
  lemma PathsRoundTrip(written: seq<string>, read: seq<string>)
    requires |read| < |TerminatedArray(written)| && TerminatedArray(written)[|read|].NullStr?
    requires forall k :: 0 <= k < |read| ==> TerminatedArray(written)[k] == Str(read[k])
    ensures read == written
  {
  }

  /**
   * `call_worker_process` after the worker returned: on a non-zero code the
   * worker's message if it wrote one, else the host's own, and no path is
   * read; on zero, the paths up to the sentinel (none if the worker left the
   * entries pointer null) and the message, empty if none was written.
   */
  method CallWorkerProcess(returnCode: int, message: CStr, pathArray: Option<seq<CStr>>) returns (pr: ProcessReturn)
    requires pathArray.Some? ==> Terminated(pathArray.value)
    ensures returnCode != 0 ==> pr.code == ErrorCode && pr.outputPaths == []
    ensures returnCode != 0 && message.Str? ==> pr.message == message.text
    ensures returnCode != 0 && message.NullStr? ==> pr.message == ReturnedErrorCode(ProcessFunction, returnCode)
    ensures returnCode == 0 ==> pr.code == 0 && pr.message == GetCString(message)
    ensures returnCode == 0 && pathArray.None? ==> pr.outputPaths == []
    ensures returnCode == 0 && pathArray.Some? ==>
              && |pr.outputPaths| < |pathArray.value| && pathArray.value[|pr.outputPaths|].NullStr?
              && forall k :: 0 <= k < |pr.outputPaths| ==> pathArray.value[k] == Str(pr.outputPaths[k])
  {
    if returnCode != 0 {
      var text := if message.Str? then message.text else ReturnedErrorCode(ProcessFunction, returnCode);
      return NewError(text);
    }
    var paths: seq<string> := [];
    if pathArray.Some? {
      paths := CollectPaths(pathArray.value);
    }
    return WithOutputPaths(NewProcessReturn(returnCode, GetCString(message)), paths);
  }

  /** What the binding keeps behind the `Handler` pointer. */
  datatype Handler = Handler(jobId: Option<nat>, parameters: Option<map<string, JsonValue>>)

  /** A callback either returns or panics inside the binding. */
  datatype Outcome<T> = Returned(value: T) | Panicked(reason: string)

  /** `CString::new(text).unwrap()`: text with an interior NUL panics. */
  function ToCString(text: string): (r: Outcome<CStr>)
    ensures r.Returned? <==> '\0' !in text
    ensures r.Returned? ==> r.value == Str(text)
  {
    if '\0' in text then Panicked("nul byte found in provided data") else Returned(Str(text))
  }

  /**
   * `get_parameter_value(handler, key)`: null for a null handler, a handler
   * without parameters, or an unknown key; otherwise the value's text:
   * strings verbatim, numbers as their `i64` (a number that is not one
   * panics on `unwrap`), booleans as "true"/"false", `Null` as "", arrays
   * and objects through `debug` (their `Debug` text).
   */
  function GetParameterValue(handler: Option<Handler>, key: CStr, debug: JsonValue -> string): (r: Outcome<CStr>)
    ensures handler.None? ==> r == Returned(NullStr)
    ensures handler.Some? && handler.value.parameters.None? ==> r == Returned(NullStr)
    ensures handler.Some? && handler.value.parameters.Some? && GetCString(key) !in handler.value.parameters.value ==>
              r == Returned(NullStr)
    ensures r.Returned? && r.value.Str? ==>
              && handler.Some? && handler.value.parameters.Some?
              && GetCString(key) in handler.value.parameters.value
    ensures handler.Some? && handler.value.parameters.Some? && GetCString(key) in handler.value.parameters.value ==>
              var v := handler.value.parameters.value[GetCString(key)];
              && (v.JString? && '\0' !in v.s ==> r == Returned(Str(v.s)))
              && (v.JString? && '\0' in v.s ==> r.Panicked?)
              && ((v.JArray? || v.JObject?) ==> (r.Returned? <==> '\0' !in debug(v)))
              && ((v.JArray? || v.JObject?) && r.Returned? ==> r.value == Str(debug(v)))
              && (v.JBool? ==> r == Returned(Str(BoolText(v.b))))
              && (v.JNull? ==> r == Returned(Str("")))
              && (v.JNumber? ==> (r.Returned? <==> AsI64(v.n).Some?))
              && (v.JNumber? && r.Returned? ==> r.value == Str(IntToString(v.n.value)))
  {
    match handler
    case None => Returned(NullStr)
    case Some(h) =>
      match h.parameters
      case None => Returned(NullStr)
      case Some(parameters) =>
        var k := GetCString(key);
        if k !in parameters then Returned(NullStr)
        else
          match parameters[k]
          case JString(s) => ToCString(s)
          case JNumber(n) =>
            (match AsI64(n)
             case None => Panicked("called `Option::unwrap()` on a `None` value")
             case Some(i) => ToCString(IntToString(i)))
          case JBool(b) => ToCString(BoolText(b))
          case JArray(_) => ToCString(debug(parameters[k]))
          case JObject(_) => ToCString(debug(parameters[k]))
          case JNull => ToCString("")
  }

  /** An integer parameter read through the callback parses back to itself. */
  lemma IntegerParameterText(h: Handler, key: string, i: int, debug: JsonValue -> string)
    requires h.parameters.Some? && key in h.parameters.value
    requires h.parameters.value[key] == JNumber(IntNumber(i)) && InI64(i)
    ensures GetParameterValue(Some(h), Str(key), debug).Returned?
    ensures GetParameterValue(Some(h), Str(key), debug).value.Str?
    ensures ParseNatSigned(GetParameterValue(Some(h), Str(key), debug).value.text) == i
  {
    ParseNatToString(if i < 0 then -i else i);
    var t := IntToString(i);
    if i < 0 {
      assert t[1..] == NatToString(-i);
    }
  }

  /** Reads back the text `IntToString` writes. */
  function ParseNatSigned(t: string): int {
    if |t| >= 1 && t[0] == '-' && AllDigits(t[1..]) then -(ParseNat(t[1..]) as int)
    else if AllDigits(t) then ParseNat(t)
    else 0
  }

  /**
   * The host's handler pointer: NULL, a live handler, or memory freed by a
   * dropped `Box<Handler>`.
   */
  datatype HandlerPointer = NullPointer | Held(handler: Handler) | Freed

  /** A call through the pointer: what it answers and what the pointer then refers to. */
  datatype Access = Answered(outcome: Outcome<CStr>, after: HandlerPointer) | UseAfterFree

  /**
   * `get_parameter_value` at the level of the host's pointer, as written: the
   * handler is taken with `Box::from_raw` and given back with `Box::into_raw`
   * only once a value is found or a key is missing. On the no-parameters
   * path the `Box` is dropped, which frees the handler the host still holds;
   * a panic unwinds through the same drop.
   */
  function LookupAsWritten(p: HandlerPointer, key: CStr, debug: JsonValue -> string): (a: Access)
    ensures a.UseAfterFree? <==> p.Freed?
    ensures p.NullPointer? ==> a == Answered(Returned(NullStr), NullPointer)
    ensures p.Held? ==> a.Answered? && a.outcome == GetParameterValue(Some(p.handler), key, debug)
    ensures p.Held? ==>
              (a.after == Held(p.handler) <==> p.handler.parameters.Some? && a.outcome.Returned?)
    ensures p.Held? && a.after != Held(p.handler) ==> a.after == Freed
  {
    match p
    case NullPointer => Answered(Returned(NullStr), NullPointer)
    case Freed => UseAfterFree
    case Held(h) =>
      var outcome := GetParameterValue(Some(h), key, debug);
      if h.parameters.Some? && outcome.Returned? then Answered(outcome, p) else Answered(outcome, Freed)
  }

  /**
   * A worker's `process_frame` looks up two parameters through the handler
   * the SDK gives it, which has no parameters: the first lookup frees the
   * handler and the second reads freed memory.
   */
  lemma ProcessFrameSecondLookup(jobId: nat, first: CStr, second: CStr, debug: JsonValue -> string)
    ensures var a := LookupAsWritten(Held(Handler(Some(jobId), None)), first, debug);
            && a == Answered(Returned(NullStr), Freed)
            && LookupAsWritten(a.after, second, debug).UseAfterFree?
  {
  }

  /**
   * `get_parameter_value` with the handler given back on every path that
   * returns: only a panic's unwinding still drops it.
   */
  function Lookup(p: HandlerPointer, key: CStr, debug: JsonValue -> string): (a: Access)
    ensures a.UseAfterFree? <==> p.Freed?
    ensures p.NullPointer? ==> a == Answered(Returned(NullStr), NullPointer)
    ensures p.Held? ==> a.Answered? && a.outcome == GetParameterValue(Some(p.handler), key, debug)
    ensures p.Held? ==> (a.after == Held(p.handler) <==> a.outcome.Returned?)
    ensures p.Held? && a.outcome.Panicked? ==> a.after == Freed
  {
    match p
    case NullPointer => Answered(Returned(NullStr), NullPointer)
    case Freed => UseAfterFree
    case Held(h) =>
      var outcome := GetParameterValue(Some(h), key, debug);
      if outcome.Returned? then Answered(outcome, p) else Answered(outcome, Freed)
  }

  /**
   * Lookups that return can be repeated: after any run of them every further
   * lookup answers as on the handler the SDK handed out.
   */
  lemma {:induction false} LookupsRepeat(h: Handler, keys: seq<CStr>, key: CStr, debug: JsonValue -> string)
    requires forall i :: 0 <= i < |keys| ==> GetParameterValue(Some(h), keys[i], debug).Returned?
    ensures Lookups(Held(h), keys, debug) == Held(h)
    ensures Lookup(Lookups(Held(h), keys, debug), key, debug).Answered?
    ensures Lookup(Lookups(Held(h), keys, debug), key, debug).outcome == GetParameterValue(Some(h), key, debug)
    decreases |keys|
  {
    if |keys| > 0 {
      assert GetParameterValue(Some(h), keys[0], debug).Returned?;
      LookupsRepeat(h, keys[1..], key, debug);
    }
  }

  /** The pointer after a run of corrected lookups; a use after free ends the run at `Freed`. */
  function Lookups(p: HandlerPointer, keys: seq<CStr>, debug: JsonValue -> string): HandlerPointer
    decreases |keys|
  {
    if |keys| == 0 then p
    else
      match Lookup(p, keys[0], debug)
      case UseAfterFree => Freed
      case Answered(_, after) => Lookups(after, keys[1..], debug)
  }

  datatype LogLevel = Trace | Debug | Info | Warn | ErrorLevel

  function LevelName(l: LogLevel): string {
    match l
    case Trace => "trace"
    case Debug => "debug"
    case Info => "info"
    case Warn => "warn"
    case ErrorLevel => "error"
  }

  datatype LogRecord = LogRecord(level: LogLevel, text: string)

  /** The level a name selects, if any. */
  function LevelOf(name: string): (r: Option<LogLevel>)
    ensures r.Some? ==> LevelName(r.value) == name
    ensures r.None? ==> forall l :: LevelName(l) != name
  {
    if name == "trace" then Some(Trace)
    else if name == "debug" then Some(Debug)
    else if name == "info" then Some(Info)
    else if name == "warn" then Some(Warn)
    else if name == "error" then Some(ErrorLevel)
    else None
  }

  /** `logger(level, message)`: five level names log "[Worker] " + message; any other is ignored. */
  function Logger(level: CStr, message: CStr): (r: Option<LogRecord>)
    ensures r.Some? <==> exists l :: LevelName(l) == GetCString(level)
    ensures r.Some? ==> LevelName(r.value.level) == GetCString(level) && r.value.text == "[Worker] " + GetCString(message)
  {
    match LevelOf(GetCString(level))
    case None => None
    case Some(l) => Some(LogRecord(l, "[Worker] " + GetCString(message)))
  }

  /** Every level logs under its own name. */
  lemma LoggerLevels(l: LogLevel, message: string)
    ensures Logger(Str(LevelName(l)), Str(message)) == Some(LogRecord(l, "[Worker] " + message))
  {
  }

  datatype ProgressOutcome = Warned(text: string) | Published(jobId: nat, percent: nat) | PublishPanicked

  /**
   * `progress(handler, percent)`: with a null handler or no job id only a
   * warning is logged; otherwise the progression is published (a failed
   * publication panics on `unwrap`).
   */
  function Progress(handler: Option<Handler>, percent: nat, publishOk: bool): (r: ProgressOutcome)
    requires percent < 256
    ensures r.Published? <==> handler.Some? && handler.value.jobId.Some? && publishOk
    ensures r.Published? ==> r.jobId == handler.value.jobId.value && r.percent == percent
    ensures handler.None? ==> r == Warned("Null handler. Progression: " + NatToString(percent) + "%")
    ensures handler.Some? && handler.value.jobId.None? ==> r == Warned("Null job id. Progression: " + NatToString(percent) + "%")
    ensures handler.Some? && handler.value.jobId.Some? && !publishOk ==> r == PublishPanicked
  {
    match handler
    case None => Warned("Null handler. Progression: " + NatToString(percent) + "%")
    case Some(h) =>
      match h.jobId
      case None => Warned("Null job id. Progression: " + NatToString(percent) + "%")
      case Some(id) => if publishOk then Published(id, percent) else PublishPanicked
  }
}
