# mcai worker SDK — a Dafny model of its core

The media-cloud-AI worker SDK lets a worker written in C, C++ or Rust take
jobs from a message broker, run them, and report back. This project models
the parts of it that decide outcomes:

- **The C binding.** The host side that calls a worker's shared library:
  - `init_process` and the stream descriptors it returns;
  - `process_frame` and its JSON result;
  - `process` with its message and NULL-terminated output-path array;
  - the callbacks the worker calls back into: `get_parameter_value`, `logger`, `progress`;
  - the callbacks that build stream descriptors and filters: `new_stream_descriptor`, `new_filter`, `add_filter_parameter`, `add_descriptor_filter`.

  Two reference C++ workers are modelled with it: `worker.cpp` and `media_worker.cpp`.
- **Filter parameters.**
  - Video: region of interest to crop coordinates, crop and scale parameter maps.
  - Audio: the `aformat` parameter map.
  - The conversion of stream descriptors and filters into generic filters.
- **Jobs.** Job results and their builders, `ProcessReturn::as_result`, typed parameter parsing (`i64`, `bool`, credential stores) and parameter containers.
- **Order handling.**
  - Order messages: parsing and the job-id check.
  - The consumer's per-kind delivery slots (`CurrentOrders`) and the admission decision of `process_delivery`.
  - The simple processor's state machine and the status it reports.
- **Small parsers.**
  - TTML time expressions, both printed and read back.
  - The JSON and EBU-TTML-live packet re-assembly decoders.
  - Worker version text.
  - The docker container id read from a cgroup file.
  - The worker configuration with its media-parameter check.

Pointers become handles into a `Registry` of descriptors and filters, or
`Null`. A C string is `Str(text)` or `NullStr`. Rust panics are an
`Outcome.Panicked` value. Fixed-width integers are unbounded `int`/`nat`:
`as u8`, `as u32` and `%d` truncations are written out where the source applies them. JSON parsing, `Debug` rendering and
float formatting enter as function parameters. The clock is a `now` parameter.

Each source component is one module:
- `Video`, `Audio`, `Filters`;
- `StreamDescriptors`, `FilterGraph`, `CWorker`, `ReferenceWorkers`;
- `ProcessReturns`, `Jobs`, `Parameters`, `Container`;
- `Orders`, `CurrentOrdering`, `Consumer`, `SimpleProcessing`;
- `TimeExpressions`, `JsonBuffering`, `TtmlBuffering`;
- `Versions`, `DockerIds`, `WorkerConfigurations`.

Shared helpers live in `Wrappers` (`Option`, `Result`), `Strings` (decimal
text, split, join, search) and `Json` (values, string literals).

## Model

| member | source | states |
|---|---|---|
| Video.GetCropCoordinates | rs_mcai_worker_sdk/src/message/media/video/region_of_interest.rs:21-123 | succeeds exactly for the seven supported combinations of two given distances per axis; the rectangle then agrees with every distance the region gives; otherwise the error names the region's Debug text |
| Video.AxisCoordinates | rs_mcai_worker_sdk/src/message/media/video/region_of_interest.rs:27-117 | on one axis, the offset and extent computed from two given distances reproduce every given distance: near is the offset, size the extent, and offset plus extent plus far fills the image |
| Video.CropExample | rs_mcai_worker_sdk/src/message/media/video/region_of_interest.rs:126-257 | a supported region that fits the 600x400 image yields exactly the rectangle agreeing with its distances |
| Video.AgreementDeterminesCrop | rs_mcai_worker_sdk/src/message/media/video/region_of_interest.rs:27-117 | two distances per axis fix the rectangle: any two coordinate sets agreeing with the region are equal |
| Video.OversizedUnsupportedRejected | rs_mcai_worker_sdk/src/message/media/video/region_of_interest.rs:118-121 | an unsupported region whose distances exceed the image (top 1, left and right 500 on 600x400) gets the region error rather than an underflow |
| Video.DeterminedButRejected | rs_mcai_worker_sdk/src/message/media/video/region_of_interest.rs:118-121 | (left, right, bottom, height) determines a rectangle yet is rejected |
| Video.CropExamples | rs_mcai_worker_sdk/src/message/media/video/region_of_interest.rs:126-257 | the test vectors on a 600x400 image give the tested coordinates |
| Video.ScalingParameters | rs_mcai_worker_sdk/src/message/media/video/mod.rs:27-38 | the scale filter receives exactly the keys width and height |
| Video.ScalingRoundTrip | rs_mcai_worker_sdk/src/message/media/video/mod.rs:27-38 | reading the width/height texts back (-1 for a missing side) gives the scaling |
| Video.CropParameters | rs_mcai_worker_sdk/src/message/media/video/mod.rs:49-62 | the crop filter receives exactly out_w, out_h, x and y |
| Video.CropRoundTrip | rs_mcai_worker_sdk/src/message/media/video/mod.rs:49-62 | out_w/out_h/x/y read back to width/height/left/top |
| Audio.AudioFormatParameters | rs_mcai_worker_sdk/src/message/media/audio/mod.rs:18-44 | a key is present exactly when its list is non-empty, and holds the list joined by "\|" |
| Audio.ListRoundTrip | rs_mcai_worker_sdk/src/message/media/audio/mod.rs:22-40 | a "\|"-joined list of "\|"-free items splits back to the items |
| Audio.AudioFormatRoundTrip | rs_mcai_worker_sdk/src/message/media/audio/mod.rs:18-44 | the aformat parameters read back to the audio format when names contain no "\|" |
| Audio.EmptyFormatNoParameters | rs_mcai_worker_sdk/src/message/media/audio/mod.rs:18-44 | an empty format yields no parameter at all |
| Filters.AsFilter | rs_mcai_worker_sdk/src/message/media/filters.rs:24-40 | always succeeds, keeps name and label, turns every parameter into a string value, no inputs or outputs |
| Filters.AsFilterRoundTrip | rs_mcai_worker_sdk/src/message/media/filters.rs:24-40 | the generic filter is recoverable from the filter |
| Filters.AudioAsGenericFilter | rs_mcai_worker_sdk/src/message/media/filters.rs:48-59 | a generic filter passes through; a format filter becomes aformat labelled aformat_filter whose parameters read back to the format |
| Filters.VideoAsGenericFilter | rs_mcai_worker_sdk/src/message/media/filters.rs:70-100 | fails exactly for a crop of an unsupported region, with the region error; crop, scale and format filters carry their parameter maps |
| StreamDescriptors.TryFromCode | c_mcai_worker_sdk/src/media/stream_descriptors.rs:11-29 | a byte converts exactly when it is below 3, to the type with that code; otherwise the "Could not find" error |
| StreamDescriptors.CodeRoundTrip | c_mcai_worker_sdk/src/media/stream_descriptors.rs:11-29 | every stream type converts back from its code |
| StreamDescriptors.TryFromExamples | c_mcai_worker_sdk/src/media/stream_descriptors.rs:64-73 | the binding's test values 0..3 |
| StreamDescriptors.ToStreamDescriptor | c_mcai_worker_sdk/src/media/stream_descriptors.rs:38-62 | the index is kept; audio, video and data give audio, image and data configurations, filters wrapped in order |
| StreamDescriptors.ConversionRecoverable | c_mcai_worker_sdk/src/media/stream_descriptors.rs:38-62 | the stream type and generic filters are recoverable from the converted descriptor |
| StreamDescriptors.ConversionExamples | c_mcai_worker_sdk/src/media/stream_descriptors.rs:75-114 | the binding's conversion tests |
| FilterGraph.GetCString | c_mcai_worker_sdk/src/utils.rs:16-24 | a NULL C string reads as the empty string, any other as its text |
| FilterGraph.EmptyValid | c_mcai_worker_sdk/src/media/filters.rs:15-81 | the empty registry satisfies the handle invariant |
| FilterGraph.NewStreamDescriptor | c_mcai_worker_sdk/src/media/filters.rs:15-32 | returns NULL exactly when the type byte is not a stream type, leaving the registry unchanged; otherwise a fresh handle to a descriptor with that index, type and no filters |
| FilterGraph.NewFilter | c_mcai_worker_sdk/src/media/filters.rs:48-66 | a fresh handle to a filter with the given name and label and no parameters; other entries unchanged |
| FilterGraph.AddFilterParameter | c_mcai_worker_sdk/src/media/filters.rs:69-81 | the key maps to the value; other keys, the filter's name and label and all other entries are unchanged |
| FilterGraph.AddDescriptorFilter | c_mcai_worker_sdk/src/media/filters.rs:35-46 | the filter is appended to the descriptor's list and its handle is consumed; everything else is unchanged |
| FilterGraph.ParameterOverwrite | c_mcai_worker_sdk/src/media/filters.rs:69-81 | setting a key twice equals setting it once to the second value |
| FilterGraph.ParametersCommute | c_mcai_worker_sdk/src/media/filters.rs:69-81 | parameters under distinct keys may be added in either order |
| FilterGraph.BuildExample | c_mcai_worker_sdk/src/media/filters.rs:173-237 | the binding's test with parameters: the audio descriptor holds the two filters in order, the first with both parameters and the second with one |
| CWorker.CollectDescriptors | c_mcai_worker_sdk/src/worker.rs:206-223 | reads the reported number of slots in order, stopping at the first NULL or undefined one; all live slots give all descriptors |
| CWorker.CallWorkerInitProcess | c_mcai_worker_sdk/src/worker.rs:145-226 | fails exactly on a non-zero return code with the code in the message; otherwise the reported slots are read |
| CWorker.NewJson | rs_mcai_worker_sdk/src/process_result.rs:28-36 | the JSON content is a string literal that parses back to the text; not end of process, no XML |
| CWorker.CallWorkerProcessFrame | c_mcai_worker_sdk/src/worker.rs:229-310 | non audio/video frames are not implemented; otherwise success exactly on return code 0, carrying the worker's message as JSON |
| CWorker.CollectPaths | c_mcai_worker_sdk/src/worker.rs:413-430 | the paths are the entries before the first NULL |
| CWorker.PathsRoundTrip | c_mcai_worker_sdk/src/worker.rs:413-430 | reading a NULL-terminated array gives back the written paths |
| CWorker.CallWorkerProcess | c_mcai_worker_sdk/src/worker.rs:342-440 | a non-zero code gives an error return with the worker's message, or the code message if it is NULL; code 0 gives the message and the collected paths |
| CWorker.ToCString | c_mcai_worker_sdk/src/utils.rs:38-75 | converting to a C string panics exactly on an interior NUL |
| CWorker.GetParameterValue | c_mcai_worker_sdk/src/utils.rs:38-75 | NULL without a handler, without parameters or for a missing key; a string parameter gives its text and panics exactly when it holds a NUL; a number gives its decimal text and panics when it is not an `i64`; booleans give "true"/"false", `Null` the empty text; arrays and objects pass on their `Debug` text, panicking on a NUL in it |
| CWorker.IntegerParameterText | c_mcai_worker_sdk/src/utils.rs:38-75 | an i64 parameter's text reads back to the integer |
| CWorker.LookupAsWritten | c_mcai_worker_sdk/src/utils.rs:38-75 | through the host's pointer: the same answers as GetParameterValue; the handler stays live exactly when it has parameters and the call returns, else it is freed; a freed pointer is a use after free |
| CWorker.ProcessFrameSecondLookup | c_mcai_worker_sdk/src/worker.rs:250-281 | with the parameterless handler `process_frame` hands out, a first lookup frees it and a second reads freed memory |
| CWorker.Lookup | c_mcai_worker_sdk/src/utils.rs:38-75 | the corrected pointer-level lookup: the same answers, and the handler stays live exactly when the call returns |
| CWorker.LookupsRepeat | c_mcai_worker_sdk/src/utils.rs:38-75 | after any run of returning corrected lookups the handler is still live and a further lookup answers as on the original handler |
| CWorker.LevelOf | c_mcai_worker_sdk/src/utils.rs:77-101 | a level name maps to the level with that name, and only names of levels map |
| CWorker.Logger | c_mcai_worker_sdk/src/utils.rs:77-101 | logs exactly when the level is a known name, with the "[Worker] " prefix |
| CWorker.LoggerLevels | c_mcai_worker_sdk/src/utils.rs:77-101 | every level name logs at that level |
| CWorker.Progress | c_mcai_worker_sdk/src/utils.rs:104-127 | publishes exactly with a handler, a job id and a working publisher; a failing publisher panics on `unwrap`; warns with the percentage on a NULL handler or job id |
| ProcessReturns.NewProcessReturn | src/process_return.rs:12-17 | keeps code and message, no output paths |
| ProcessReturns.NewError | src/process_return.rs:19-25 | the error code is 1, never success |
| ProcessReturns.WithOutputPaths | src/worker.rs:234-263 | replaces only the output paths |
| ProcessReturns.AsResult | src/process_return.rs:35-48 | Ok exactly for code 0: a completed job result with the message; otherwise a processing error whose only message appends " (code: N)" |
| ProcessReturns.NewErrorFails | src/process_return.rs:19-48 | an error return always becomes a processing error reporting code 1 |
| Jobs.NewJobResult | rs_mcai_worker_sdk/src/job/job_result.rs:26-35 | a fresh result: the job id, status unknown, no parameters or paths, zero duration, started now |
| Jobs.WithStatus | rs_mcai_worker_sdk/src/job/job_result.rs:37-41 | sets status and duration, nothing else |
| Jobs.MessageParameter | rs_mcai_worker_sdk/src/job/job_result.rs:55-64 | the message parameter is a string parameter named message holding the text |
| Jobs.WithMessage | rs_mcai_worker_sdk/src/job/job_result.rs:55-64 | appends one message parameter; the rest is unchanged |
| Jobs.WithParameters | rs_mcai_worker_sdk/src/job/job_result.rs:66-69 | appends the parameters in order; the rest is unchanged |
| Jobs.WithDestinationPaths | rs_mcai_worker_sdk/src/job/job_result.rs:71-74 | appends the paths in order; the rest is unchanged |
| Jobs.WithJson | rs_mcai_worker_sdk/src/job/job_result.rs:76-90 | a serialization failure is reported; otherwise one string parameter with the JSON text is appended |
| Jobs.FromJob | rs_mcai_worker_sdk/src/job/job_result.rs:121-131 | a result for the job's id, without parameters, status unknown |
| Jobs.MessagesAppend | rs_mcai_worker_sdk/src/job/job_result.rs:55-64 | the messages of a result grow by exactly the new message |
| Jobs.SameIgnoresClock | rs_mcai_worker_sdk/src/job/job_result.rs:139-146 | equality ignores start instant and duration |
| Jobs.FromJobDropsParameters | rs_mcai_worker_sdk/src/job/job_result.rs:121-146 | results built from two jobs with the same id are equal |
| Parameters.ParseI64 | rs_mcai_worker_sdk/src/parameter/mod.rs:61-65 | empty text is the empty-input error; after an optional sign, the text parses exactly when it is all digits and its value is in the i64 range, to that value; a digit prefix already out of range is the sign's overflow error even when a non-digit follows; otherwise a lone sign or a non-digit is the invalid-digit error; the other sign's overflow never occurs |
| Parameters.OverflowBeforeInvalidDigit | rs_mcai_worker_sdk/src/parameter/mod.rs:61-65 | twenty nines followed by a letter is a positive overflow, not an invalid digit |
| Parameters.ParseI64Canonical | rs_mcai_worker_sdk/src/parameter/mod.rs:61-65 | canonical decimal text that parses prints back as the same text |
| Parameters.ParseI64IntToString | rs_mcai_worker_sdk/src/parameter/mod.rs:61-79 | every i64 parses back from its decimal text |
| Parameters.FromValueI64 | rs_mcai_worker_sdk/src/parameter/mod.rs:61-79 | a string converts exactly when it parses as i64, a number exactly when it is an i64, anything else is a type mismatch |
| Parameters.I64TextOrNumber | rs_mcai_worker_sdk/src/parameter/mod.rs:61-79 | an i64 given as text or as a number converts to itself |
| Parameters.FromValueBool | rs_mcai_worker_sdk/src/parameter/mod.rs:112-131 | "true"/"false" strings, booleans, non-zero numbers convert; other strings fail; null, arrays and objects are type mismatches |
| Parameters.BoolTextRoundTrip | rs_mcai_worker_sdk/src/parameter/mod.rs:112-131 | a boolean's text converts back to it |
| Parameters.ResolveContent | rs_mcai_worker_sdk/src/parameter/mod.rs:12-41 | without a store the content is used; with a store a non-string content is a credential type error, a string is looked up in the store, giving the fetched value or the store's error |
| Parameters.ParseValueI64 | rs_mcai_worker_sdk/src/parameter/mod.rs:12-36 | without a store the content's i64 conversion; with a store a non-string content is a credential type error, a store failure is passed on as its error, and a fetched value gets the i64 conversion |
| Parameters.ParseValueBool | rs_mcai_worker_sdk/src/parameter/mod.rs:12-36 | without a store the content's bool conversion; with a store a non-string content is a credential type error, a store failure is passed on as its error, and a fetched value gets the bool conversion |
| Parameters.Current | rs_mcai_worker_sdk/src/parameter/mod.rs:176-178 | the value if set, else the default; present exactly when has_value_or_default |
| Parameters.ParameterToString | rs_mcai_worker_sdk/src/parameter/mod.rs:181-199 | the value's text, else the default's text, else empty |
| Parameters.StringParameterText | rs_mcai_worker_sdk/src/parameter/mod.rs:181-199 | a string value prints without quotes |
| Parameters.IntegerParameterRoundTrip | rs_mcai_worker_sdk/src/parameter/mod.rs:61-199 | an integer parameter's text converts back to the integer |
| Container.Lookup | rs_mcai_worker_sdk/src/parameter/container.rs:7-80 | finds the first parameter with the key and kind; none means no parameter matches |
| Container.GetBooleanParameter | rs_mcai_worker_sdk/src/parameter/container.rs:7-20 | the first boolean parameter with the key: its value, else its default |
| Container.GetCredentialParameter | rs_mcai_worker_sdk/src/parameter/container.rs:22-35 | the first credential parameter with the key: its value, else its default |
| Container.GetIntegerParameter | rs_mcai_worker_sdk/src/parameter/container.rs:37-50 | the first integer parameter with the key: its value, else its default |
| Container.GetStringParameter | rs_mcai_worker_sdk/src/parameter/container.rs:52-65 | the first string parameter with the key: its value, else its default |
| Container.GetArrayOfStringsParameter | rs_mcai_worker_sdk/src/parameter/container.rs:67-80 | the first array-of-strings parameter with the key: its value, else its default |
| Container.OtherKindSkipped | rs_mcai_worker_sdk/src/parameter/container.rs:52-65 | a parameter of another kind under the same key is skipped |
| Container.FirstMatchWins | rs_mcai_worker_sdk/src/parameter/container.rs:52-65 | the first matching parameter decides, even when it has no value |
| Container.DefaultUsed | rs_mcai_worker_sdk/src/parameter/container.rs:37-50 | without a value the default is returned |
| Container.UnescapeEscape | src/parameter/mod.rs:73-105 | the Debug escaping of a string, with its short escapes and `\u{..}` for other control characters, is undone exactly |
| Container.ControlEscaped | src/parameter/mod.rs:73-105 | a control character without a short escape is written as `\u{..}` in lower-case hexadecimal: U+0001 as `\u{1}`, U+007F as `\u{7f}` |
| Container.TypedToString | src/parameter/mod.rs:62-105 | a parameter without value or default prints as empty |
| Container.GetParametersAsMap | rs_mcai_worker_sdk/src/parameter/container.rs:112-120 | the keys are the ids having a value or default; each maps to the text of the last such parameter |
| ReferenceWorkers.GetParameters | c_mcai_worker_sdk/worker.cpp:52-62 | the table is copied to the front of the buffer, the rest is untouched |
| ReferenceWorkers.HostReadsWholeTable | c_mcai_worker_sdk/worker.cpp:38-62 | a buffer sized by get_parameters_size receives the whole table |
| ReferenceWorkers.PercentsAppend | c_mcai_worker_sdk/worker.cpp:85-109 | the progress percentages of two call runs concatenate |
| ReferenceWorkers.GenericProcessAsWritten | c_mcai_worker_sdk/worker.cpp:73-112 | success exactly when the path parameter is set; progress 0, 33, 100 then, only 0 otherwise |
| ReferenceWorkers.PathArrayOverflow | c_mcai_worker_sdk/worker.cpp:104-106 | the path array is allocated smaller than the two pointers it holds |
| ReferenceWorkers.GenericProcess | c_mcai_worker_sdk/worker.cpp:73-112 | the same run, with an array large enough for every pointer it holds |
| ReferenceWorkers.ProgressIncreasing | c_mcai_worker_sdk/worker.cpp:85-109 | progress strictly increases and reaches 100 exactly on success |
| ReferenceWorkers.RunGenericWorker | c_mcai_worker_sdk/worker.cpp:73-112 | through the host: without a path an error return, with one the success return with /path/out.mxf |
| ReferenceWorkers.AformatIsAudioFormat | c_mcai_worker_sdk/media_worker.cpp:104-119 | the worker's aformat filter equals the SDK's audio format filter for 16000 Hz, mono, s32 |
| ReferenceWorkers.DescribeStream | c_mcai_worker_sdk/media_worker.cpp:100-132 | a descriptor is created exactly for the streams the worker describes; existing entries are kept |
| ReferenceWorkers.MediaInitProcessAsWritten | c_mcai_worker_sdk/media_worker.cpp:78-140 | reports the stream count; slot k holds stream k's descriptor or stays unwritten |
| ReferenceWorkers.ExpectedDescriptors | c_mcai_worker_sdk/media_worker.cpp:100-132 | the described streams, in order |
| ReferenceWorkers.AllDescribed | c_mcai_worker_sdk/media_worker.cpp:100-132 | when every stream is described, the expected list is exactly one descriptor per stream |
| ReferenceWorkers.MediaInitProcess | c_mcai_worker_sdk/media_worker.cpp:78-140 | reports exactly the number of written slots, each holding the expected descriptor |
| ReferenceWorkers.HostSlots | c_mcai_worker_sdk/src/worker.rs:183-197 | the host's slot array holds the written slots at the front |
| ReferenceWorkers.Converted | c_mcai_worker_sdk/src/media/stream_descriptors.rs:38-62 | each C descriptor converted in order |
| ReferenceWorkers.HostInitAsWritten | c_mcai_worker_sdk/media_worker.cpp:95-138 | more than 256 streams overflow the host's array; otherwise the host reads an unwritten slot, at the first stream not described, exactly when some stream is not described, and else gets all descriptors |
| ReferenceWorkers.VideoStreamUndefinedRead | c_mcai_worker_sdk/media_worker.cpp:121-125 | one video stream makes the host read slot 0 unwritten |
| ReferenceWorkers.HostInit | c_mcai_worker_sdk/media_worker.cpp:78-140 | with the count corrected the host's array overflows exactly when more than 256 descriptors are written, and otherwise the host gets exactly the converted descriptors |
| ReferenceWorkers.AsSigned32 | c_mcai_worker_sdk/media_worker.cpp:167-172 | a 32-bit pattern read as signed: in range and congruent |
| ReferenceWorkers.MediaProcessFrame | c_mcai_worker_sdk/media_worker.cpp:142-173 | returns 0; a frame is video exactly when width and height are non-zero; the message carries the truncated job id and pts |
| ReferenceWorkers.FrameMessageJobId | c_mcai_worker_sdk/media_worker.cpp:167-172 | job ids below 2^31 print unchanged |
| ReferenceWorkers.FrameMessageWraps | c_mcai_worker_sdk/media_worker.cpp:167-172 | job id 2^31 prints negative |
| ReferenceWorkers.FrameThroughHost | c_mcai_worker_sdk/src/worker.rs:296-309 | the host passes the worker's message on as a JSON string that reads back exactly |
| TimeExpressions.UnitText | rs_mcai_worker_sdk/src/message/media/ttml/time_expression.rs:299-310 | each unit prints as its suffix |
| TimeExpressions.UnitTextInjective | rs_mcai_worker_sdk/src/message/media/ttml/time_expression.rs:299-310 | distinct units have distinct suffixes |
| TimeExpressions.UnitSuffix | rs_mcai_worker_sdk/src/message/media/ttml/time_expression.rs:150-209 | the unit whose suffix ends the text |
| TimeExpressions.UnitSuffixOf | rs_mcai_worker_sdk/src/message/media/ttml/time_expression.rs:150-209 | after a digit, a unit's suffix is read as that unit |
| TimeExpressions.ReadOffset | rs_mcai_worker_sdk/src/message/media/ttml/time_expression.rs:150-209 | an offset reads its number before the suffix |
| TimeExpressions.SplitClock | rs_mcai_worker_sdk/src/message/media/ttml/time_expression.rs:211-237 | splits hh:mm:ss and the rest as the regexes' capture groups do |
| TimeExpressions.ClockOf | rs_mcai_worker_sdk/src/message/media/ttml/time_expression.rs:211-249 | builds a clock time from the captured digits |
| TimeExpressions.ReadClock | rs_mcai_worker_sdk/src/message/media/ttml/time_expression.rs:211-249 | the frames, sub-frames and plain clock patterns, in that order |
| TimeExpressions.DeserializeWith | rs_mcai_worker_sdk/src/message/media/ttml/time_expression.rs:143-259 | offsets first, then clock patterns; anything else is a syntax error |
| TimeExpressions.Deserialize | rs_mcai_worker_sdk/src/message/media/ttml/time_expression.rs:143-259 | reading with the sub-frame separator required to be '.' |
| TimeExpressions.ClockRoundTrip | rs_mcai_worker_sdk/src/message/media/ttml/time_expression.rs:89-259 | a clock time whose fields fit reads back from its printed text |
| TimeExpressions.OffsetRoundTrip | rs_mcai_worker_sdk/src/message/media/ttml/time_expression.rs:89-259 | an offset time reads back from its printed text when its number does |
| TimeExpressions.ClockNormalises | rs_mcai_worker_sdk/src/message/media/ttml/time_expression.rs:89-259 | a clock time read from any text prints to a text that reads back to it |
| TimeExpressions.ClockTestVectorsPrint | rs_mcai_worker_sdk/src/message/media/ttml/time_expression.rs:312-330 | the test's clock times print as written there |
| TimeExpressions.ClockTestVectors | rs_mcai_worker_sdk/src/message/media/ttml/time_expression.rs:312-330 | the test's clock texts read to those clock times |
| TimeExpressions.SplitCounterexample | rs_mcai_worker_sdk/src/message/media/ttml/time_expression.rs:225-237 | "00:04:0912" splits into 00, 04, 09 and rest 12 |
| TimeExpressions.AnySeparatorAccepted | rs_mcai_worker_sdk/src/message/media/ttml/time_expression.rs:225-237 | as written, "00:04:0912" reads as sub-frames 2; with '.' required it is a syntax error |
| Orders.BuildError | rs_mcai_worker_sdk/src/message_exchange/message/order_message.rs:54-60 | a processing error for the job with status error and the one message |
| Orders.MatchesJobId | rs_mcai_worker_sdk/src/message_exchange/message/order_message.rs:22-51 | passes exactly for admissible orders; otherwise a processing error with the rejection message |
| Orders.RejectionCarriesJob | rs_mcai_worker_sdk/src/message_exchange/message/order_message.rs:22-60 | a rejection reports the order's job id |
| Orders.OnlyCurrentJobPasses | rs_mcai_worker_sdk/src/message_exchange/message/order_message.rs:22-51 | while a job is current, only start or stop for that job passes |
| Orders.TryFrom | rs_mcai_worker_sdk/src/message_exchange/message/order_message.rs:62-76 | an order message parses as itself, else a bare job becomes a job order, else the parse error |
| Orders.BareJobOrder | rs_mcai_worker_sdk/src/message_exchange/message/order_message.rs:22-76 | a bare job passes the check exactly when no job is current |
| CurrentOrdering.ResetProcessDeliveries | rs_mcai_worker_sdk/src/message_exchange/rabbitmq/current_orders.rs:13-17 | clears init, start and stop, keeps the rest |
| CurrentOrdering.ResetStatusDeliveries | rs_mcai_worker_sdk/src/message_exchange/rabbitmq/current_orders.rs:19-21 | clears status, keeps the rest |
| CurrentOrdering.Present | rs_mcai_worker_sdk/src/message_exchange/rabbitmq/current_orders.rs:35-51 | the deliveries held in the slots |
| CurrentOrdering.Insert | rs_mcai_worker_sdk/src/message_exchange/rabbitmq/current_orders.rs:35-51 | inserting keeps the list sorted by tag and adds exactly the delivery |
| CurrentOrdering.SortByTag | rs_mcai_worker_sdk/src/message_exchange/rabbitmq/current_orders.rs:35-51 | a sorted permutation |
| CurrentOrdering.InsertStable | rs_mcai_worker_sdk/src/message_exchange/rabbitmq/current_orders.rs:35-51 | equal tags keep their order on insertion |
| CurrentOrdering.SortStable | rs_mcai_worker_sdk/src/message_exchange/rabbitmq/current_orders.rs:35-51 | the sort is stable, like Rust's sort_by_key |
| CurrentOrdering.Dedup | rs_mcai_worker_sdk/src/message_exchange/rabbitmq/current_orders.rs:35-51 | drops adjacent duplicates, keeps the same set of deliveries and the order |
| CurrentOrdering.FilterSortAndDedup | rs_mcai_worker_sdk/src/message_exchange/rabbitmq/current_orders.rs:35-51 | sorted, no adjacent duplicates, holding exactly the deliveries in the slots |
| CurrentOrdering.StrictlyAscending | rs_mcai_worker_sdk/src/message_exchange/rabbitmq/current_orders.rs:35-51 | when tags identify deliveries the result is strictly ascending |
| CurrentOrdering.GetProcessDeliveries | rs_mcai_worker_sdk/src/message_exchange/rabbitmq/current_orders.rs:23-29 | exactly the init, start and stop deliveries, sorted, at most three, empty exactly when all three are empty |
| CurrentOrdering.GetStatusDeliveries | rs_mcai_worker_sdk/src/message_exchange/rabbitmq/current_orders.rs:31-33 | the status delivery, if any |
| CurrentOrdering.CountAtMost | rs_mcai_worker_sdk/src/message_exchange/rabbitmq/current_orders.rs:35-51 | at most one delivery per slot |
| CurrentOrdering.ResetClearsProcessDeliveries | rs_mcai_worker_sdk/src/message_exchange/rabbitmq/current_orders.rs:13-29 | after the reset no process delivery is left and the status delivery is unchanged |
| CurrentOrdering.ResetClearsStatusDeliveries | rs_mcai_worker_sdk/src/message_exchange/rabbitmq/current_orders.rs:19-33 | after the reset no status delivery is left and the process deliveries are unchanged |
| CurrentOrdering.SharedDeliveryOnce | rs_mcai_worker_sdk/src/message_exchange/rabbitmq/current_orders.rs:35-51 | one delivery held in two slots is acknowledged once |
| Consumer.SetAll | rs_mcai_worker_sdk/src/message_exchange/rabbitmq/consumer.rs:277-298 | every consumption trigger takes the value |
| Consumer.Admit | rs_mcai_worker_sdk/src/message_exchange/rabbitmq/consumer.rs:222-298 | consuming orders are acknowledged and set the triggers; others are rejected exactly when blocked, with nothing changed; otherwise the order's slot is filled |
| Consumer.Receive | rs_mcai_worker_sdk/src/message_exchange/rabbitmq/consumer.rs:173-321 | a body that is neither an order nor a job is answered with an error response and changes nothing; a readable order is rejected exactly when it is not a consuming order and its slots are blocked; forwarded and stored orders are held in their own slot, and only consuming orders are acknowledged at once |
| Consumer.HeldSlotsKept | rs_mcai_worker_sdk/src/message_exchange/rabbitmq/consumer.rs:222-298 | admission never empties or replaces a held slot |
| Consumer.OnlyOwnSlotFilled | rs_mcai_worker_sdk/src/message_exchange/rabbitmq/consumer.rs:222-276 | admission changes at most the order's own slot |
| Consumer.ForwardedOrders | rs_mcai_worker_sdk/src/message_exchange/rabbitmq/consumer.rs:222-298 | the processor is sent the order itself, never a stop or consuming order |
| Consumer.ForwardedIsHandled | rs_mcai_worker_sdk/src/message_exchange/rabbitmq/consumer.rs:222-298 | every forwarded order has an arm in the processor's handle |
| Consumer.JobSlotSticky | rs_mcai_worker_sdk/src/message_exchange/rabbitmq/consumer.rs:222-250 | once a job is held, no event sequence clears it and every later job or init is rejected |
| Consumer.SecondJobRejected | rs_mcai_worker_sdk/src/message_exchange/rabbitmq/consumer.rs:222-239 | a first job is forwarded, a second one rejected |
| SimpleProcessing.GetWorkerActivity | rs_mcai_worker_sdk/src/processor/simple_process.rs:118-123 | busy exactly when initialized or running |
| SimpleProcessing.GetLastJobResult | rs_mcai_worker_sdk/src/processor/simple_process.rs:106-110 | present exactly with a last job id, with that id and the current status |
| SimpleProcessing.Handle | rs_mcai_worker_sdk/src/processor/simple_process.rs:37-102 | init initializes, job/start send progress 0 then panic when the job's parameters do not decode and otherwise send the outcome, stop completes and records the job, status reports; left running exactly after a panic or when already running and asked for status |
| SimpleProcessing.Execute | rs_mcai_worker_sdk/src/processor/simple_process.rs:43-80 | a progression of 0; then a panic with the status running when the parameters do not decode, else completed with the result or error with the error |
| SimpleProcessing.HandleAll | rs_mcai_worker_sdk/src/processor/simple_process.rs:37-102 | from a processor not running, the processor is left running exactly when some order panicked |
| SimpleProcessing.HandleAllSnoc | rs_mcai_worker_sdk/src/processor/simple_process.rs:37-102 | after orders without a panic, handling one more order is one more step |
| SimpleProcessing.HandleAllAfterPanic | rs_mcai_worker_sdk/src/processor/simple_process.rs:61 | after a panic no later order changes the processor |
| SimpleProcessing.StepActivity | rs_mcai_worker_sdk/src/processor/simple_process.rs:37-123 | from a processor not running, one order leaves it busy exactly after an init or a panic; a status order keeps the activity |
| SimpleProcessing.BusyAfterInitOnly | rs_mcai_worker_sdk/src/processor/simple_process.rs:37-123 | from a new processor, busy exactly when an order panicked or the last status-changing order was init |
| SimpleProcessing.StopThenStatus | rs_mcai_worker_sdk/src/processor/simple_process.rs:81-110 | after stop, status reports idle with a completed result for the stopped job |
| JsonBuffering.CutAsWritten | rs_mcai_worker_sdk/src/message/media/json/decoder.rs:40-48 | a kept part exists exactly when the packet contains "}{" |
| JsonBuffering.CutFirst | rs_mcai_worker_sdk/src/message/media/json/decoder.rs:40-48 | splits at the first "}{": principal part and kept part rejoin to the packet |
| JsonBuffering.DecodeWith | rs_mcai_worker_sdk/src/message/media/json/decoder.rs:36-89 | unparsable text is queued again; an object is returned; any other value is an error |
| JsonBuffering.DecodeContentAsWritten | rs_mcai_worker_sdk/src/message/media/json/decoder.rs:36-89 | without "}{" it agrees with the corrected decoder |
| JsonBuffering.DecodeContent | rs_mcai_worker_sdk/src/message/media/json/decoder.rs:36-89 | a complete object alone is returned, a fragment alone is queued, a queued front completes the next packet |
| JsonBuffering.NothingLost | rs_mcai_worker_sdk/src/message/media/json/decoder.rs:36-89 | the text taken out plus the text queued hold exactly the queued text plus the packet |
| JsonBuffering.CompleteObject | rs_mcai_worker_sdk/src/message/media/json/decoder.rs:36-89 | a complete object in an empty decoder is returned |
| JsonBuffering.TwoFragments | rs_mcai_worker_sdk/src/message/media/json/decoder.rs:36-89 | two fragments of one object give the object on the second packet |
| JsonBuffering.CutsAgree | rs_mcai_worker_sdk/src/message/media/json/decoder.rs:40-48 | with exactly one "}{" both cuts agree |
| JsonBuffering.ThirdObjectDropped | rs_mcai_worker_sdk/src/message/media/json/decoder.rs:40-48 | as written "{}{}{}" keeps "{", not "{}{}" |
| JsonBuffering.AsWrittenLosesText | rs_mcai_worker_sdk/src/message/media/json/decoder.rs:36-89 | as written, decoding "{}{}{}" loses characters |
| TtmlBuffering.DecodeContent | rs_mcai_worker_sdk/src/message/media/ebu_ttml_live/decoder.rs:35-65 | a whole document is parsed, an opening piece queued, a closing piece alone is an error, a middle piece ignored; the queue holds only opening pieces |
| TtmlBuffering.ClosingCompletesFront | rs_mcai_worker_sdk/src/message/media/ebu_ttml_live/decoder.rs:48-57 | a closing piece completes the queue's front and the result is that joined text's parse |
| TtmlBuffering.TwoPieces | rs_mcai_worker_sdk/src/message/media/ebu_ttml_live/decoder.rs:35-65 | an opening then a closing piece give the parse of their concatenation |
| Versions.ToString | src/worker/mod.rs:68-86 | starts with major.minor.patch; no suffix without pre-release or build parts |
| Versions.ReadToString | src/worker/mod.rs:68-86 | a version whose parts hold no separators reads back from its text |
| Versions.ToStringInjective | src/worker/mod.rs:68-86 | such versions have distinct texts |
| Versions.ToStringExamples | src/worker/mod.rs:88-102 | the test vectors without a build part |
| Versions.ToStringBuildExamples | src/worker/mod.rs:88-102 | the test vectors with a build part |
| DockerIds.Truncate | src/worker/docker.rs:36-39 | a prefix of at most n characters, the whole text when it fits |
| DockerIds.ParseDockerContainerId | src/worker/docker.rs:26-43 | an id of at most 12 characters, present exactly when the first line has three ":"-fields and the third splits into two pieces at "/docker/" |
| DockerIds.ReadsCgroupLine | src/worker/docker.rs:26-43 | a cgroup line hierarchy:controllers:path/docker/ID gives the truncated id |
| DockerIds.EmptyLineRejected | src/worker/docker.rs:45-59 | an empty file or empty first line gives no id |
| DockerIds.NoMarkerRejected | src/worker/docker.rs:26-43 | a line without the marker gives no id |
| WorkerConfigurations.MissingParameter | rs_mcai_worker_sdk/src/worker/configuration.rs:47-73 | a parameter value error naming the missing parameter |
| WorkerConfigurations.GetParameterSchema | rs_mcai_worker_sdk/src/worker/configuration.rs:47-78 | a media worker's schema passes exactly with source_path and destination_path; source_path is reported first |
| WorkerConfigurations.NewConfiguration | rs_mcai_worker_sdk/src/worker/configuration.rs:24-45 | succeeds exactly when the schema does, keeping the given names and versions |
| WorkerConfigurations.GetDirectMessagingQueueName | rs_mcai_worker_sdk/src/worker/configuration.rs:104-106 | "direct_messaging_" followed by the instance id |
| WorkerConfigurations.DirectQueuesDistinct | rs_mcai_worker_sdk/src/worker/configuration.rs:104-106 | equal direct queue names mean equal instance ids |
| WorkerConfigurations.SourceReportedFirst | rs_mcai_worker_sdk/src/worker/configuration.rs:47-73 | with both media parameters missing, source_path is the one reported |

## Left out

- Threads, channels and the AMQP connection are left out because they are I/O. The model keeps what the consumer decides per delivery, not how it is acknowledged on the wire. Publishing itself (the consumer's responses and the progression messages on the channel) is left out; only whether it succeeds is an input.
- Loading the worker library (`get_library_function`, `call_optional_worker_init`, `call_worker_ending_process`) is left out: it is dynamic linking. The worker's return values are parameters of the model.
- FFmpeg decoding is left out. The media worker's streams and frames are given as `MediaType` and `AvFrame` values.
- The Python and Julia bindings are left out: they re-expose the same SDK.
- Credential stores are left out: `from_store` is an oracle parameter.
- `JobResult::with_error` is left out: it renders an arbitrary error type.
- `f64` parameters, `TimeExpression::to_frames`, `to_timecode` and the time-expression ordering are left out because they are floating point.
- Containers' media-segment and JSON getters are left out: those variants are not in the typed parameter enum this model follows.
- Jobs.WithJson: the serializer is a parameter, so only the error text and the appended parameter are stated.
- CWorker.GetParameterValue: arrays and objects are rendered by a `Debug` oracle (utils.rs:58-59). The contract states only that this text is passed on, or panics on an interior NUL; it does not state what the text is.
- CWorker.Progress: the null-job-id `return` (utils.rs:111-113) drops the `Box<Handler>` and so frees the handler, as `get_parameter_value`'s guard does (CWorker.LookupAsWritten). The model passes the handler as a value and does not model that free; no handler the SDK builds for a call that receives `progress` lacks a job id.
- DockerIds.Truncate counts characters. Rust's `truncate(12)` counts bytes and panics off a character boundary; the difference only shows with non-ASCII ids.
- TimeExpressions.Deserialize: `\d` is read as an ASCII digit. The offset number is parsed by an oracle. Leading zeros of sub-frames are not kept.
- TimeExpressions.DeserializeWith: the XML-reader path (peeking the `TimeExpression` start element and its `Characters` event, and the errors `?` raises there, time_expression.rs:144-148) is not modelled; the model starts from the text.
- Versions.ToString: versions are held as their parts. Parsing with the semver crate is not modelled. The round trip is shown only for versions with no `,` in any identifier and no `+` in a pre-release identifier (Versions.Separable); `-` and `.` are allowed.
- ReferenceWorkers.MediaProcessFrame: the job id is truncated to 32 bits as the `%d` with a `u32` argument does. The 64-bit id is not kept.
- CWorker.NewJson: the worker's JSON text is embedded as a JSON string literal (double-encoded), as the source does. The literal is only stated to parse back to the text.
- Consumer.Admit: the current-orders structure shown has no job slot, but the consumer reads and writes one, so the model adds it. Nothing in the source clears it; see Consumer.JobSlotSticky.
- Container.TypedToString: the model writes only the control characters (U+0000 to U+001F and U+007F to U+009F) as `\u{..}`. Rust's `Debug` also escapes other non-printable characters and grapheme extenders; the model copies those as themselves, because telling them apart needs Unicode tables.
- Consumer.Receive: the delivery body is taken as text. A body that is not UTF-8, which the consumer answers with a "unable to retrieve raw message" error, is not modelled.
- SimpleProcessing.Handle: a panic is modelled as the processor's last step. What the rest of the worker does once the processor thread has stopped is not modelled.
- ReferenceWorkers.HostInit: the model stops at the overflow of the host's 256-entry array; the undefined behaviour of the copy past its end is not modelled.
- SimpleProcessing.Handle: the `_ => Unknown` arm cannot be reached by a forwarded order, and the last job id is only set on stop. Both are modelled as written.
- JsonBuffering.DecodeWith: the "Incorrect JSON content" branch for a missing queue front cannot be reached. An unparsed front is queued again behind the rest, so only the multiset of characters is conserved, not their order.
- DockerIds.ParseDockerContainerId: the `lines.is_empty()` check cannot fail, because splitting always gives a first line.
- FilterGraph.AddFilterParameter: parameters live in a `HashMap`, so a second value for a key overwrites the first (FilterGraph.ParameterOverwrite); insertion order is not kept.
- StreamDescriptors.TryFromCode: the C enum has only video, audio and data stream types; media_worker.cpp describes subtitle streams as data, so there is no subtitle type.

## Findings

| source | as written | input that shows it | evidently intended | confidence | as-written member | corrected member |
|---|---|---|---|---|---|---|
| rs_mcai_worker_sdk/src/message/media/json/decoder.rs:40-48 | splits the packet at every "}{" but keeps only the first two pieces | "{}{}{}" queues "{" and drops "{}" | split at the first "}{" only, keeping the whole remainder | not executed | JsonBuffering.DecodeContentAsWritten | JsonBuffering.DecodeContent |
| c_mcai_worker_sdk/media_worker.cpp:95-138 | reports `nb_streams` descriptors although streams that are not described leave their slot unwritten | one video stream: slot 0 is read unwritten | report the number of descriptors written | not executed | ReferenceWorkers.HostInitAsWritten | ReferenceWorkers.HostInit |
| rs_mcai_worker_sdk/src/message/media/ttml/time_expression.rs:225 | the sub-frame regex's `.` is unescaped and matches any character | "00:04:0912" reads as 00:04:09 with sub-frames 2 | require a literal '.' | not executed | TimeExpressions.AnySeparatorAccepted | TimeExpressions.Deserialize |
| c_mcai_worker_sdk/src/utils.rs:47-73 | takes the handler with `Box::from_raw` and gives it back with `Box::into_raw` only after a lookup; without parameters the `Box` is dropped, freeing the handler the host still holds | `process_frame` (worker.rs:250-281) hands out a handler without parameters; a worker asking for two parameters reads freed memory on the second | give the handler back on every returning path | not executed | CWorker.LookupAsWritten | CWorker.Lookup |
| c_mcai_worker_sdk/worker.cpp:104 | allocates `sizeof(int) * 2` bytes for two pointers | any set path: 8 bytes for 16 on a 64-bit target | `sizeof(const char*) * 2` | not executed | ReferenceWorkers.PathArrayOverflow | ReferenceWorkers.GenericProcess |
