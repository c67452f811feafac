/**
 * The worker's description of itself (rs_mcai_worker_sdk/src/worker/configuration.rs):
 * the media parameter check on the parameter schema, the getters, and the
 * name of the queue for messages sent to this one instance.
 */
module WorkerConfigurations {
  import opened Wrappers
  import opened Strings
  import opened Jobs

  /** Parameter names a media worker must declare (rs_mcai_worker_sdk/src/message/media/mod.rs). */
  const SourcePathParameter: string := "source_path"
  const DestinationPathParameter: string := "destination_path"

  const DirectMessagingPrefix: string := "direct_messaging_"
  const DefaultSdkVersion: string := "0.0.0"

  /**
   * The schema is represented by the names of its properties; versions are
   * held in their rendered text form.
   */
  datatype WorkerConfiguration = WorkerConfiguration(
    instanceId: string,
    queueName: string,
    workerName: string,
    shortDescription: string,
    description: string,
    version: string,
    sdkVersion: string,
    parameters: set<string>)

  /** What the worker's message event says about itself. */
  datatype WorkerDescription = WorkerDescription(name: string, version: string, shortDescription: string, description: string)

  function MissingParameter(name: string): (e: MessageError)
    ensures e.ParameterValueError?
  {
    ParameterValueError("Expected media parameter missing: '" + name + "'")
  }

  /**
   * `get_parameter_schema`: with the media feature both path parameters are
   * required, the source path checked first; without it any schema is taken.
   */
  function GetParameterSchema(media: bool, properties: set<string>): (r: Result<set<string>, MessageError>)
    ensures r.Ok? <==> !media || (SourcePathParameter in properties && DestinationPathParameter in properties)
    ensures r.Ok? ==> r.value == properties
    ensures media && SourcePathParameter !in properties ==> r == Err(MissingParameter(SourcePathParameter))
    ensures media && SourcePathParameter in properties && DestinationPathParameter !in properties ==>
      r == Err(MissingParameter(DestinationPathParameter))
  {
    if !media then Ok(properties)
    else if SourcePathParameter !in properties then Err(MissingParameter(SourcePathParameter))
    else if DestinationPathParameter !in properties then Err(MissingParameter(DestinationPathParameter))
    else Ok(properties)
  }

  /** `WorkerConfiguration::new`; `sdkVersion` is the package version when it reads as a version. */
  function NewConfiguration(queueName: string, worker: WorkerDescription, instanceId: string, sdkVersion: Option<string>, media: bool, properties: set<string>): (r: Result<WorkerConfiguration, MessageError>)
    ensures r.Ok? <==> GetParameterSchema(media, properties).Ok?
    ensures r.Err? ==> r.error == GetParameterSchema(media, properties).error
    ensures r.Ok? ==>
      && GetInstanceId(r.value) == instanceId
      && GetQueueName(r.value) == queueName
      && GetWorkerName(r.value) == worker.name
      && GetWorkerVersion(r.value) == worker.version
      && GetSdkVersion(r.value) == sdkVersion.GetOr(DefaultSdkVersion)
      && r.value.parameters == properties
  {
    match GetParameterSchema(media, properties)
    case Err(e) => Err(e)
    case Ok(parameters) =>
      Ok(WorkerConfiguration(instanceId, queueName, worker.name, worker.shortDescription, worker.description,
        worker.version, sdkVersion.GetOr(DefaultSdkVersion), parameters))
  }

  function GetInstanceId(c: WorkerConfiguration): string { c.instanceId }
  function GetQueueName(c: WorkerConfiguration): string { c.queueName }
  function GetWorkerName(c: WorkerConfiguration): string { c.workerName }
  function GetWorkerVersion(c: WorkerConfiguration): string { c.version }
  function GetSdkVersion(c: WorkerConfiguration): string { c.sdkVersion }

  /** `get_consumer_mode`: always file. */
  function GetConsumerMode(c: WorkerConfiguration): string {
    "file"
  }

  /** `get_direct_messaging_queue_name`: the prefix, then the instance identifier. */
  function GetDirectMessagingQueueName(c: WorkerConfiguration): (name: string)
    ensures StartsWith(name, DirectMessagingPrefix)
    ensures name[|DirectMessagingPrefix|..] == c.instanceId
  {
    DirectMessagingPrefix + c.instanceId
  }

  /** Two instances share a direct messaging queue only if they share an identifier. */
  lemma DirectQueuesDistinct(a: WorkerConfiguration, b: WorkerConfiguration)
    requires GetDirectMessagingQueueName(a) == GetDirectMessagingQueueName(b)
    ensures a.instanceId == b.instanceId
  {
  }

  /** A media schema missing both paths reports the source path only. */
  lemma SourceReportedFirst(properties: set<string>)
    requires SourcePathParameter !in properties && DestinationPathParameter !in properties
    ensures GetParameterSchema(true, properties) == Err(ParameterValueError("Expected media parameter missing: 'source_path'"))
  {
    assert "Expected media parameter missing: '" + SourcePathParameter + "'" == "Expected media parameter missing: 'source_path'";
  }
}
