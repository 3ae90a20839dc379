/**
 * `src/network/live_configuration/live_configuration.rs`: the reader side
 * of the live configuration. It shares the two cells with the update
 * thread (here: it holds the worker object whose fields they are) and,
 * on every request, decides from the current mode and its offline mode
 * which configuration to serve or which error to return.
 *
 * Starting the thread (`ThreadHandle`) and `get_thread_status` are left
 * out; the thread's run is `LiveWorker.UpdateThreadWorker.Run` on the same
 * worker.
 */
module LiveConfiguration {
  import opened Wrappers
  import opened ConfigModel
  import opened LiveTypes
  import LiveWorker
  import ClientConfiguration
  import FeatureSnapshot
  import PropertySnapshot
  import Errors

  type Configuration = ClientConfiguration.Configuration

  /** The crate's error as the provider methods return it: a reader error is wrapped as `LiveConfigurationError`. */
  datatype ProviderError = LiveConfigurationError(liveError: LiveError) | ClientError(clientError: Errors.Error)

  /**
   * `get_configuration`'s decision table over the current mode, the
   * offline mode and the stored configuration. `Online` without a stored
   * configuration is unreachable (`unreachable!()`), which the worker's
   * invariant guarantees.
   */
  function GetConfiguration(mode: CurrentMode, offlineMode: OfflineMode, configuration: Option<Configuration>): (r: Result<Configuration, LiveError>)
    requires OnlineHasConfiguration(mode, configuration)
    ensures mode.Online? ==> r == Ok(configuration.value)
    ensures r.Ok? ==> (configuration.Some? && r.value == configuration.value) ||
                      (offlineMode.FallbackData? && r.value == offlineMode.fallback)
    ensures r.Err? <==> !mode.Online? && (offlineMode.Fail? || (offlineMode.Cache? && configuration.None?))
    ensures !mode.Online? && offlineMode.FallbackData? ==> r == Ok(offlineMode.fallback)
    ensures !mode.Online? && offlineMode.Cache? && configuration.Some? ==> r == Ok(configuration.value)
    ensures mode.Offline? && offlineMode.Fail? ==> r == Err(LiveError.Offline(mode.reason))
    ensures mode.Offline? && offlineMode.Cache? && configuration.None? ==> r == Err(ConfigurationNotYetAvailable)
    ensures mode.Defunct? && offlineMode.Fail? ==>
      r == Err(ThreadInternalError("Thread finished with status: " + ResultDebug(mode.result)))
    ensures mode.Defunct? && offlineMode.Cache? && configuration.None? ==>
      r == Err(UnrecoverableError("Initial configuration failed to retrieve: " + ResultDebug(mode.result)))
  {
    match mode
    case Online => Ok(configuration.value)
    case Offline(reason) =>
      (match offlineMode
       case Fail => Err(LiveError.Offline(reason))
       case Cache => if configuration.None? then Err(ConfigurationNotYetAvailable) else Ok(configuration.value)
       case FallbackData(fallback) => Ok(fallback))
    case Defunct(result) =>
      match offlineMode
      case Fail => Err(ThreadInternalError("Thread finished with status: " + ResultDebug(result)))
      case Cache =>
        if configuration.None? then Err(UnrecoverableError("Initial configuration failed to retrieve: " + ResultDebug(result)))
        else Ok(configuration.value)
      case FallbackData(fallback) => Ok(fallback)
  }

  /** `get_feature` of the provider: the feature of whatever configuration the reader serves. */
  function GetFeature(mode: CurrentMode, offlineMode: OfflineMode, configuration: Option<Configuration>, featureId: string)
    : (r: Result<FeatureSnapshot.FeatureSnapshot, ProviderError>)
    requires OnlineHasConfiguration(mode, configuration)
    ensures var c := GetConfiguration(mode, offlineMode, configuration);
      (c.Err? ==> r == Err(LiveConfigurationError(c.error))) &&
      (c.Ok? && ClientConfiguration.GetFeature(c.value, featureId).Ok? ==> r == Ok(ClientConfiguration.GetFeature(c.value, featureId).value)) &&
      (c.Ok? && ClientConfiguration.GetFeature(c.value, featureId).Err? ==> r == Err(ClientError(ClientConfiguration.GetFeature(c.value, featureId).error)))
  {
    match GetConfiguration(mode, offlineMode, configuration)
    case Err(e) => Err(LiveConfigurationError(e))
    case Ok(c) =>
      match ClientConfiguration.GetFeature(c, featureId)
      case Err(e) => Err(ClientError(e))
      case Ok(f) => Ok(f)
  }

  /** `get_property` of the provider. */
  function GetProperty(mode: CurrentMode, offlineMode: OfflineMode, configuration: Option<Configuration>, propertyId: string)
    : (r: Result<PropertySnapshot.PropertySnapshot, ProviderError>)
    requires OnlineHasConfiguration(mode, configuration)
    ensures var c := GetConfiguration(mode, offlineMode, configuration);
      (c.Err? ==> r == Err(LiveConfigurationError(c.error))) &&
      (c.Ok? && ClientConfiguration.GetProperty(c.value, propertyId).Ok? ==> r == Ok(ClientConfiguration.GetProperty(c.value, propertyId).value)) &&
      (c.Ok? && ClientConfiguration.GetProperty(c.value, propertyId).Err? ==> r == Err(ClientError(ClientConfiguration.GetProperty(c.value, propertyId).error)))
  {
    match GetConfiguration(mode, offlineMode, configuration)
    case Err(e) => Err(LiveConfigurationError(e))
    case Ok(c) =>
      match ClientConfiguration.GetProperty(c, propertyId)
      case Err(e) => Err(ClientError(e))
      case Ok(p) => Ok(p)
  }

  /** `LiveConfigurationImpl`: the offline mode and the cells it shares with the update thread. */
  class LiveConfigurationImpl {
    const worker: LiveWorker.UpdateThreadWorker
    const offlineMode: OfflineMode

    /** `new`: no configuration yet, initializing; the worker gets the same cells. */
    constructor(offlineMode: OfflineMode, server: ServerClient, configurationId: ConfigurationId)
      ensures this.offlineMode == offlineMode
      ensures fresh(worker) && worker.server == server && worker.configurationId == configurationId
      ensures worker.configuration == None && worker.currentMode == CurrentMode.Offline(Initializing)
      ensures worker.Valid()
    {
      this.offlineMode := offlineMode;
      worker := new LiveWorker.UpdateThreadWorker(server, configurationId, None, CurrentMode.Offline(Initializing));
    }

    /** `get_configuration` on the shared cells. */
    function Served(): Result<Configuration, LiveError>
      reads worker
      requires worker.Valid()
    {
      GetConfiguration(worker.currentMode, offlineMode, worker.configuration)
    }

    /** `get_current_mode`: the mode the update thread last published. */
    function GetCurrentMode(): (m: CurrentMode)
      reads worker
      ensures m == worker.currentMode
      ensures worker.Valid() && m.Online? ==> Served() == Ok(worker.configuration.value)
      ensures worker.Valid() && m.Offline? && offlineMode.Fail? ==> Served() == Err(LiveError.Offline(m.reason))
    {
      worker.currentMode
    }

    /** `get_feature_ids` of the provider: the ids of the served configuration, once each. */
    method GetFeatureIds() returns (r: Result<seq<string>, ProviderError>)
      requires worker.Valid()
      ensures Served().Err? ==> r == Err(LiveConfigurationError(Served().error))
      ensures Served().Ok? ==> r.Ok? && (forall id :: id in r.value <==> id in Served().value.features)
      ensures r.Ok? ==> forall i, j | 0 <= i < j < |r.value| :: r.value[i] != r.value[j]
    {
      match GetConfiguration(worker.currentMode, offlineMode, worker.configuration) {
        case Err(e) =>
          r := Err(LiveConfigurationError(e));
        case Ok(c) =>
          var ids := ClientConfiguration.KeysOf(c.features);
          r := Ok(ids);
      }
    }

    /** `get_property_ids` of the provider. */
    method GetPropertyIds() returns (r: Result<seq<string>, ProviderError>)
      requires worker.Valid()
      ensures Served().Err? ==> r == Err(LiveConfigurationError(Served().error))
      ensures Served().Ok? ==> r.Ok? && (forall id :: id in r.value <==> id in Served().value.properties)
      ensures r.Ok? ==> forall i, j | 0 <= i < j < |r.value| :: r.value[i] != r.value[j]
    {
      match GetConfiguration(worker.currentMode, offlineMode, worker.configuration) {
        case Err(e) =>
          r := Err(LiveConfigurationError(e));
        case Ok(c) =>
          var ids := ClientConfiguration.KeysOf(c.properties);
          r := Ok(ids);
      }
    }
  }

  /**
   * Whatever the update thread does, the reader never meets the
   * unreachable case: from a fresh reader, after any run of the thread,
   * the shared cells still satisfy the worker's invariant, and a
   * configuration served while online is one the server sent.
   */
  method ServeAfterRun(offlineMode: OfflineMode, server: ServerClient, configurationId: ConfigurationId, stops: seq<bool>)
    returns (live: LiveConfigurationImpl, r: Result<Configuration, LiveError>)
    modifies server
    ensures live.worker.Valid()
    ensures live.GetCurrentMode().Defunct?
    ensures r == live.Served()
    ensures r.Ok? ==>
      (offlineMode.FallbackData? && r.value == offlineMode.fallback) ||
      LiveWorker.FromServer(configurationId.environmentId, r.value, old(server.answers))
  {
    live := new LiveConfigurationImpl(offlineMode, server, configurationId);
    var result := live.worker.Run(stops);
    r := GetConfiguration(live.worker.currentMode, live.offlineMode, live.worker.configuration);
  }

  // ---------------------------------------------------------------------------
  // The file's tests
  // ---------------------------------------------------------------------------

  /** An empty configuration, as `Configuration::default()`. */
  function DefaultConfiguration(): Configuration {
    ClientConfiguration.Configuration(map[], map[])
  }

  /** Online, the stored configuration is served whatever the offline mode. */
  lemma OnlineServesStored(stored: Configuration, offlineMode: OfflineMode)
    ensures GetConfiguration(Online, offlineMode, Some(stored)) == Ok(stored)
  {
  }

  /** The offline test: the reason, "not yet available", the cache, the fallback. */
  lemma WhenOffline(fallback: Configuration)
    ensures GetConfiguration(CurrentMode.Offline(ConfigurationDataInvalid), Fail, Some(DefaultConfiguration())) ==
      Err(LiveError.Offline(ConfigurationDataInvalid))
    ensures GetConfiguration(CurrentMode.Offline(ConfigurationDataInvalid), Cache, None) == Err(ConfigurationNotYetAvailable)
    ensures GetConfiguration(CurrentMode.Offline(ConfigurationDataInvalid), Cache, Some(DefaultConfiguration())) == Ok(DefaultConfiguration())
    ensures GetConfiguration(CurrentMode.Offline(ConfigurationDataInvalid), FallbackData(fallback), Some(DefaultConfiguration())) == Ok(fallback)
  {
  }

  /** The defunct test, with the messages the thread's `Ok(())` result produces. */
  lemma WhenDefunct(fallback: Configuration)
    ensures GetConfiguration(Defunct(Ok(())), Fail, Some(DefaultConfiguration())) ==
      Err(ThreadInternalError("Thread finished with status: Ok(())"))
    ensures GetConfiguration(Defunct(Ok(())), Cache, None) ==
      Err(UnrecoverableError("Initial configuration failed to retrieve: Ok(())"))
    ensures GetConfiguration(Defunct(Ok(())), Cache, Some(DefaultConfiguration())) == Ok(DefaultConfiguration())
    ensures GetConfiguration(Defunct(Ok(())), FallbackData(fallback), None) == Ok(fallback)
  {
    assert ResultDebug(Ok(())) == "Ok(())";
    assert "Thread finished with status: " + "Ok(())" == "Thread finished with status: Ok(())";
    assert "Initial configuration failed to retrieve: " + "Ok(())" == "Initial configuration failed to retrieve: Ok(())";
  }
}
