/**
 * `src/network/configuration_sync/live_configuration.rs`: the older reader
 * side of the live configuration. Its current mode has no `Defunct`
 * variant, so its `get_configuration` decides over `Online` and `Offline`
 * only; otherwise it shares the cells with the update thread exactly as
 * the newer reader does (here: it holds the worker object whose fields
 * they are).
 *
 * Starting the thread (`ThreadHandle`) and `get_thread_status` are left
 * out; the thread's run is `SyncWorker.Run` on the same worker.
 */
module SyncLiveConfiguration {
  import opened Wrappers
  import opened ConfigModel
  import opened LiveTypes
  import LiveWorker
  import Newer = LiveConfiguration
  import ClientConfiguration

  type Configuration = ClientConfiguration.Configuration

  /**
   * `get_configuration`'s decision table. `Online` without a stored
   * configuration is unreachable, which the worker's invariant guarantees.
   */
  function GetConfiguration(mode: CurrentMode, offlineMode: OfflineMode, configuration: Option<Configuration>): (r: Result<Configuration, LiveError>)
    requires !mode.Defunct?
    requires OnlineHasConfiguration(mode, configuration)
    ensures mode.Online? ==> r == Ok(configuration.value)
    ensures r.Err? <==> mode.Offline? && (offlineMode.Fail? || (offlineMode.Cache? && configuration.None?))
    ensures mode.Offline? && offlineMode.Fail? ==> r == Err(LiveError.Offline(mode.reason))
    ensures mode.Offline? && offlineMode.Cache? ==>
      r == if configuration.None? then Err(ConfigurationNotYetAvailable) else Ok(configuration.value)
    ensures mode.Offline? && offlineMode.FallbackData? ==> r == Ok(offlineMode.fallback)
  {
    match mode
    case Online => Ok(configuration.value)
    case Offline(reason) =>
      match offlineMode
      case Fail => Err(LiveError.Offline(reason))
      case Cache => if configuration.None? then Err(ConfigurationNotYetAvailable) else Ok(configuration.value)
      case FallbackData(fallback) => Ok(fallback)
  }

  /**
   * The two readers agree wherever the older one is defined: the newer
   * reader only added the `Defunct` rows.
   */
  lemma AgreesWithNewerReader(mode: CurrentMode, offlineMode: OfflineMode, configuration: Option<Configuration>)
    requires !mode.Defunct? && OnlineHasConfiguration(mode, configuration)
    ensures GetConfiguration(mode, offlineMode, configuration) == Newer.GetConfiguration(mode, offlineMode, configuration)
  {
  }

  /** `LiveConfiguration`: the offline mode and the cells it shares with the update thread. */
  class LiveConfiguration {
    const worker: LiveWorker.UpdateThreadWorker
    const offlineMode: OfflineMode

    /** `new`: no configuration yet, initializing; the worker gets the same cells. */
    constructor(offlineMode: OfflineMode, server: ServerClient, configurationId: ConfigurationId)
      ensures this.offlineMode == offlineMode
      ensures fresh(worker) && worker.server == server && worker.configurationId == configurationId
      ensures worker.configuration == None && worker.currentMode == CurrentMode.Offline(Initializing)
      ensures worker.Valid()
    {
      this.offlineMode := offlineMode;
      worker := new LiveWorker.UpdateThreadWorker(server, configurationId, None, CurrentMode.Offline(Initializing));
    }

    /** `get_configuration` on the shared cells. */
    function Served(): Result<Configuration, LiveError>
      reads worker
      requires worker.Valid() && !worker.currentMode.Defunct?
    {
      GetConfiguration(worker.currentMode, offlineMode, worker.configuration)
    }

    /** `get_current_mode`: the mode the update thread last published. */
    function GetCurrentMode(): (m: CurrentMode)
      reads worker
      ensures m == worker.currentMode
      ensures worker.Valid() && m.Online? ==> Served() == Ok(worker.configuration.value)
      ensures worker.Valid() && m.Offline? && offlineMode.Fail? ==> Served() == Err(LiveError.Offline(m.reason))
    {
      worker.currentMode
    }
  }

  // ---------------------------------------------------------------------------
  // The file's tests
  // ---------------------------------------------------------------------------

  /** The server's first answer: the environment, without resources. */
  function EmptyJson(): ConfigurationJson {
    ConfigurationJson([Environment("dev", [], [])], [])
  }

  /** The server's second answer: the environment with one feature and no targeting. */
  function FeatureJson(): ConfigurationJson {
    ClientConfiguration.TestJson(ClientConfiguration.TestFeature([]), [])
  }

  lemma EmptyJsonBuilds()
    ensures ClientConfiguration.New("dev", EmptyJson()) == Ok(ClientConfiguration.Configuration(map[], map[]))
  {
    assert ClientConfiguration.FindEnvironment(EmptyJson().environments, "dev") == Some(Environment("dev", [], []));
  }

  lemma FeatureJsonBuilds()
    ensures ClientConfiguration.New("dev", FeatureJson()).Ok?
    ensures "f1" in ClientConfiguration.New("dev", FeatureJson()).value.features
  {
    var f := ClientConfiguration.TestFeature([]);
    ClientConfiguration.SingleFeatureConfiguration(f, [], ClientConfiguration.RuleCountCheck);
    assert ClientConfiguration.FindEnvironment(FeatureJson().environments, "dev") == Some(Environment("dev", [f], []));
    ClientConfiguration.IndexFeaturesLastWins([], [f], ClientConfiguration.RuleCountCheck, 0);
  }

  /**
   * The happy-path test, step by step as the thread takes them: while
   * initializing the reader reports the reason; after the first fetch and
   * connection it serves that configuration online; a heartbeat changes
   * nothing; any other text fetches and serves the new configuration.
   */
  method HappyPath() returns (initial: Result<Configuration, LiveError>, initialMode: CurrentMode,
                              online: Result<Configuration, LiveError>, afterHeartbeat: Result<Configuration, LiveError>,
                              afterUpdate: Result<Configuration, LiveError>, finalMode: CurrentMode)
    ensures initial == Err(LiveError.Offline(Initializing)) && initialMode == CurrentMode.Offline(Initializing)
    ensures online == Ok(ClientConfiguration.Configuration(map[], map[]))
    ensures afterHeartbeat == online
    ensures afterUpdate.Ok? && afterUpdate != online && "f1" in afterUpdate.value.features
    ensures finalMode == Online
  {
    EmptyJsonBuilds();
    FeatureJsonBuilds();
    var server := new ServerClient([Ok(EmptyJson()), Ok(FeatureJson())], [Ok(())],
                                   [Received(Text(ServerHeartbeat)), Received(Text(""))]);
    var live := new LiveConfiguration(Fail, server, ConfigurationId("", "dev", ""));
    initial := live.Served();
    initialMode := live.GetCurrentMode();

    var fetched := live.worker.UpdateConfigurationFromServerAndCurrentMode();
    var socket := server.GetConfigurationMonitoringWebsocket();
    online := live.Served();

    var handled := live.worker.HandleWebsocketMessage();
    afterHeartbeat := live.Served();

    assert ServerHeartbeat != "";
    handled := live.worker.HandleWebsocketMessage();
    afterUpdate := live.Served();
    finalMode := live.GetCurrentMode();
  }
}
