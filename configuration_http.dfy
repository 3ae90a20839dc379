/**
 * `src/network/configuration_http.rs`: the oldest live configuration. The
 * reader answers every unavailable case with `ContactToServerLost`, and the
 * update thread's steps are associated functions that write the shared
 * configuration cell and return the next mode for the caller to store.
 *
 * The shared cells are the fields of `LiveConfiguration`; the server client
 * is the scripted `ServerClient` of `LiveTypes`. The thread's loop
 * (`start_update_thread`), `get_thread_status` and the unfinished
 * `new_wait_until_online` are not part of this model.
 */
module ConfigurationHttp {
  import opened Wrappers
  import opened ConfigModel
  import opened LiveTypes
  import ClientConfiguration
  import LiveWorker
  import Newer = LiveConfiguration

  type Configuration = ClientConfiguration.Configuration

  /** This version's `CurrentMode`: online, or offline for a reason (it never uses `ConfigurationDataInvalid`). */
  datatype Mode = Online | Offline(reason: OfflineReason)

  /** The same mode in the newer versions' `CurrentMode`. */
  function AsCurrentMode(mode: Mode): (m: CurrentMode)
    ensures !m.Defunct? && (m.Online? <==> mode.Online?)
    ensures mode.Offline? ==> m == CurrentMode.Offline(mode.reason)
  {
    match mode
    case Online => CurrentMode.Online
    case Offline(reason) => CurrentMode.Offline(reason)
  }

  /**
   * `get_configuration`: every case without a configuration to serve is the
   * crate's `NetworkError(ContactToServerLost)`; online without a stored
   * configuration is one of them rather than unreachable.
   */
  function GetConfiguration(mode: Mode, offlineMode: OfflineMode, configuration: Option<Configuration>): (r: Result<Configuration, NetworkError>)
    ensures r.Err? ==> r.error == ContactToServerLost
    ensures r.Ok? <==> (configuration.Some? && (mode.Online? || offlineMode.Cache?)) || (mode.Offline? && offlineMode.FallbackData?)
    ensures r.Ok? && (mode.Online? || offlineMode.Cache?) ==> r == Ok(configuration.value)
    ensures r.Ok? && mode.Offline? && offlineMode.FallbackData? ==> r == Ok(offlineMode.fallback)
  {
    match mode
    case Online =>
      if configuration.None? then Err(ContactToServerLost) else Ok(configuration.value)
    case Offline(_) =>
      match offlineMode
      case Fail => Err(ContactToServerLost)
      case Cache => if configuration.None? then Err(ContactToServerLost) else Ok(configuration.value)
      case FallbackData(fallback) => Ok(fallback)
  }

  /**
   * The oldest and the newest readers serve the same configuration wherever
   * the newest one serves at all; they differ only in the errors they
   * report.
   */
  lemma {:induction false} ServesAsNewerReader(mode: Mode, offlineMode: OfflineMode, configuration: Option<Configuration>)
    requires OnlineHasConfiguration(AsCurrentMode(mode), configuration)
    ensures var newer := Newer.GetConfiguration(AsCurrentMode(mode), offlineMode, configuration);
      var older := GetConfiguration(mode, offlineMode, configuration);
      (newer.Ok? <==> older.Ok?) && (newer.Ok? ==> newer.value == older.value)
  {
    match mode {
      case Online =>
      case Offline(reason) =>
        assert AsCurrentMode(mode) == CurrentMode.Offline(reason);
    }
  }

  /**
   * `recoverable_error`: the transient errors are `Ok`, the errors that
   * come from static data are returned unchanged.
   */
  function RecoverableError(e: NetworkError): (r: Result<(), NetworkError>)
    ensures r.Ok? <==> e.ReqwestError? || e.TungsteniteError? || e.ProtocolError? || e.ContactToServerLost?
    ensures r.Err? ==> r.error == e
  {
    match e
    case ReqwestError => Ok(())
    case TungsteniteError => Ok(())
    case ProtocolError => Ok(())
    case ContactToServerLost => Ok(())
    case UrlParseError(u) => Err(UrlParseError(u))
    case InvalidHeaderValue(h) => Err(InvalidHeaderValue(h))
    case CannotAcquireLock => Err(NetworkError.CannotAcquireLock)
  }

  /** The later worker keeps this classification, converting the fatal errors to its own. */
  lemma {:induction false} SameClassificationAsWorker(e: NetworkError)
    ensures RecoverableError(e).Ok? <==> LiveWorker.RecoverableError(e).Ok?
  {
    match e {
      case ReqwestError =>
      case TungsteniteError =>
      case ProtocolError =>
      case ContactToServerLost =>
      case UrlParseError(u) =>
      case InvalidHeaderValue(h) =>
      case CannotAcquireLock =>
    }
  }

  /** What one fetch yields: the result (the next mode, or a fatal error) and the configuration cell afterwards. */
  datatype Fetched = Fetched(result: Result<Mode, NetworkError>, configuration: Option<Configuration>)

  /**
   * `get_configuration_from_server` on the server's answer: a configuration
   * that builds is stored and the next mode is online; one that does not
   * build counts as `ProtocolError`; a recoverable failure keeps an offline
   * mode or goes offline with `FailedToGetNewConfiguration`, and leaves the
   * stored configuration alone; a fatal error is returned.
   */
  function Fetch(environmentId: string, configuration: Option<Configuration>, mode: Mode,
                 fetched: Result<ConfigurationJson, NetworkError>): (s: Fetched)
    ensures s.result.Err? <==> fetched.Err? && RecoverableError(fetched.error).Err?
    ensures s.result.Err? ==> s.result.error == fetched.error
    ensures s.result == Ok(Mode.Online) <==> fetched.Ok? && ClientConfiguration.New(environmentId, fetched.value).Ok?
    ensures s.result == Ok(Mode.Online) ==> s.configuration == Some(ClientConfiguration.New(environmentId, fetched.value).value)
    ensures s.result != Ok(Mode.Online) ==> s.configuration == configuration
    ensures s.result.Ok? && s.result.value.Offline? ==>
      s.result.value == if mode.Offline? then mode else Mode.Offline(FailedToGetNewConfiguration)
    ensures s.result.Ok? ==> OnlineHasConfiguration(AsCurrentMode(s.result.value), s.configuration)
  {
    var built: Result<Configuration, NetworkError> :=
      match fetched
      case Err(e) => Err(e)
      case Ok(json) =>
        match ClientConfiguration.New(environmentId, json)
        case Err(_) => Err(ProtocolError)
        case Ok(c) => Ok(c);
    match built
    case Ok(c) => Fetched(Ok(Mode.Online), Some(c))
    case Err(e) =>
      match RecoverableError(e)
      case Err(fatal) => Fetched(Err(fatal), configuration)
      case Ok(_) =>
        if mode.Offline? then Fetched(Ok(mode), configuration)
        else Fetched(Ok(Mode.Offline(FailedToGetNewConfiguration)), configuration)
  }

  /** Whether a payload makes the thread fetch: anything but a heartbeat received while online. */
  predicate PayloadFetches(text: string, mode: Mode) {
    !(text == ServerHeartbeat && mode.Online?)
  }

  /**
   * `handle_websocket_payload`: a heartbeat while online keeps the mode and
   * the configuration without asking the server; a heartbeat while offline,
   * or any other text, is one fetch.
   */
  function HandlePayload(environmentId: string, configuration: Option<Configuration>, mode: Mode, text: string,
                         answers: seq<Result<ConfigurationJson, NetworkError>>): (s: Fetched)
    requires PayloadFetches(text, mode) ==> |answers| > 0
    ensures !PayloadFetches(text, mode) ==> s == Fetched(Ok(mode), configuration)
    ensures PayloadFetches(text, mode) ==> s == Fetch(environmentId, configuration, mode, answers[0])
    ensures OnlineHasConfiguration(AsCurrentMode(mode), configuration) && s.result.Ok? ==>
      OnlineHasConfiguration(AsCurrentMode(s.result.value), s.configuration)
  {
    if text == ServerHeartbeat then
      if mode.Offline? then Fetch(environmentId, configuration, mode, answers[0])
      else Fetched(Ok(mode), configuration)
    else
      Fetch(environmentId, configuration, mode, answers[0])
  }

  /** A heartbeat while online is answered the same whatever the server would have said. */
  lemma HeartbeatWhileOnlineNeedsNoServer(environmentId: string, configuration: Option<Configuration>,
                                         a: seq<Result<ConfigurationJson, NetworkError>>, b: seq<Result<ConfigurationJson, NetworkError>>)
    ensures HandlePayload(environmentId, configuration, Mode.Online, ServerHeartbeat, a) ==
            HandlePayload(environmentId, configuration, Mode.Online, ServerHeartbeat, b)
  {
  }

  /** `LiveConfiguration`: the offline mode and the two cells shared with the update thread. */
  class LiveConfiguration {
    const offlineMode: OfflineMode
    var configuration: Option<Configuration>
    var currentMode: Mode

    /** `new`: no configuration yet, initializing. */
    constructor(offlineMode: OfflineMode)
      ensures this.offlineMode == offlineMode
      ensures configuration == None && currentMode == Mode.Offline(Initializing)
    {
      this.offlineMode := offlineMode;
      configuration := None;
      currentMode := Mode.Offline(Initializing);
    }

    /** `get_configuration` on the cells. */
    function Served(): Result<Configuration, NetworkError>
      reads this
    {
      GetConfiguration(currentMode, offlineMode, configuration)
    }

    /** `get_current_mode`. */
    function GetCurrentMode(): (m: Mode)
      reads this
      ensures m == currentMode
      ensures m.Online? && configuration.Some? ==> Served() == Ok(configuration.value)
      ensures m.Offline? && offlineMode.Fail? ==> Served() == Err(ContactToServerLost)
    {
      currentMode
    }

    /**
     * `get_configuration_from_server`: one answer from the server; the
     * configuration cell is written, the mode is returned for the caller
     * to store.
     */
    method GetConfigurationFromServer(server: ServerClient, configurationId: ConfigurationId, mode: Mode)
      returns (r: Result<Mode, NetworkError>)
      requires |server.answers| > 0
      modifies this, server
      ensures Fetched(r, configuration) == Fetch(configurationId.environmentId, old(configuration), mode, old(server.answers[0]))
      ensures currentMode == old(currentMode)
      ensures server.answers == old(server.answers[1..])
      ensures server.sockets == old(server.sockets) && server.messages == old(server.messages)
    {
      var fetched := server.GetConfiguration();
      var built: Result<Configuration, NetworkError>;
      match fetched {
        case Err(e) =>
          built := Err(e);
        case Ok(json) =>
          match ClientConfiguration.New(configurationId.environmentId, json) {
            case Err(_) => built := Err(ProtocolError);
            case Ok(c) => built := Ok(c);
          }
      }
      match built {
        case Ok(c) =>
          configuration := Some(c);
          r := Ok(Mode.Online);
        case Err(e) =>
          var recoverable := RecoverableError(e);
          if recoverable.Err? {
            return Err(recoverable.error);
          }
          if mode.Offline? {
            r := Ok(mode);
          } else {
            r := Ok(Mode.Offline(FailedToGetNewConfiguration));
          }
      }
    }

    /** `handle_websocket_payload`: the text of one message. */
    method HandleWebsocketPayload(text: string, server: ServerClient, configurationId: ConfigurationId, mode: Mode)
      returns (r: Result<Mode, NetworkError>)
      requires PayloadFetches(text, mode) ==> |server.answers| > 0
      modifies this, server
      ensures Fetched(r, configuration) ==
        HandlePayload(configurationId.environmentId, old(configuration), mode, text, old(server.answers))
      ensures currentMode == old(currentMode)
      ensures server.answers == if PayloadFetches(text, mode) then old(server.answers[1..]) else old(server.answers)
      ensures server.sockets == old(server.sockets) && server.messages == old(server.messages)
    {
      if text == ServerHeartbeat {
        if mode.Offline? {
          r := GetConfigurationFromServer(server, configurationId, mode);
        } else {
          r := Ok(mode);
        }
      } else {
        r := GetConfigurationFromServer(server, configurationId, mode);
      }
    }
  }

  // ---------------------------------------------------------------------------
  // The file's tests
  // ---------------------------------------------------------------------------

  /**
   * The happy path on the cells: while initializing nothing is served;
   * after the first fetch, stored by the caller, the configuration is
   * served online; a heartbeat changes nothing and asks nothing.
   */
  method HappyPath() returns (initial: Result<Configuration, NetworkError>, online: Result<Configuration, NetworkError>,
                              afterHeartbeat: Result<Configuration, NetworkError>, mode: Mode)
    ensures initial == Err(ContactToServerLost)
    ensures online == Ok(ClientConfiguration.Configuration(map[], map[]))
    ensures afterHeartbeat == online && mode == Mode.Online
  {
    var json := ConfigurationJson([Environment("dev", [], [])], []);
    assert ClientConfiguration.FindEnvironment(json.environments, "dev") == Some(Environment("dev", [], []));
    var server := new ServerClient([Ok(json)], [], []);
    var id := ConfigurationId("", "dev", "");
    var live := new LiveConfiguration(Fail);
    initial := live.Served();

    var next := live.GetConfigurationFromServer(server, id, live.currentMode);
    live.currentMode := next.value;
    online := live.Served();

    next := live.HandleWebsocketPayload(ServerHeartbeat, server, id, live.currentMode);
    live.currentMode := next.value;
    afterHeartbeat := live.Served();
    mode := live.GetCurrentMode();
  }
}
