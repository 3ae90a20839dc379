/**
 * `src/network/live_configuration/update_thread_worker.rs`: the thread that
 * keeps the shared configuration and current mode up to date. It connects
 * the websocket, fetches a configuration, and then reacts to every message
 * until it is told to stop, the socket is lost (then it reconnects) or an
 * unrecoverable error occurs.
 *
 * The two shared cells (`Arc<Mutex<..>>`) are the worker's fields; the
 * reader (`LiveConfiguration.LiveConfigurationImpl`) holds the same worker
 * object and reads them. The server client, the websocket and the
 * termination channel are inputs (`LiveTypes.ServerClient` and a sequence
 * of termination checks). Locks are never poisoned in this model.
 *
 * The transitions of one fetch and of one message are pure functions
 * (`Update`, `HandleMessage`); the class's methods are proved against them.
 */
module LiveWorker {
  import opened Wrappers
  import opened ConfigModel
  import opened LiveTypes
  import ClientConfiguration

  type Configuration = ClientConfiguration.Configuration

  /** The errors that stop the thread. */
  predicate Unrecoverable(e: LiveError) {
    e.UnrecoverableError? || e.CannotAcquireLock?
  }

  /**
   * `recoverable_error`: request, websocket, protocol and lost-contact
   * errors are transient; a bad URL or header can never succeed and a
   * poisoned lock cannot be repaired.
   */
  function RecoverableError(e: NetworkError): (r: Result<(), LiveError>)
    ensures r.Ok? <==> e.ReqwestError? || e.TungsteniteError? || e.ProtocolError? || e.ContactToServerLost?
    ensures r.Err? ==> Unrecoverable(r.error)
    ensures e.UrlParseError? ==> r == Err(UnrecoverableError(e.url))
    ensures e.InvalidHeaderValue? ==> r == Err(UnrecoverableError(e.header))
    ensures e.CannotAcquireLock? ==> r == Err(LiveError.CannotAcquireLock)
  {
    match e
    case ReqwestError => Ok(())
    case TungsteniteError => Ok(())
    case ProtocolError => Ok(())
    case ContactToServerLost => Ok(())
    case UrlParseError(url) => Err(UnrecoverableError(url))
    case InvalidHeaderValue(header) => Err(UnrecoverableError(header))
    case CannotAcquireLock => Err(LiveError.CannotAcquireLock)
  }

  /** What a transition returns, and the two shared cells afterwards. */
  datatype Step<T> = Step(result: Result<T, LiveError>, configuration: Option<Configuration>, mode: CurrentMode)

  /** The configuration was built by `Configuration::new` from one of the server's answers. */
  predicate FromServer(environmentId: string, c: Configuration, answers: seq<Result<ConfigurationJson, NetworkError>>) {
    exists j | 0 <= j < |answers| :: answers[j].Ok? && ClientConfiguration.New(environmentId, answers[j].value) == Ok(c)
  }

  /**
   * `update_configuration_from_server_and_current_mode` on the answer
   * `fetched`: a valid configuration is stored and the mode becomes
   * `Online`; invalid data only marks the mode; a transient failure keeps
   * an offline reason already present; any other failure changes nothing
   * and is returned.
   */
  function Update(environmentId: string, configuration: Option<Configuration>, mode: CurrentMode,
                  fetched: Result<ConfigurationJson, NetworkError>): (s: Step<()>)
    ensures s.result.Err? <==> fetched.Err? && RecoverableError(fetched.error).Err?
    ensures s.result.Err? ==> s == Step(RecoverableError(fetched.error), configuration, mode)
    ensures s.result.Ok? ==> (s.mode.Online? <==> fetched.Ok? && ClientConfiguration.New(environmentId, fetched.value).Ok?)
    ensures s.configuration == configuration || (fetched.Ok? && s.configuration.Some? && FromServer(environmentId, s.configuration.value, [fetched]))
    ensures fetched.Ok? && ClientConfiguration.New(environmentId, fetched.value).Ok? ==>
      s == Step(Ok(()), Some(ClientConfiguration.New(environmentId, fetched.value).value), Online)
    ensures fetched.Ok? && ClientConfiguration.New(environmentId, fetched.value).Err? ==>
      s == Step(Ok(()), configuration, CurrentMode.Offline(ConfigurationDataInvalid))
    ensures fetched.Err? && s.result.Ok? ==>
      s == Step(Ok(()), configuration, if mode.Offline? then mode else CurrentMode.Offline(FailedToGetNewConfiguration))
    ensures s.result.Ok? || OnlineHasConfiguration(mode, configuration) ==> OnlineHasConfiguration(s.mode, s.configuration)
  {
    match fetched
    case Ok(json) =>
      (match ClientConfiguration.New(environmentId, json)
       case Ok(config) =>
         assert [fetched][0] == fetched;
         Step(Ok(()), Some(config), Online)
       case Err(_) => Step(Ok(()), configuration, CurrentMode.Offline(ConfigurationDataInvalid)))
    case Err(e) =>
      match RecoverableError(e)
      case Err(err) => Step(Err(err), configuration, mode)
      case Ok(_) => Step(Ok(()), configuration, if mode.Offline? then mode else CurrentMode.Offline(FailedToGetNewConfiguration))
  }

  /** A text message asks for a fetch unless it is the heartbeat and the worker is online. */
  predicate Refetches(read: ReadResult, mode: CurrentMode) {
    read.Received? && read.message.Text? && !(read.message.text == ServerHeartbeat && mode.Online?)
  }

  /**
   * `handle_websocket_message` for the read result `read`, with the
   * server's pending answers (only the first is used, and only when the
   * message asks for a fetch). The result's value says whether the socket
   * is kept.
   */
  function HandleMessage(environmentId: string, configuration: Option<Configuration>, mode: CurrentMode,
                         read: ReadResult, answers: seq<Result<ConfigurationJson, NetworkError>>): (s: Step<bool>)
    requires Refetches(read, mode) ==> |answers| > 0
    ensures s.result == Ok(false) <==> read.ReadFailed? || read == Received(Close)
    ensures read.ReadFailed? ==> s == Step(Ok(false), configuration, CurrentMode.Offline(WebsocketError))
    ensures read == Received(Close) ==> s == Step(Ok(false), configuration, CurrentMode.Offline(WebsocketClosed))
    ensures read.Received? && !read.message.Close? && !Refetches(read, mode) ==> s == Step(Ok(true), configuration, mode)
    ensures Refetches(read, mode) ==>
      var u := Update(environmentId, configuration, mode, answers[0]);
      s.configuration == u.configuration && s.mode == u.mode &&
      s.result == (if u.result.Ok? then Ok(true) else Err(u.result.error))
    ensures OnlineHasConfiguration(mode, configuration) ==> OnlineHasConfiguration(s.mode, s.configuration)
  {
    match read
    case Received(Text(text)) =>
      if Refetches(read, mode) then
        var u := Update(environmentId, configuration, mode, answers[0]);
        Step(if u.result.Ok? then Ok(true) else Err(u.result.error), u.configuration, u.mode)
      else Step(Ok(true), configuration, mode)
    case Received(Close) => Step(Ok(false), configuration, CurrentMode.Offline(WebsocketClosed))
    case Received(OtherMessage) => Step(Ok(true), configuration, mode)
    case ReadFailed => Step(Ok(false), configuration, CurrentMode.Offline(WebsocketError))
  }

  /**
   * A heartbeat received while online does not consult the server: the
   * outcome is the same whatever the server would answer, and nothing
   * changes.
   */
  lemma HeartbeatWhileOnlineIgnoresServer(environmentId: string, configuration: Option<Configuration>,
                                          a: seq<Result<ConfigurationJson, NetworkError>>, b: seq<Result<ConfigurationJson, NetworkError>>)
    ensures HandleMessage(environmentId, configuration, Online, Received(Text(ServerHeartbeat)), a) ==
            HandleMessage(environmentId, configuration, Online, Received(Text(ServerHeartbeat)), b)
    ensures HandleMessage(environmentId, configuration, Online, Received(Text(ServerHeartbeat)), a) == Step(Ok(true), configuration, Online)
  {
  }

  /** The first connection attempt fails with an error that stops the thread. */
  predicate FirstConnectFatal(sockets: seq<Result<(), NetworkError>>) {
    |sockets| > 0 && sockets[0].Err? && RecoverableError(sockets[0].error).Err?
  }

  /** The worker: the two shared cells and the server it talks to. */
  class UpdateThreadWorker {
    const server: ServerClient
    const configurationId: ConfigurationId
    var configuration: Option<Configuration>
    var currentMode: CurrentMode

    constructor(server: ServerClient, configurationId: ConfigurationId, configuration: Option<Configuration>, currentMode: CurrentMode)
      ensures this.server == server && this.configurationId == configurationId
      ensures this.configuration == configuration && this.currentMode == currentMode
    {
      this.server := server;
      this.configurationId := configurationId;
      this.configuration := configuration;
      this.currentMode := currentMode;
    }

    /** The reader relies on this: `Online` is only set after a configuration is stored. */
    predicate Valid()
      reads this
    {
      OnlineHasConfiguration(currentMode, configuration)
    }

    /** `update_configuration_from_server_and_current_mode`: one fetch and its effect on the cells. */
    method UpdateConfigurationFromServerAndCurrentMode() returns (r: Result<(), LiveError>)
      requires |server.answers| > 0
      modifies this, server
      ensures Step(r, configuration, currentMode) ==
        Update(configurationId.environmentId, old(configuration), old(currentMode), old(server.answers[0]))
      ensures server.answers == old(server.answers[1..])
      ensures server.sockets == old(server.sockets) && server.messages == old(server.messages)
    {
      var fetched := server.GetConfiguration();
      match fetched {
        case Ok(json) =>
          match ClientConfiguration.New(configurationId.environmentId, json) {
            case Ok(config) =>
              configuration := Some(config);
              currentMode := Online;
            case Err(_) =>
              currentMode := CurrentMode.Offline(ConfigurationDataInvalid);
          }
          r := Ok(());
        case Err(e) =>
          var recoverable := RecoverableError(e);
          if recoverable.Err? {
            return recoverable;
          }
          var mode := currentMode;
          if !mode.Offline? {
            currentMode := CurrentMode.Offline(FailedToGetNewConfiguration);
          }
          r := Ok(());
      }
    }

    /** `handle_websocket_message`: read one message and react to it; `Ok(false)` means the socket is gone. */
    method HandleWebsocketMessage() returns (r: Result<bool, LiveError>)
      requires |server.messages| > 0
      requires Refetches(server.messages[0], currentMode) ==> |server.answers| > 0
      modifies this, server
      ensures Step(r, configuration, currentMode) ==
        HandleMessage(configurationId.environmentId, old(configuration), old(currentMode), old(server.messages[0]), old(server.answers))
      ensures server.messages == old(server.messages[1..]) && server.sockets == old(server.sockets)
      ensures server.answers == if Refetches(old(server.messages[0]), old(currentMode)) then old(server.answers[1..]) else old(server.answers)
    {
      var read := server.ReadMsg();
      match read {
        case Received(Text(text)) =>
          var mode := currentMode;
          if text == ServerHeartbeat && mode.Offline? {
            var updated := UpdateConfigurationFromServerAndCurrentMode();
            if updated.Err? {
              return Err(updated.error);
            }
          } else if text == ServerHeartbeat && mode.Online? {
          } else {
            var updated := UpdateConfigurationFromServerAndCurrentMode();
            if updated.Err? {
              return Err(updated.error);
            }
          }
          r := Ok(true);
        case Received(Close) =>
          currentMode := CurrentMode.Offline(WebsocketClosed);
          r := Ok(false);
        case Received(OtherMessage) =>
          r := Ok(true);
        case ReadFailed =>
          currentMode := CurrentMode.Offline(WebsocketError);
          r := Ok(false);
      }
    }

    /**
     * `run_internal`: connect, fetch, then handle messages until the
     * socket is lost (reconnect) or a termination check says stop. The
     * checks are `stops` in order (`true` stops); the run also ends, as on
     * a termination signal, when an input it needs has run out.
     *
     * Only unrecoverable errors end the run with `Err`; every stored
     * configuration was built from a server answer; the websocket is
     * connected before the first fetch, so when every connection attempt
     * fails the server is never asked for a configuration and the cells
     * are untouched.
     */
    method RunInternal(stops: seq<bool>) returns (r: Result<(), LiveError>)
      modifies this, server
      ensures old(Valid()) ==> Valid()
      ensures r.Err? ==> Unrecoverable(r.error)
      ensures configuration == old(configuration) ||
        (configuration.Some? && FromServer(configurationId.environmentId, configuration.value, old(server.answers)))
      ensures (forall i | 0 <= i < |old(server.sockets)| :: old(server.sockets)[i].Err?) ==>
        configuration == old(configuration) && currentMode == old(currentMode) && server.answers == old(server.answers)
      ensures FirstConnectFatal(old(server.sockets)) ==> r == RecoverableError(old(server.sockets)[0].error)
    {
      ghost var answers0 := server.answers;
      ghost var sockets0 := server.sockets;
      ghost var configuration0, mode0 := configuration, currentMode;
      ghost var attempts := 0;
      ghost var allFailed := true;
      var si := 0;
      while |server.sockets| > 0
        invariant 0 <= si <= |stops|
        invariant RunInvariant(answers0, sockets0, configuration0, mode0, attempts, allFailed)
        decreases |sockets0| - attempts
      {
        assert server.sockets[0] == sockets0[attempts];
        var outcome;
        outcome, si := Attempt(stops, si, answers0);
        allFailed := allFailed && sockets0[attempts].Err?;
        attempts := attempts + 1;
        if outcome.Some? {
          return outcome.value;
        }
      }
      r := Ok(());
    }

    /**
     * What `run_internal`'s outer loop keeps, `attempts` connections into the
     * run: the invariant (or nothing changed yet), the answers and sockets
     * consumed from the front, the provenance of the stored configuration,
     * and nothing touched while every connection has failed.
     */
    ghost predicate RunInvariant(answers0: seq<Result<ConfigurationJson, NetworkError>>, sockets0: seq<Result<(), NetworkError>>,
                                 configuration0: Option<Configuration>, mode0: CurrentMode, attempts: int, allFailed: bool)
      reads this, server
    {
      && (Valid() || (configuration == configuration0 && currentMode == mode0))
      && |server.answers| <= |answers0| && server.answers == answers0[|answers0| - |server.answers|..]
      && 0 <= attempts <= |sockets0| && server.sockets == sockets0[attempts..]
      && (configuration == configuration0 ||
          (configuration.Some? && FromServer(configurationId.environmentId, configuration.value, answers0)))
      && (allFailed ==> configuration == configuration0 && currentMode == mode0 && server.answers == answers0)
      && ((forall i | 0 <= i < attempts :: sockets0[i].Err?) ==> allFailed)
      && (FirstConnectFatal(sockets0) ==> attempts == 0)
    }

    /**
     * One pass of `run_internal`'s outer loop: connect, fetch, listen.
     * `None` means reconnect; a failed connection leaves the cells and the
     * answers untouched.
     */
    method Attempt(stops: seq<bool>, si0: nat, ghost answers0: seq<Result<ConfigurationJson, NetworkError>>)
      returns (outcome: Option<Result<(), LiveError>>, si: nat)
      requires |server.sockets| > 0
      requires si0 <= |stops|
      requires |server.answers| <= |answers0| && server.answers == answers0[|answers0| - |server.answers|..]
      modifies this, server
      ensures si0 <= si <= |stops|
      ensures server.sockets == old(server.sockets[1..])
      ensures |server.answers| <= |answers0| && server.answers == answers0[|answers0| - |server.answers|..]
      ensures old(Valid()) ==> Valid()
      ensures Valid() || (configuration == old(configuration) && currentMode == old(currentMode))
      ensures outcome.Some? && outcome.value.Err? ==> Unrecoverable(outcome.value.error)
      ensures old(server.sockets[0]).Err? ==>
        configuration == old(configuration) && currentMode == old(currentMode) && server.answers == old(server.answers)
      ensures FirstConnectFatal(old(server.sockets)) ==> outcome == Some(RecoverableError(old(server.sockets[0]).error))
      ensures configuration == old(configuration) ||
        (configuration.Some? && FromServer(configurationId.environmentId, configuration.value, answers0))
    {
      si := si0;
      var connected := server.GetConfigurationMonitoringWebsocket();
      if connected.Err? {
        var recoverable := RecoverableError(connected.error);
        if recoverable.Err? {
          return Some(recoverable), si;
        }
        return None, si;
      }
      if |server.answers| == 0 {
        return Some(Ok(())), si;
      }
      var updated := UpdateFetched(answers0);
      if updated.Err? {
        return Some(updated), si;
      }
      outcome, si := Listen(stops, si, answers0);
    }

    /**
     * The inner loop of `run_internal`: check for termination, then handle
     * one message, until the socket is lost (`None`: reconnect) or the run
     * ends (`Some` of its result). `si` is the number of termination checks
     * made so far.
     */
    method Listen(stops: seq<bool>, si0: nat, ghost answers0: seq<Result<ConfigurationJson, NetworkError>>)
      returns (outcome: Option<Result<(), LiveError>>, si: nat)
      requires Valid()
      requires si0 <= |stops|
      requires |server.answers| <= |answers0| && server.answers == answers0[|answers0| - |server.answers|..]
      modifies this, server
      ensures Valid()
      ensures si0 <= si <= |stops|
      ensures outcome.Some? && outcome.value.Err? ==> Unrecoverable(outcome.value.error)
      ensures server.sockets == old(server.sockets) && |server.answers| <= old(|server.answers|)
      ensures |server.answers| <= |answers0| && server.answers == answers0[|answers0| - |server.answers|..]
      ensures configuration == old(configuration) ||
        (configuration.Some? && FromServer(configurationId.environmentId, configuration.value, answers0))
      ensures si0 == |stops| || stops[si0] ==>
        outcome == Some(Ok(())) && si == si0 &&
        configuration == old(configuration) && currentMode == old(currentMode) && server.answers == old(server.answers)
    {
      si := si0;
      while true
        invariant Valid()
        invariant si0 <= si <= |stops|
        invariant si > si0 ==> si0 < |stops| && !stops[si0]
        invariant si == si0 ==>
          configuration == old(configuration) && currentMode == old(currentMode) && server.answers == old(server.answers)
        invariant server.sockets == old(server.sockets) && |server.answers| <= old(|server.answers|)
        invariant |server.answers| <= |answers0| && server.answers == answers0[|answers0| - |server.answers|..]
        invariant configuration == old(configuration) ||
          (configuration.Some? && FromServer(configurationId.environmentId, configuration.value, answers0))
        decreases |stops| - si
      {
        if si == |stops| || stops[si] {
          return Some(Ok(())), si;
        }
        si := si + 1;
        if |server.messages| == 0 || (Refetches(server.messages[0], currentMode) && |server.answers| == 0) {
          return Some(Ok(())), si;
        }
        var kept := HandleFetched(answers0);
        if kept.Err? {
          return Some(Err(kept.error)), si;
        }
        if !kept.value {
          return None, si;
        }
      }
    }

    /** One fetch inside a run: the stored configuration still comes from the run's answers. */
    method UpdateFetched(ghost answers0: seq<Result<ConfigurationJson, NetworkError>>) returns (r: Result<(), LiveError>)
      requires |server.answers| > 0
      requires |server.answers| <= |answers0| && server.answers == answers0[|answers0| - |server.answers|..]
      modifies this, server
      ensures r.Err? <==> old(server.answers[0]).Err? && RecoverableError(old(server.answers[0]).error).Err?
      ensures r.Err? ==> r == RecoverableError(old(server.answers[0]).error)
      ensures r.Err? ==> configuration == old(configuration) && currentMode == old(currentMode)
      ensures r.Ok? || old(Valid()) ==> Valid()
      ensures r.Err? ==> Unrecoverable(r.error)
      ensures server.answers == old(server.answers[1..]) && server.sockets == old(server.sockets) && server.messages == old(server.messages)
      ensures configuration == old(configuration) ||
        (configuration.Some? && FromServer(configurationId.environmentId, configuration.value, answers0))
    {
      ghost var k := |answers0| - |server.answers|;
      assert server.answers[0] == answers0[k];
      r := UpdateConfigurationFromServerAndCurrentMode();
    }

    /** One message inside a run: the same guarantees as `UpdateFetched`. */
    method HandleFetched(ghost answers0: seq<Result<ConfigurationJson, NetworkError>>) returns (r: Result<bool, LiveError>)
      requires Valid()
      requires |server.messages| > 0
      requires Refetches(server.messages[0], currentMode) ==> |server.answers| > 0
      requires |server.answers| <= |answers0| && server.answers == answers0[|answers0| - |server.answers|..]
      modifies this, server
      ensures Valid()
      ensures r.Err? ==> Unrecoverable(r.error)
      ensures server.sockets == old(server.sockets) && |server.answers| <= old(|server.answers|)
      ensures |server.answers| <= |answers0| && server.answers == answers0[|answers0| - |server.answers|..]
      ensures configuration == old(configuration) ||
        (configuration.Some? && FromServer(configurationId.environmentId, configuration.value, answers0))
    {
      ghost var k := |answers0| - |server.answers|;
      ghost var refetch := Refetches(server.messages[0], currentMode);
      assert refetch ==> server.answers[0] == answers0[k];
      r := HandleWebsocketMessage();
      assert refetch ==> server.answers == answers0[k + 1..];
    }

    /** `run`: the run's result is published as `Defunct` when it ends. */
    method Run(stops: seq<bool>) returns (r: Result<(), LiveError>)
      modifies this, server
      ensures currentMode == Defunct(r)
      ensures Valid()
      ensures r.Err? ==> Unrecoverable(r.error)
      ensures configuration == old(configuration) ||
        (configuration.Some? && FromServer(configurationId.environmentId, configuration.value, old(server.answers)))
    {
      r := RunInternal(stops);
      currentMode := Defunct(r);
    }
  }
}
