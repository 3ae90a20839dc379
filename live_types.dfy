/**
 * The vocabulary shared by the live-configuration state machines
 * (`src/network/live_configuration/`, `src/network/configuration_sync/`):
 * the current mode, the offline reasons, the thread's errors, the
 * network errors the server client reports, the offline behaviour and the
 * websocket messages.
 *
 * The two versions' enums are merged into one datatype each where they
 * agree; where they differ the union is taken and each module uses only
 * what its own source names.
 */
module LiveTypes {
  import opened Wrappers
  import ClientConfiguration
  import ConfigModel

  /**
   * `CurrentModeOfflineReason`. `LockError` exists only in the older
   * version; `ConfigurationDataInvalid` is used by both workers.
   */
  datatype OfflineReason =
    | LockError
    | FailedToGetNewConfiguration
    | Initializing
    | WebsocketClosed
    | WebsocketError
    | ConfigurationDataInvalid

  /** The thread's `Error`. */
  datatype LiveError =
    | CannotAcquireLock
    | Offline(reason: OfflineReason)
    | ThreadInternalError(message: string)
    | UnrecoverableError(message: string)
    | ConfigurationNotYetAvailable

  /** `CurrentMode`: `Defunct` carries what the worker's `run` returned. */
  datatype CurrentMode =
    | Online
    | Offline(reason: OfflineReason)
    | Defunct(result: Result<(), LiveError>)

  /**
   * `NetworkError`, as the workers' `recoverable_error` matches it. The
   * payloads of the reqwest and tungstenite errors are left out.
   */
  datatype NetworkError =
    | ReqwestError
    | TungsteniteError
    | ProtocolError
    | UrlParseError(url: string)
    | InvalidHeaderValue(header: string)
    | CannotAcquireLock
    | ContactToServerLost

  /** `OfflineMode`: what the reader returns while the worker is not online. */
  datatype OfflineMode =
    | Fail
    | Cache
    | FallbackData(fallback: ClientConfiguration.Configuration)

  /** A websocket message: `Text`, `Close`, or any other kind (ping, pong, binary, frame). */
  datatype Message = Text(text: string) | Close | OtherMessage

  /** What `read_msg` gives: a message, or a read error. */
  datatype ReadResult = Received(message: Message) | ReadFailed

  /** `SERVER_HEARTBEAT`: the text the server sends to keep the socket alive. */
  const ServerHeartbeat: string := "test message"

  /**
   * The worker's invariant over the shared cells: it stores a
   * configuration before it switches to `Online`, so the reader never finds
   * `Online` without one.
   */
  predicate OnlineHasConfiguration(mode: CurrentMode, configuration: Option<ClientConfiguration.Configuration>) {
    mode.Online? ==> configuration.Some?
  }

  /** `{:?}` of an offline reason. */
  function ReasonDebug(reason: OfflineReason): (s: string)
    ensures s == "LockError" <==> reason.LockError?
    ensures s == "FailedToGetNewConfiguration" <==> reason.FailedToGetNewConfiguration?
    ensures s == "Initializing" <==> reason.Initializing?
    ensures s == "WebsocketClosed" <==> reason.WebsocketClosed?
    ensures s == "WebsocketError" <==> reason.WebsocketError?
    ensures s == "ConfigurationDataInvalid" <==> reason.ConfigurationDataInvalid?
  {
    match reason
    case LockError => "LockError"
    case FailedToGetNewConfiguration => "FailedToGetNewConfiguration"
    case Initializing => "Initializing"
    case WebsocketClosed => "WebsocketClosed"
    case WebsocketError => "WebsocketError"
    case ConfigurationDataInvalid => "ConfigurationDataInvalid"
  }

  /** `{:?}` of a thread error (strings are quoted, escapes are left out). */
  function ErrorDebug(e: LiveError): string {
    match e
    case CannotAcquireLock => "CannotAcquireLock"
    case Offline(reason) => "Offline(" + ReasonDebug(reason) + ")"
    case ThreadInternalError(message) => "ThreadInternalError(\"" + message + "\")"
    case UnrecoverableError(message) => "UnrecoverableError(\"" + message + "\")"
    case ConfigurationNotYetAvailable => "ConfigurationNotYetAvailable"
  }

  /** `{:?}` of the thread's result. */
  function ResultDebug(result: Result<(), LiveError>): string {
    match result
    case Ok(_) => "Ok(())"
    case Err(e) => "Err(" + ErrorDebug(e) + ")"
  }

  /**
   * The `ServerClient` and the websockets it opens, as the answers they
   * will give, in order: the configurations `get_configuration` returns,
   * the results of `get_configuration_monitoring_websocket`, and the
   * results of `read_msg` on whichever socket is open.
   */
  class ServerClient {
    var answers: seq<Result<ConfigModel.ConfigurationJson, NetworkError>>
    var sockets: seq<Result<(), NetworkError>>
    var messages: seq<ReadResult>

    constructor(answers: seq<Result<ConfigModel.ConfigurationJson, NetworkError>>, sockets: seq<Result<(), NetworkError>>, messages: seq<ReadResult>)
      ensures this.answers == answers && this.sockets == sockets && this.messages == messages
    {
      this.answers := answers;
      this.sockets := sockets;
      this.messages := messages;
    }

    /** `get_configuration`: the next answer. */
    method GetConfiguration() returns (r: Result<ConfigModel.ConfigurationJson, NetworkError>)
      requires |answers| > 0
      modifies this
      ensures r == old(answers[0]) && answers == old(answers[1..])
      ensures sockets == old(sockets) && messages == old(messages)
    {
      r := answers[0];
      answers := answers[1..];
    }

    /** `get_configuration_monitoring_websocket`: the next connection attempt. */
    method GetConfigurationMonitoringWebsocket() returns (r: Result<(), NetworkError>)
      requires |sockets| > 0
      modifies this
      ensures r == old(sockets[0]) && sockets == old(sockets[1..])
      ensures answers == old(answers) && messages == old(messages)
    {
      r := sockets[0];
      sockets := sockets[1..];
    }

    /** `read_msg` on the open socket: the next message or read error. */
    method ReadMsg() returns (r: ReadResult)
      requires |messages| > 0
      modifies this
      ensures r == old(messages[0]) && messages == old(messages[1..])
      ensures answers == old(answers) && sockets == old(sockets)
    {
      r := messages[0];
      messages := messages[1..];
    }
  }
}
