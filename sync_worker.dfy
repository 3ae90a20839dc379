/**
 * `src/network/configuration_sync/thread.rs`: the older update thread. Its
 * fields and its `update_configuration_from_server_and_current_mode`,
 * `handle_websocket_message` and `recoverable_error` have the same bodies
 * as the newer worker's (`LiveWorker`), whose class and transitions this
 * module reuses. What differs is the order in `run_internal`: the
 * configuration is fetched first, so that one is available as soon as
 * possible, and the websocket is connected afterwards.
 */
module SyncWorker {
  import opened Wrappers
  import opened ConfigModel
  import opened LiveTypes
  import opened LiveWorker
  import ClientConfiguration

  /** The first fetch gives a configuration, invalid data or a transient error. */
  predicate FirstFetchRecovers(answers: seq<Result<ConfigurationJson, NetworkError>>) {
    |answers| > 0 && (answers[0].Ok? || RecoverableError(answers[0].error).Ok?)
  }

  /** The first fetch fails with an error that stops the thread. */
  predicate FirstFetchFatal(answers: seq<Result<ConfigurationJson, NetworkError>>) {
    |answers| > 0 && answers[0].Err? && RecoverableError(answers[0].error).Err?
  }

  /**
   * `run_internal` of the older thread: fetch, connect, then handle
   * messages until the socket is lost (fetch again and reconnect) or a
   * termination check says stop (`break 'outer`, then `Ok`). The run also
   * ends with `Ok` when an input it needs has run out.
   *
   * Besides the guarantees the newer run gives, the server is always asked
   * for a configuration before anything else: a non-empty list of answers
   * is always drawn from, and a fatal first answer ends the run before any
   * connection attempt.
   */
  method RunInternal(w: UpdateThreadWorker, stops: seq<bool>) returns (r: Result<(), LiveError>)
    modifies w, w.server
    ensures old(w.Valid()) ==> w.Valid()
    ensures r.Err? ==> Unrecoverable(r.error)
    ensures w.configuration == old(w.configuration) ||
      (w.configuration.Some? && FromServer(w.configurationId.environmentId, w.configuration.value, old(w.server.answers)))
    ensures |old(w.server.answers)| > 0 ==> |w.server.answers| < |old(w.server.answers)|
    ensures FirstFetchFatal(old(w.server.answers)) ==>
      r == RecoverableError(old(w.server.answers)[0].error) && w.server.sockets == old(w.server.sockets)
    ensures FirstFetchRecovers(old(w.server.answers)) && FirstConnectFatal(old(w.server.sockets)) ==>
      r == RecoverableError(old(w.server.sockets)[0].error)
  {
    ghost var answers0 := w.server.answers;
    ghost var sockets0 := w.server.sockets;
    ghost var fetched := false;
    var si := 0;
    while true
      invariant w.Valid() || (w.configuration == old(w.configuration) && w.currentMode == old(w.currentMode))
      invariant 0 <= si <= |stops|
      invariant |w.server.answers| <= |answers0| && w.server.answers == answers0[|answers0| - |w.server.answers|..]
      invariant w.configuration == old(w.configuration) ||
        (w.configuration.Some? && FromServer(w.configurationId.environmentId, w.configuration.value, answers0))
      invariant !fetched ==> w.server.answers == answers0 && w.server.sockets == sockets0
      invariant fetched ==> |w.server.answers| < |answers0|
      invariant FirstFetchFatal(answers0) ==> !fetched
      invariant FirstFetchRecovers(answers0) && FirstConnectFatal(sockets0) ==> !fetched
      decreases |w.server.answers|
    {
      if |w.server.answers| == 0 {
        return Ok(());
      }
      var outcome;
      outcome, si := Round(w, stops, si, answers0);
      if outcome.Some? {
        return outcome.value;
      }
      fetched := true;
    }
  }

  /**
   * One pass of the outer loop of `run_internal`: fetch, connect, and
   * listen until the socket is lost (`None`: start over) or the run ends
   * (`Some` of its result).
   */
  method Round(w: UpdateThreadWorker, stops: seq<bool>, si0: nat, ghost answers0: seq<Result<ConfigurationJson, NetworkError>>)
    returns (outcome: Option<Result<(), LiveError>>, si: nat)
    requires si0 <= |stops|
    requires |w.server.answers| > 0
    requires |w.server.answers| <= |answers0| && w.server.answers == answers0[|answers0| - |w.server.answers|..]
    modifies w, w.server
    ensures si0 <= si <= |stops|
    ensures outcome.None? ==> w.Valid()
    ensures outcome.Some? ==> old(w.Valid()) ==> w.Valid()
    ensures outcome.Some? && outcome.value.Err? ==> Unrecoverable(outcome.value.error)
    ensures |w.server.answers| < old(|w.server.answers|)
    ensures |w.server.answers| <= |answers0| && w.server.answers == answers0[|answers0| - |w.server.answers|..]
    ensures w.configuration == old(w.configuration) ||
      (w.configuration.Some? && FromServer(w.configurationId.environmentId, w.configuration.value, answers0))
    ensures FirstFetchFatal(old(w.server.answers)) ==>
      outcome == Some(RecoverableError(old(w.server.answers)[0].error)) && w.server.sockets == old(w.server.sockets)
    ensures FirstFetchRecovers(old(w.server.answers)) && FirstConnectFatal(old(w.server.sockets)) ==>
      outcome == Some(RecoverableError(old(w.server.sockets)[0].error))
  {
    si := si0;
    var updated := w.UpdateFetched(answers0);
    if updated.Err? {
      return Some(updated), si;
    }
    if |w.server.sockets| == 0 {
      return Some(Ok(())), si;
    }
    var connected := w.server.GetConfigurationMonitoringWebsocket();
    if connected.Err? {
      var recoverable := RecoverableError(connected.error);
      if recoverable.Err? {
        return Some(recoverable), si;
      }
      return None, si;
    }
    outcome, si := w.Listen(stops, si, answers0);
  }

  /** `run` of the older thread: the result is published as `Defunct`. */
  method Run(w: UpdateThreadWorker, stops: seq<bool>) returns (r: Result<(), LiveError>)
    modifies w, w.server
    ensures w.currentMode == Defunct(r)
    ensures w.Valid()
    ensures r.Err? ==> Unrecoverable(r.error)
    ensures w.configuration == old(w.configuration) ||
      (w.configuration.Some? && FromServer(w.configurationId.environmentId, w.configuration.value, old(w.server.answers)))
    ensures FirstFetchFatal(old(w.server.answers)) ==> r == RecoverableError(old(w.server.answers)[0].error)
    ensures FirstFetchRecovers(old(w.server.answers)) && FirstConnectFatal(old(w.server.sockets)) ==>
      r == RecoverableError(old(w.server.sockets)[0].error)
  {
    r := RunInternal(w, stops);
    w.currentMode := Defunct(r);
  }

  // ---------------------------------------------------------------------------
  // The file's tests
  // ---------------------------------------------------------------------------

  /** The environment the tests' worker is bound to. */
  const TestEnvironment: string := "environment_id"

  /** A server answer that is valid for `TestEnvironment` (an environment without resources). */
  function ValidJson(): ConfigurationJson {
    ConfigurationJson([Environment(TestEnvironment, [], [])], [])
  }

  lemma ValidJsonBuilds()
    ensures ClientConfiguration.New(TestEnvironment, ValidJson()) == Ok(ClientConfiguration.Configuration(map[], map[]))
  {
    assert ClientConfiguration.FindEnvironment(ValidJson().environments, TestEnvironment) == Some(Environment(TestEnvironment, [], []));
  }

  /** A valid answer stores the configuration and the worker goes online. */
  lemma UpdateHappy()
    ensures Update(TestEnvironment, None, CurrentMode.Offline(Initializing), Ok(ValidJson())) ==
      Step(Ok(()), Some(ClientConfiguration.Configuration(map[], map[])), Online)
  {
    ValidJsonBuilds();
  }

  /** An answer without the worker's environment leaves no configuration and marks the data invalid. */
  lemma UpdateInvalidConfiguration(json: ConfigurationJson)
    requires forall i | 0 <= i < |json.environments| :: json.environments[i].environmentId != TestEnvironment
    ensures Update(TestEnvironment, None, CurrentMode.Offline(Initializing), Ok(json)) ==
      Step(Ok(()), None, CurrentMode.Offline(ConfigurationDataInvalid))
  {
    assert ClientConfiguration.FindEnvironment(json.environments, TestEnvironment).None?;
  }

  /** A protocol error takes an online worker offline and keeps an existing offline reason. */
  lemma UpdateRecoverableError()
    ensures Update(TestEnvironment, None, Online, Err(ProtocolError)) ==
      Step(Ok(()), None, CurrentMode.Offline(FailedToGetNewConfiguration))
    ensures Update(TestEnvironment, None, CurrentMode.Offline(Initializing), Err(ProtocolError)) ==
      Step(Ok(()), None, CurrentMode.Offline(Initializing))
  {
  }

  /** A poisoned lock on the server side is returned as an error. */
  lemma UpdateNonRecoverableError()
    ensures Update(TestEnvironment, None, Online, Err(NetworkError.CannotAcquireLock)).result == Err(LiveError.CannotAcquireLock)
  {
  }

  /**
   * The message sequence of the websocket test: a heartbeat while
   * initializing fetches and goes online; with the configuration then
   * cleared, a second heartbeat fetches nothing (no answer is needed); a
   * ping changes nothing; an empty text fetches again; a close drops the
   * socket, goes offline and keeps the configuration.
   */
  lemma WebsocketMessagesGood()
    ensures var c := ClientConfiguration.Configuration(map[], map[]);
      HandleMessage(TestEnvironment, None, CurrentMode.Offline(Initializing), Received(Text(ServerHeartbeat)), [Ok(ValidJson())]) ==
        Step(Ok(true), Some(c), Online) &&
      HandleMessage(TestEnvironment, None, Online, Received(Text(ServerHeartbeat)), []) == Step(Ok(true), None, Online) &&
      HandleMessage(TestEnvironment, None, Online, Received(OtherMessage), []) == Step(Ok(true), None, Online) &&
      HandleMessage(TestEnvironment, None, Online, Received(Text("")), [Ok(ValidJson())]) == Step(Ok(true), Some(c), Online) &&
      HandleMessage(TestEnvironment, Some(c), Online, Received(Close), []) ==
        Step(Ok(false), Some(c), CurrentMode.Offline(WebsocketClosed))
  {
    ValidJsonBuilds();
    assert ServerHeartbeat != "";
  }

  /**
   * A failing fetch triggered by a message is returned as an error, while
   * a heartbeat received online succeeds without fetching.
   */
  lemma WebsocketUpdateFails()
    ensures HandleMessage(TestEnvironment, None, CurrentMode.Offline(Initializing), Received(Text(ServerHeartbeat)), [Err(UrlParseError(""))]).result.Err?
    ensures HandleMessage(TestEnvironment, None, CurrentMode.Offline(Initializing), Received(Text("")), [Err(UrlParseError(""))]).result.Err?
    ensures HandleMessage(TestEnvironment, None, Online, Received(Text(ServerHeartbeat)), []).result.Ok?
  {
  }

  /** A read error drops the socket and marks the websocket as failed. */
  lemma WebsocketReadFailure()
    ensures HandleMessage(TestEnvironment, None, Online, ReadFailed, []) ==
      Step(Ok(false), None, CurrentMode.Offline(WebsocketError))
  {
  }

  /** An unparsable URL on the first fetch ends the run at once. */
  method RunInitialConfigurationFailsUnrecoverably() returns (r: Result<(), LiveError>, mode: CurrentMode)
    ensures r == Err(UnrecoverableError(""))
    ensures mode == Defunct(Err(UnrecoverableError("")))
  {
    var server := new ServerClient([Err(UrlParseError(""))], [], []);
    var w := new UpdateThreadWorker(server, ConfigurationId("", TestEnvironment, ""), None, Online);
    r := Run(w, []);
    mode := w.currentMode;
  }

  /** An invalid header on the websocket connection ends the run after the first fetch. */
  method RunGetWebsocketFails() returns (r: Result<(), LiveError>, mode: CurrentMode)
    ensures r == Err(UnrecoverableError(""))
    ensures mode == Defunct(Err(UnrecoverableError("")))
  {
    var server := new ServerClient([Ok(ValidJson())], [Err(InvalidHeaderValue(""))], []);
    var w := new UpdateThreadWorker(server, ConfigurationId("", TestEnvironment, ""), None, Online);
    r := Run(w, []);
    mode := w.currentMode;
  }
}
