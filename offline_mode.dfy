/**
 * `src/offline.rs`: the operation mode, whether the client is connected
 * together with the behaviour chosen for when it is not. The two setters
 * only flip `connected`.
 */
module OfflineOperation {
  import opened LiveTypes

  /** `OperationMode`. */
  class OperationMode {
    var connected: bool
    var offlineMode: OfflineMode

    /** `new`: both fields as given. */
    constructor(offlineMode: OfflineMode, connected: bool)
      ensures this.offlineMode == offlineMode && this.connected == connected
    {
      this.connected := connected;
      this.offlineMode := offlineMode;
    }

    /**
     * `i_managed_to_connect`: connected afterwards whatever it was before,
     * so calling it again changes nothing; the offline mode is kept.
     */
    method IManagedToConnect()
      modifies this
      ensures connected
      ensures offlineMode == old(offlineMode)
    {
      connected := true;
    }

    /** `i_lost_connection`: disconnected afterwards whatever it was before; the offline mode is kept. */
    method ILostConnection()
      modifies this
      ensures !connected
      ensures offlineMode == old(offlineMode)
    {
      connected := false;
    }
  }

  /**
   * Any sequence of the two setters leaves the offline mode as it was
   * created and the connection as the last call set it; a repeated call
   * changes nothing.
   */
  method Reconnects(offlineMode: OfflineMode) returns (afterConnect: bool, afterRepeat: bool, afterLoss: bool, kept: bool)
    ensures afterConnect && afterRepeat && !afterLoss && kept
  {
    var m := new OperationMode(offlineMode, false);
    m.IManagedToConnect();
    afterConnect := m.connected;
    m.IManagedToConnect();
    afterRepeat := m.connected;
    m.ILostConnection();
    m.ILostConnection();
    afterLoss := m.connected;
    kept := m.offlineMode == offlineMode;
  }
}
