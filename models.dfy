/** Values shared by the gateway's handlers: settings snapshots, protocol
    messages, the frames written to sockets and the events sent to the host
    (renderer) process. */
module Models {

  datatype Option<+T> = None | Some(value: T)

  /** A device identity as supplied by the client in its handshake. */
  type DeviceId = string

  /** One block of an output profile; only `value` is inspected by the core. */
  datatype OutputBlock = OutputBlock(name: string, value: string)

  datatype OutputProfile = OutputProfile(name: string, outputBlocks: seq<OutputBlock>)

  datatype OpenAutomatically = Yes | No | Minimized

  /** The server settings snapshot stored under the settings key. */
  datatype SettingsModel = SettingsModel(
    enableRealtimeStrokes: bool,
    enableOpenInBrowser: bool,
    outputProfiles: seq<OutputProfile>,
    newLineCharacter: string,
    csvDelimiter: string,
    exportOnlyText: bool,
    enableQuotes: bool,
    enableTray: bool,
    openAutomatically: OpenAutomatically,
    csvPath: string,
    appendCSVEnabled: bool,
    typeMethod: string,
    autoUpdate: bool,
    onSmartphoneChargeCommand: string)

  /** An opaque handle to one client's WebSocket; two handles are the same
      socket exactly when they are equal. */
  datatype Socket = Socket(id: nat)

  /** A parsed inbound frame: its `action`, the optional `deviceId` of a
      handshake, and the rest of the object, which the core passes on untouched. */
  datatype Message = Message(action: string, deviceId: Option<string>, body: string)

  /** Frames the core writes to a socket. */
  datatype Frame =
    | Pong
    | HeloReply(version: string, outputProfiles: seq<OutputProfile>, events: seq<string>,
                quantityEnabled: bool, serverUUID: string)
    | UpdateSettings(outputProfiles: seq<OutputProfile>, events: seq<string>)
    | KickPayload(response: string)

  /** One `ws.send`: the socket written to and the frame written. */
  datatype Delivery = Delivery(to: Socket, frame: Frame)

  /** The frames a socket has been sent, in order, read off the send log. */
  function Outbox(log: seq<Delivery>, ws: Socket): seq<Frame>
  {
    if log == [] then []
    else Outbox(log[..|log| - 1], ws) + (if log[|log| - 1].to == ws then [log[|log| - 1].frame] else [])
  }

  /** Sending more frames only extends each socket's outbox. */
  lemma {:induction false} OutboxAppend(log: seq<Delivery>, more: seq<Delivery>, ws: Socket)
    ensures Outbox(log + more, ws) == Outbox(log, ws) + Outbox(more, ws)
    decreases |more|
  {
    if more == [] {
      assert log + more == log;
    } else {
      var init := more[..|more| - 1];
      assert (log + more)[..|log + more| - 1] == log + init;
      OutboxAppend(log, init, ws);
    }
  }

  /** Events the core sends to the host process over its IPC channel. */
  datatype HostEvent =
    | WsClose(deviceId: DeviceId)
    | WsError(deviceId: DeviceId, err: string)
    | SecondInstanceOpen(argv: seq<string>)
    | Forwarded(channel: string, message: Message)

  /** The host process's web contents (`ipcClient`): everything sent to it, in order. */
  class Host {
    var log: seq<HostEvent>

    constructor ()
      ensures log == []
    {
      log := [];
    }

    method Send(e: HostEvent)
      modifies this
      ensures log == old(log) + [e]
    {
      log := log + [e];
    }
  }
}
