/** The module-level state of the Electron main process (`wss`, `ipcClient`,
    `lastArgv`) and the event handlers that drive it. */
module MainProcess {
  import opened Models
  import opened KeyValue
  import opened Registry
  import opened SettingsHandling
  import opened ConnectionHandling

  class Gateway {
    const settingsHandler: SettingsHandler
    const connectionHandler: ConnectionHandler
    /** `wss != null`: the WebSocket server exists. */
    var wss: bool
    var ipcClient: Host?
    var lastArgv: Option<seq<string>>
    /** The host channel handed to the UI and scans handlers. */
    var uiIpcClient: Host?
    var scansIpcClient: Host?

    ghost predicate Valid()
      reads this, connectionHandler
    {
      && connectionHandler.settingsHandler == settingsHandler
      && connectionHandler.ipcClient == ipcClient
      && uiIpcClient == ipcClient && scansIpcClient == ipcClient
      && (wss ==> ipcClient != null)
      && connectionHandler.Valid()
    }

    /** Module load: the handler singletons are created, nothing is served yet. */
    constructor (store: Store, version: string, port: nat, appName: string)
      ensures Valid() && fresh(settingsHandler) && fresh(connectionHandler)
      ensures settingsHandler.store == store && !settingsHandler.Loaded()
      ensures !wss && ipcClient == null && lastArgv == None
      ensures connectionHandler.wsClients == [] && connectionHandler.wire == []
      ensures connectionHandler.discovery == []
    {
      var s := new SettingsHandler(store);
      settingsHandler := s;
      connectionHandler := new ConnectionHandler(s, version, port, appName);
      wss := false;
      ipcClient := null;
      lastArgv := None;
      uiIpcClient := null;
      scansIpcClient := null;
    }

    /** The IPC `pageLoad` event from `sender`: the first one with a sender
        starts the server, flushes a pending `open-file` argv, announces the
        server and hands the host channel to the handlers. */
    method PageLoad(sender: Host?, m: MdnsOutcome, b: BonjourOutcome)
      requires Valid()
      modifies this, connectionHandler, sender
      ensures Valid()
      ensures old(wss) || sender == null ==>
                unchanged(this) && unchanged(connectionHandler) && (sender != null ==> unchanged(sender))
      ensures !old(wss) && sender != null ==>
                && wss && ipcClient == sender && connectionHandler.ipcClient == sender
                && lastArgv == None
                && sender.log == old(sender.log) + (if old(lastArgv).Some? then [SecondInstanceOpen(old(lastArgv).value)] else [])
                && connectionHandler.Announcement()
                     == Announce(old(connectionHandler.Announcement()), connectionHandler.port,
                                 connectionHandler.appName, m, b).0
                && connectionHandler.discovery
                     == old(connectionHandler.discovery)
                        + Announce(old(connectionHandler.Announcement()), connectionHandler.port,
                                   connectionHandler.appName, m, b).1
                && connectionHandler.wsClients == old(connectionHandler.wsClients)
                && connectionHandler.wire == old(connectionHandler.wire)
    {
      if wss || sender == null {
        return;
      }
      ipcClient := sender;
      if lastArgv.Some? {
        sender.Send(SecondInstanceOpen(lastArgv.value));
        lastArgv := None;
      }
      wss := true;
      connectionHandler.AnnounceServer(m, b);
      connectionHandler.SetIpcClient(sender);
      uiIpcClient := sender;
      scansIpcClient := sender;
    }

    /** `open-file`: remember the argv and forward it at once when a host
        channel exists; the remembered argv is not cleared here. */
    method OpenFile(path: string)
      requires Valid()
      modifies this`lastArgv, ipcClient
      ensures Valid()
      ensures lastArgv == Some(["", path])
      ensures ipcClient != null ==> ipcClient.log == old(ipcClient.log) + [SecondInstanceOpen(["", path])]
    {
      var argv := ["", path];
      lastArgv := Some(argv);
      if ipcClient != null {
        ipcClient.Send(SecondInstanceOpen(argv));
      }
    }

    /** A frame on `ws`: dropped while there is no main window; otherwise it
        goes through the scans handler (`scans`), then the connection
        handler, and what comes back is forwarded to the host under its
        `action`. An exception in the connection handler stops the chain.
        `machineId` is the machine-id lookup of this request, which the
        handshake reply asks for anew each time. The result is None when the
        frame was dropped. */
    method OnMessage(ws: Socket, message: Message, mainWindow: bool, scans: Message -> Message,
                     machineId: Option<string>, generated: string)
      returns (out: Option<Outcome>)
      requires Valid() && ipcClient != null
      modifies connectionHandler`wsClients, connectionHandler`wire, settingsHandler.store, ipcClient
      ensures Valid()
      ensures out.None? <==> !mainWindow
      ensures out.None? ==> unchanged(connectionHandler) && unchanged(settingsHandler.store) && unchanged(ipcClient)
      ensures out.Some? ==> connectionHandler.Dispatched(ws, scans(message), machineId, generated, out.value)
      ensures ipcClient.log == old(ipcClient.log) +
                if out.Some? && out.value.Returned? then [Forwarded(out.value.message.action, out.value.message)] else []
    {
      if !mainWindow {
        return None;
      }
      var scanned := scans(message);
      var result := connectionHandler.OnWsMessage(ws, scanned, machineId, generated);
      out := Some(result);
      if result.Returned? {
        ipcClient.Send(Forwarded(result.message.action, result.message));
      }
    }

    /** The IPC `settings` event together with the connection handler's
        subscription to `onSettingsChanged`. */
    method SettingsEvent(defaults: SettingsModel) returns (s: SettingsModel)
      requires Valid()
      modifies settingsHandler`settings, settingsHandler`emitted, connectionHandler`wire
      ensures Valid()
      ensures s == SettingsOr(settingsHandler.store.entries, defaults)
      ensures settingsHandler.settings == Some(s) && settingsHandler.emitted == old(settingsHandler.emitted) + [s]
      ensures connectionHandler.wire == old(connectionHandler.wire)
                + Updates(connectionHandler.wsClients, UpdateSettings(s.outputProfiles, EnabledEvents(s)))
    {
      s := settingsHandler.OnSettingsIpc(defaults);
      connectionHandler.OnSettingsChanged();
    }

    /** `closeServer()`: only when a server exists, close it and withdraw the
        announcement; a second call does nothing. */
    method CloseServer()
      requires Valid()
      modifies this`wss, connectionHandler`discovery
      ensures Valid() && !wss
      ensures old(wss) ==> connectionHandler.discovery
                             == old(connectionHandler.discovery) + Withdraw(connectionHandler.Announcement())
      ensures !old(wss) ==> connectionHandler.discovery == old(connectionHandler.discovery)
    {
      if wss {
        wss := false;
        connectionHandler.RemoveServerAnnounce();
      }
    }
  }
}
