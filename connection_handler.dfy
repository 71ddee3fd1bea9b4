/** The connection handler of the main process: the device registry, the
    protocol dispatcher, the host-originated `kick`, the settings fan-out,
    the close/error bookkeeping and the mdns/bonjour announcement. */
module ConnectionHandling {
  import opened Models
  import opened KeyValue
  import opened Registry
  import opened SettingsHandling

  const ACTION_PING := "ping"
  const ACTION_HELO := "helo"
  const EVENT_ON_SMARTPHONE_CHARGE := "on_smartphone_charge"
  /** The DNS-SD service type announced by both mechanisms. */
  const SERVICE_TYPE := "http"

  /** What `onWsMessage` came to: the message it returns, or an exception. */
  datatype Outcome = Returned(message: Message) | Threw

  /** `getEnabledEvents()` for a settings snapshot: the charge event is enabled
      exactly when a charge command is configured (a non-empty string is truthy). */
  function EnabledEvents(s: SettingsModel): (events: seq<string>)
    ensures EVENT_ON_SMARTPHONE_CHARGE in events <==> s.onSmartphoneChargeCommand != ""
    ensures forall e :: e in events ==> e == EVENT_ON_SMARTPHONE_CHARGE
    ensures |events| <= 1
  {
    if s.onSmartphoneChargeCommand != "" then [EVENT_ON_SMARTPHONE_CHARGE] else []
  }

  /** `request && request.deviceId`: present and not the empty string. */
  predicate Truthy(deviceId: Option<string>)
  {
    deviceId.Some? && deviceId.value != ""
  }

  /** The registry after a `helo` on `ws`. */
  function HeloRegistry(es: seq<Entry>, ws: Socket, m: Message): (r: seq<Entry>)
    ensures Truthy(m.deviceId) ==> ToMap(r) == ToMap(es)[m.deviceId.value := ws]
    ensures !Truthy(m.deviceId) ==> r == es
  {
    if Truthy(m.deviceId) then Assign(es, m.deviceId.value, ws) else es
  }

  /** The state of the announcement fields: `mdnsAd`, `bonjour` and
      `fallBackBonjour` hold a value (are truthy). */
  datatype Announcer = Announcer(mdnsAd: bool, bonjour: bool, fallBackBonjour: bool)

  /** Calls the handler makes into the two announcement libraries. */
  datatype DiscoveryCall =
    | MdnsStart(serviceType: string, port: nat)
    | MdnsStop
    | BonjourPublish(name: string, serviceType: string, port: nat)
    | BonjourUnpublishAll

  /** How the mdns attempt goes: the module or the advertisement cannot be
      created, the advertisement is created but `start()` throws, or it starts. */
  datatype MdnsOutcome = MdnsUnavailable | MdnsStartThrows | MdnsStarts

  /** How the bonjour attempt goes: `b()` throws, `publish` throws, or it publishes. */
  datatype BonjourOutcome = BonjourUnavailable | BonjourPublishThrows | BonjourPublishes

  /** `announceServer()`: mdns first; any exception from it falls back to
      bonjour, whose own exception is swallowed. */
  function Announce(a: Announcer, port: nat, appName: string, m: MdnsOutcome, b: BonjourOutcome)
    : (r: (Announcer, seq<DiscoveryCall>))
    ensures m == MdnsStarts ==> r == (a.(mdnsAd := true), [MdnsStart(SERVICE_TYPE, port)])
    ensures MdnsStop !in r.1 && BonjourUnpublishAll !in r.1
    ensures MdnsStart(SERVICE_TYPE, port) in r.1 <==> m != MdnsUnavailable
    ensures BonjourPublish(appName, SERVICE_TYPE, port) in r.1 <==> m != MdnsStarts && b != BonjourUnavailable
    ensures r.0.mdnsAd <==> a.mdnsAd || m != MdnsUnavailable
    ensures r.0.fallBackBonjour <==> a.fallBackBonjour || (m != MdnsStarts && b == BonjourPublishes)
    ensures r.0.bonjour <==> a.bonjour || (m != MdnsStarts && b != BonjourUnavailable)
    ensures |r.1| == (if m != MdnsUnavailable then 1 else 0) + (if m != MdnsStarts && b != BonjourUnavailable then 1 else 0)
    ensures m != MdnsUnavailable ==> r.1[0] == MdnsStart(SERVICE_TYPE, port)
  {
    var afterMdns := if m == MdnsUnavailable then a else a.(mdnsAd := true);
    var mdnsCalls := if m == MdnsUnavailable then [] else [MdnsStart(SERVICE_TYPE, port)];
    if m == MdnsStarts then (afterMdns, mdnsCalls)
    else
      match b
      case BonjourUnavailable => (afterMdns, mdnsCalls)
      case BonjourPublishThrows =>
        (afterMdns.(bonjour := true), mdnsCalls + [BonjourPublish(appName, SERVICE_TYPE, port)])
      case BonjourPublishes =>
        (afterMdns.(bonjour := true, fallBackBonjour := true),
         mdnsCalls + [BonjourPublish(appName, SERVICE_TYPE, port)])
  }

  /** `removeServerAnnounce()`: tear down each mechanism whose field is set. */
  function Withdraw(a: Announcer): (calls: seq<DiscoveryCall>)
    ensures BonjourUnpublishAll in calls <==> a.fallBackBonjour
    ensures MdnsStop in calls <==> a.mdnsAd
    ensures forall c :: c in calls ==> c == MdnsStop || c == BonjourUnpublishAll
    ensures |calls| == (if a.fallBackBonjour then 1 else 0) + (if a.mdnsAd then 1 else 0)
    ensures a.fallBackBonjour ==> calls[0] == BonjourUnpublishAll
  {
    (if a.fallBackBonjour then [BonjourUnpublishAll] else []) + (if a.mdnsAd then [MdnsStop] else [])
  }

  /** Announcing from the initial state and then withdrawing stops exactly the
      mechanisms that were started: mdns when its advertisement was created,
      bonjour when its publish returned; with both failing nothing is torn down. */
  lemma AnnounceThenWithdraw(port: nat, appName: string, m: MdnsOutcome, b: BonjourOutcome)
    ensures var calls := Withdraw(Announce(Announcer(false, false, false), port, appName, m, b).0);
            && (MdnsStop in calls <==> m != MdnsUnavailable)
            && (BonjourUnpublishAll in calls <==> m != MdnsStarts && b == BonjourPublishes)
            && (m == MdnsUnavailable && b != BonjourPublishes ==> calls == [])
  {
  }

  class ConnectionHandler {
    const settingsHandler: SettingsHandler
    /** `app.getVersion()`. */
    const version: string
    /** `Config.PORT` and `Config.APP_NAME`. */
    const port: nat
    const appName: string

    /** `wsClients`, in property order. */
    var wsClients: seq<Entry>
    var ipcClient: Host?
    /** Every `ws.send` the handler has made, in order. */
    var wire: seq<Delivery>

    var mdnsAd: bool
    var bonjour: bool
    var fallBackBonjour: bool
    /** Every call made into the announcement libraries, in order. */
    var discovery: seq<DiscoveryCall>

    ghost predicate Valid()
      reads this
    {
      DistinctKeys(wsClients)
    }

    function Announcement(): Announcer
      reads this
    {
      Announcer(mdnsAd, bonjour, fallBackBonjour)
    }

    constructor (settingsHandler: SettingsHandler, version: string, port: nat, appName: string)
      ensures Valid()
      ensures this.settingsHandler == settingsHandler && this.version == version
      ensures this.port == port && this.appName == appName
      ensures wsClients == [] && ipcClient == null && wire == []
      ensures Announcement() == Announcer(false, false, false) && discovery == []
    {
      this.settingsHandler := settingsHandler;
      this.version := version;
      this.port := port;
      this.appName := appName;
      wsClients := [];
      ipcClient := null;
      wire := [];
      mdnsAd, bonjour, fallBackBonjour := false, false, false;
      discovery := [];
    }

    function GetEnabledEvents(): seq<string>
      reads settingsHandler
      requires settingsHandler.Loaded()
    {
      EnabledEvents(settingsHandler.settings.value)
    }

    /** The IPC `kick` handler: send `response` to the socket registered under
        `deviceId`, if there is one. */
    method Kick(deviceId: DeviceId, response: string)
      modifies this`wire
      ensures deviceId in ToMap(wsClients) ==>
                wire == old(wire) + [Delivery(ToMap(wsClients)[deviceId], KickPayload(response))]
      ensures deviceId !in ToMap(wsClients) ==> wire == old(wire)
    {
      var clients := ToMap(wsClients);
      if deviceId in clients {
        wire := wire + [Delivery(clients[deviceId], KickPayload(response))];
      }
    }

    /** The `onSettingsChanged` subscriber: for each key of `wsClients`, send
        the current output profiles and enabled events to its socket. */
    method OnSettingsChanged()
      requires settingsHandler.Loaded()
      modifies this`wire
      ensures wire == old(wire) + Updates(wsClients,
                UpdateSettings(settingsHandler.OutputProfiles(), GetEnabledEvents()))
      ensures var f := UpdateSettings(settingsHandler.OutputProfiles(), GetEnabledEvents());
              forall ws :: Outbox(wire, ws) == Outbox(old(wire), ws) + seq(BoundCount(wsClients, ws), _ => f)
    {
      var f := UpdateSettings(settingsHandler.OutputProfiles(), GetEnabledEvents());
      var i := 0;
      while i < |wsClients|
        invariant 0 <= i <= |wsClients|
        invariant wire == old(wire) + Updates(wsClients[..i], f)
      {
        wire := wire + [Delivery(wsClients[i].ws, f)];
        i := i + 1;
      }
      assert wsClients[..i] == wsClients;
      forall ws ensures Outbox(wire, ws) == Outbox(old(wire), ws) + seq(BoundCount(wsClients, ws), _ => f) {
        OutboxAppend(old(wire), Updates(wsClients, f), ws);
        BroadcastOutbox(wsClients, f, ws);
      }
    }

    twostate predicate Dispatched(ws: Socket, message: Message, machineId: Option<string>, generated: string, out: Outcome)
      reads this, settingsHandler, settingsHandler.store
    {
      if message.action == ACTION_HELO && settingsHandler.Loaded() then
        var (uuid, entries) := ServerUuid(machineId, old(settingsHandler.store.entries), generated);
        && out == Returned(message)
        && settingsHandler.store.entries == entries
        && wsClients == HeloRegistry(old(wsClients), ws, message)
        && wire == old(wire) + [Delivery(ws, HeloReply(version, settingsHandler.OutputProfiles(),
                                                      GetEnabledEvents(), false, uuid))]
      else
        && out == (if message.action == ACTION_HELO then Threw else Returned(message))
        && settingsHandler.store.entries == old(settingsHandler.store.entries)
        && wsClients == old(wsClients)
        && wire == old(wire) + (if message.action == ACTION_PING then [Delivery(ws, Pong)] else [])
    }

    /** `onWsMessage`: a `ping` gets a pong; a `helo` gets the handshake reply
        and registers `ws` under a truthy `deviceId`; anything else is ignored.
        A `helo` that arrives before the first settings snapshot throws when
        the reply reads `outputProfiles`. `machineId` and `generated` are what
        this call's `machineIdSync()` and `v4()` would yield. */
    method OnWsMessage(ws: Socket, message: Message, machineId: Option<string>, generated: string) returns (out: Outcome)
      requires Valid()
      modifies this`wsClients, this`wire, settingsHandler.store
      ensures Valid()
      ensures Dispatched(ws, message, machineId, generated, out)
    {
      if message.action == ACTION_PING {
        wire := wire + [Delivery(ws, Pong)];
        out := Returned(message);
      } else if message.action == ACTION_HELO {
        if !settingsHandler.Loaded() {
          out := Threw;
          return;
        }
        var profiles := settingsHandler.OutputProfiles();
        var events := GetEnabledEvents();
        var uuid := settingsHandler.GetServerUUID(machineId, generated);
        var reply := HeloReply(version, profiles, events, false, uuid);
        if Truthy(message.deviceId) {
          AssignDistinct(wsClients, message.deviceId.value, ws);
          wsClients := Assign(wsClients, message.deviceId.value, ws);
        }
        wire := wire + [Delivery(ws, reply)];
        out := Returned(message);
      } else {
        out := Returned(message);
      }
    }

    /** A `helo` from `ws` under a non-empty `id`, then a host `kick` of
        `id`: the socket receives the handshake reply and then exactly the
        kick payload. */
    method HeloThenKick(ws: Socket, id: DeviceId, response: string, machineId: Option<string>, generated: string)
      requires Valid() && settingsHandler.Loaded() && id != ""
      modifies this`wsClients, this`wire, settingsHandler.store
      ensures Valid()
      ensures |wire| == |old(wire)| + 2
      ensures wire[|old(wire)|].to == ws && wire[|old(wire)|].frame.HeloReply?
      ensures wire[|old(wire)| + 1] == Delivery(ws, KickPayload(response))
    {
      var out := OnWsMessage(ws, Message(ACTION_HELO, Some(id), ""), machineId, generated);
      Kick(id, response);
    }

    /** `findDeviceIdByWs`: walk the keys in order; the first key bound to `ws`
        settles the answer. */
    method FindDeviceIdByWs(ws: Socket) returns (r: Option<DeviceId>)
      ensures r == FirstKeyOf(wsClients, ws)
    {
      r := None;
      var i := 0;
      while i < |wsClients|
        invariant 0 <= i <= |wsClients|
        invariant r == FirstKeyOf(wsClients[..i], ws)
      {
        FirstKeyOfSnoc(wsClients[..i], wsClients[i], ws);
        assert wsClients[..i + 1] == wsClients[..i] + [wsClients[i]];
        if wsClients[i].ws == ws && r.None? {
          r := Some(wsClients[i].deviceId);
        }
        i := i + 1;
      }
      assert wsClients[..i] == wsClients;
    }

    /** `removeClient`: deletes every key of `wsClients`, whatever `ws` is. */
    method RemoveClient(ws: Socket)
      requires Valid()
      modifies this`wsClients
      ensures Valid() && wsClients == []
    {
      var keys := KeySeq(wsClients);
      ghost var initial := wsClients;
      var i := 0;
      while i < |keys|
        invariant 0 <= i <= |keys|
        invariant wsClients == initial[i..] && DistinctKeys(wsClients)
      {
        DeleteFirst(wsClients);
        wsClients := Delete(wsClients, keys[i]);
        i := i + 1;
      }
    }

    /** `onWsClose`: when a host channel exists, tell it which device closed
        (only if `ws` is found); then clear the registry. */
    method OnWsClose(ws: Socket)
      requires Valid()
      modifies this`wsClients, ipcClient
      ensures Valid() && wsClients == []
      ensures ipcClient != null ==>
                ipcClient.log == old(ipcClient.log) + match FirstKeyOf(old(wsClients), ws)
                                                      case Some(id) => [WsClose(id)]
                                                      case None => []
    {
      if ipcClient != null {
        var deviceId := FindDeviceIdByWs(ws);
        if deviceId.Some? {
          ipcClient.Send(WsClose(deviceId.value));
        }
      }
      RemoveClient(ws);
    }

    /** `onWsError`: as `onWsClose`, with the error passed to the host. */
    method OnWsError(ws: Socket, err: string)
      requires Valid()
      modifies this`wsClients, ipcClient
      ensures Valid() && wsClients == []
      ensures ipcClient != null ==>
                ipcClient.log == old(ipcClient.log) + match FirstKeyOf(old(wsClients), ws)
                                                      case Some(id) => [WsError(id, err)]
                                                      case None => []
    {
      if ipcClient != null {
        var deviceId := FindDeviceIdByWs(ws);
        if deviceId.Some? {
          ipcClient.Send(WsError(deviceId.value, err));
        }
      }
      RemoveClient(ws);
    }

    method SetIpcClient(ipcClient: Host?)
      modifies this`ipcClient
      ensures this.ipcClient == ipcClient
    {
      this.ipcClient := ipcClient;
    }

    /** `announceServer()`, with the library outcomes as parameters. */
    method AnnounceServer(m: MdnsOutcome, b: BonjourOutcome)
      modifies this`mdnsAd, this`bonjour, this`fallBackBonjour, this`discovery
      ensures var (a, calls) := Announce(old(Announcement()), port, appName, m, b);
              Announcement() == a && discovery == old(discovery) + calls
    {
      if m != MdnsUnavailable {
        mdnsAd := true;
        discovery := discovery + [MdnsStart(SERVICE_TYPE, port)];
      }
      if m != MdnsStarts && b != BonjourUnavailable {
        bonjour := true;
        discovery := discovery + [BonjourPublish(appName, SERVICE_TYPE, port)];
        if b == BonjourPublishes {
          fallBackBonjour := true;
        }
      }
    }

    /** `removeServerAnnounce()`; the fields are left as they are. */
    method RemoveServerAnnounce()
      modifies this`discovery
      ensures discovery == old(discovery) + Withdraw(Announcement())
    {
      if fallBackBonjour {
        discovery := discovery + [BonjourUnpublishAll];
      }
      if mdnsAd {
        discovery := discovery + [MdnsStop];
      }
    }
  }

  /** `findDeviceIdByWs` over one more key: an earlier match stands. */
  lemma {:induction false} FirstKeyOfSnoc(es: seq<Entry>, e: Entry, ws: Socket)
    ensures FirstKeyOf(es + [e], ws) ==
              if FirstKeyOf(es, ws).Some? then FirstKeyOf(es, ws)
              else if e.ws == ws then Some(e.deviceId) else None
  {
    if es == [] {
      assert [e][1..] == [];
    } else {
      assert (es + [e])[1..] == es[1..] + [e];
      FirstKeyOfSnoc(es[1..], e, ws);
    }
  }

  /** Two `helo`s under one device identity on two sockets: the identity
      ends up on the second socket, and the first socket, registered nowhere
      before, is no longer found under any key. */
  lemma ReplaceOnSecondHelo(es: seq<Entry>, id: DeviceId, c1: Socket, c2: Socket)
    requires DistinctKeys(es) && c1 != c2
    requires forall i :: 0 <= i < |es| ==> es[i].ws != c1
    ensures ToMap(Assign(Assign(es, id, c1), id, c2))[id] == c2
    ensures FirstKeyOf(Assign(Assign(es, id, c1), id, c2), c1) == None
  {
    var r1 := Assign(es, id, c1);
    var r := Assign(r1, id, c2);
    assert forall e :: e in r1 && e.ws == c1 ==> e.deviceId == id by {
      AssignEntries(es, id, c1);
    }
    assert forall e :: e in r && e.ws == c1 ==> e.deviceId == id by {
      AssignEntries(r1, id, c2);
    }
    assert DistinctKeys(r) by {
      AssignDistinct(es, id, c1);
      AssignDistinct(r1, id, c2);
    }
    ToMapOfDistinct(r);
    forall i | 0 <= i < |r| ensures r[i].ws != c1 {
      assert r[i] in r;
    }
  }

  /** The static `instance` slot behind `ConnectionHandler.getInstance()`. */
  class ConnectionSingleton {
    var instance: ConnectionHandler?

    constructor ()
      ensures instance == null
    {
      instance := null;
    }

    method GetInstance(settingsHandler: SettingsHandler, version: string, port: nat, appName: string)
      returns (h: ConnectionHandler)
      modifies this
      ensures instance == h
      ensures old(instance) != null ==> h == old(instance)
      ensures old(instance) == null ==> fresh(h) && h.settingsHandler == settingsHandler && h.wsClients == []
    {
      if instance == null {
        instance := new ConnectionHandler(settingsHandler, version, port, appName);
      }
      h := instance;
    }
  }
}
