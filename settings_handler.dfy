/** The settings cell of the main process and the server identity it hands
    out in the handshake reply. */
module SettingsHandling {
  import opened Models
  import opened KeyValue

  /** `getServerUUID` as a function of the machine-id lookup (None when
      `machineIdSync` throws), the store, and the value a fresh `v4()` would
      produce: the identity returned and the store afterwards. */
  function ServerUuid(machineId: Option<string>, store: Entries, generated: string): (r: (string, Entries))
    ensures machineId.Some? ==> r == (machineId.value, store)
    ensures machineId.None? && TextAt(store, UuidKey).Some? ==> r == (TextAt(store, UuidKey).value, store)
    ensures machineId.None? && TextAt(store, UuidKey).None? ==>
              r == (generated, store[UuidKey := Text(generated)])
    ensures TextAt(r.1, UuidKey).Some? ==> machineId.Some? || r.0 == TextAt(r.1, UuidKey).value
  {
    match machineId
    case Some(id) => (id, store)
    case None =>
      match TextAt(store, UuidKey)
      case Some(uuid) => (uuid, store)
      case None => (generated, store[UuidKey := Text(generated)])
  }

  /** The fallback identity is generated once: whatever the generator yields
      on a later call, the same identity comes back and nothing is written. */
  lemma {:induction false} ServerUuidStable(machineId: Option<string>, store: Entries, g1: string, g2: string)
    ensures ServerUuid(machineId, ServerUuid(machineId, store, g1).1, g2) == ServerUuid(machineId, store, g1)
  {
    var (u1, s1) := ServerUuid(machineId, store, g1);
    if machineId.None? {
      assert TextAt(s1, UuidKey) == Some(u1);
    }
  }

  /** The identity is stable only while the lookup answers the same way: a
      successful lookup writes nothing, so a later failing lookup on a store
      without `uuid` answers the generated value instead of the machine id. */
  lemma IdentitySwitchesOnFailedLookup(store: Entries, id: string, g: string)
    requires TextAt(store, UuidKey).None? && g != id
    ensures ServerUuid(Some(id), store, g).0 == id
    ensures ServerUuid(None, ServerUuid(Some(id), store, g).1, g).0 == g
  {
  }

  /** Writing the identity keeps the store well typed. */
  lemma ServerUuidWellTyped(machineId: Option<string>, store: Entries, generated: string)
    requires WellTyped(store)
    ensures WellTyped(ServerUuid(machineId, store, generated).1)
  {
  }

  class SettingsHandler {
    const store: Store
    /** `this.settings`: undefined until the first `settings` IPC event. */
    var settings: Option<SettingsModel>
    /** The values emitted on `onSettingsChanged`, in order. */
    var emitted: seq<SettingsModel>

    constructor (store: Store)
      ensures this.store == store
      ensures settings == None && emitted == []
    {
      this.store := store;
      settings := None;
      emitted := [];
    }

    predicate Loaded()
      reads this
    {
      settings.Some?
    }

    /** The IPC `settings` event: reload the snapshot from the store (or the
        platform default) and publish it. */
    method OnSettingsIpc(defaults: SettingsModel) returns (s: SettingsModel)
      modifies this`settings, this`emitted
      ensures s == SettingsOr(store.entries, defaults)
      ensures settings == Some(s) && emitted == old(emitted) + [s]
      ensures Loaded() && OutputProfiles() == s.outputProfiles
      ensures OnSmartphoneChargeCommand() == s.onSmartphoneChargeCommand
      ensures AppendCSVEnabled() == s.appendCSVEnabled
    {
      s := SettingsOr(store.entries, defaults);
      settings := Some(s);
      emitted := emitted + [s];
    }

    // The getters read the current snapshot; reading `this.settings` while it
    // is still undefined throws, which `Loaded()` rules out.

    function EnableRealtimeStrokes(): bool reads this requires Loaded() { settings.value.enableRealtimeStrokes }
    function EnableOpenInBrowser(): bool reads this requires Loaded() { settings.value.enableOpenInBrowser }
    function OutputProfiles(): seq<OutputProfile> reads this requires Loaded() { settings.value.outputProfiles }
    function NewLineCharacter(): string reads this requires Loaded() { settings.value.newLineCharacter }
    function CsvDelimiter(): string reads this requires Loaded() { settings.value.csvDelimiter }
    function ExportOnlyText(): bool reads this requires Loaded() { settings.value.exportOnlyText }
    function EnableQuotes(): bool reads this requires Loaded() { settings.value.enableQuotes }
    function EnableTray(): bool reads this requires Loaded() { settings.value.enableTray }
    function OpenAutomatically(): Models.OpenAutomatically reads this requires Loaded() { settings.value.openAutomatically }
    function CsvPath(): string reads this requires Loaded() { settings.value.csvPath }
    function AppendCSVEnabled(): bool reads this requires Loaded() { settings.value.appendCSVEnabled }
    function TypeMethod(): string reads this requires Loaded() { settings.value.typeMethod }
    function AutoUpdate(): bool reads this requires Loaded() { settings.value.autoUpdate }
    function OnSmartphoneChargeCommand(): string reads this requires Loaded() { settings.value.onSmartphoneChargeCommand }

    /** Each getter reads the matching field of the current snapshot. */
    static lemma GettersReadSnapshot(h: SettingsHandler, s: SettingsModel)
      requires h.settings == Some(s)
      ensures h.EnableRealtimeStrokes() == s.enableRealtimeStrokes && h.EnableOpenInBrowser() == s.enableOpenInBrowser
      ensures h.OutputProfiles() == s.outputProfiles && h.NewLineCharacter() == s.newLineCharacter
      ensures h.CsvDelimiter() == s.csvDelimiter && h.ExportOnlyText() == s.exportOnlyText
      ensures h.EnableQuotes() == s.enableQuotes && h.EnableTray() == s.enableTray
      ensures h.OpenAutomatically() == s.openAutomatically && h.CsvPath() == s.csvPath
      ensures h.AppendCSVEnabled() == s.appendCSVEnabled && h.TypeMethod() == s.typeMethod
      ensures h.AutoUpdate() == s.autoUpdate && h.OnSmartphoneChargeCommand() == s.onSmartphoneChargeCommand
    {
    }

    /** `getServerUUID()`; `machineId` is what this call's `machineIdSync()`
        yields (None when it throws), `generated` what `v4()` would return. */
    method GetServerUUID(machineId: Option<string>, generated: string) returns (uuid: string)
      modifies store
      ensures (uuid, store.entries) == ServerUuid(machineId, old(store.entries), generated)
    {
      match machineId {
        case Some(id) =>
          uuid := id;
        case None =>
          var stored := TextAt(store.entries, UuidKey);
          if stored.None? {
            uuid := generated;
            store.Set(UuidKey, Text(uuid));
          } else {
            uuid := stored.value;
          }
      }
    }
  }

  /** The static `instance` slot behind `SettingsHandler.getInstance()`. */
  class SettingsSingleton {
    var instance: SettingsHandler?

    constructor ()
      ensures instance == null
    {
      instance := null;
    }

    method GetInstance(store: Store) returns (h: SettingsHandler)
      modifies this
      ensures instance == h
      ensures old(instance) != null ==> h == old(instance)
      ensures old(instance) == null ==> fresh(h) && h.store == store && !h.Loaded()
    {
      if instance == null {
        instance := new SettingsHandler(store);
      }
      h := instance;
    }
  }
}
