# Barcode to PC server: connection gateway and license bookkeeping

Barcode to PC pairs smartphones that scan barcodes with a desktop
application. This project models the desktop side in Dafny:

- **The Electron main process.** It runs a WebSocket server that phones
  connect to.
  - It answers the `ping` and `helo` handshake frames.
  - It keeps a registry from device identity to socket.
  - It fans each settings change out to every registered socket.
  - It lets the host window `kick` a device.
  - It announces itself on the local network, over mdns with a fallback to
    bonjour.
  - It hands the phones a server identity: the machine id when the lookup
    succeeds, otherwise a UUID kept in the store.
- **The renderer's license provider.** It keeps the subscription status in
  the persistent key-value store and resets the monthly scan counter when
  the charge date passes. It also classifies the usage period for the
  pricing page, enforces the device limit, and shows at most one upgrade
  dialog at a time.

Side effects that leave the modelled code are recorded as values. Each
socket send is appended to a delivery log (`wire`). Each message to the host
window is appended to the `log` of a `Host` object. The calls that start
and stop an announcement (the mdns `start` and `stop`, the bonjour
`publish` and `unpublishAll`) are appended to `discovery`. Loading the two
libraries, creating the mdns advertisement and creating the bonjour
instance appear only through their outcomes, which are parameters. The
clock (`now`), the result of the machine-id lookup (passed to each identity
request, since the code looks it up on every call) and the generated UUID
are parameters too.

Modules, one per source file plus two shared ones:

- `Models` holds the shared data.
- `KeyValue` models the electron-store file as a map.
- `Registry` models `wsClients` as a sequence of entries in property order,
  abstracted by `ToMap`.
- `SettingsHandling`, `ConnectionHandling`, `MainProcess` and `License`
  follow the four source files.

Two behaviours of the code that a reader might not expect:

- The reverse lookup `findDeviceIdByWs` resolves with the **first** key, in
  property order, that is bound to the socket. It does not return the most
  recently registered key (`Registry.FirstKeyWinsOverLatest`).
- `removeClient`, which runs on every close or error, deletes **every** key
  of the registry, not only the closing socket's entry. After any close or
  error the registry is empty, so removing an unregistered connection is not
  a no-op (`ConnectionHandling.ConnectionHandler.OnWsClose`).

## Model

| member | source | states |
|---|---|---|
| KeyValue.Store.Set | electron/src/handlers/settings.handler.ts:100 | writing a key binds it to the value and leaves every other key as it was |
| Registry.Assign | electron/src/handlers/connection.handler.ts:137-139 | `wsClients[id] = ws`: the dictionary gains or replaces exactly that binding |
| Registry.AssignKeys | electron/src/handlers/connection.handler.ts:138 | after an assignment an existing key keeps its position in property order and a new key goes last |
| Registry.AssignDistinct | electron/src/handlers/connection.handler.ts:138 | an assignment keeps the object's keys pairwise distinct |
| Registry.AssignEntries | electron/src/handlers/connection.handler.ts:138 | an assignment adds the new entry and no other |
| Registry.Delete | electron/src/handlers/connection.handler.ts:181 | `delete wsClients[key]` removes that key and keeps every other entry |
| Registry.DeleteEntries | electron/src/handlers/connection.handler.ts:181 | a deletion keeps exactly the entries under other keys |
| Registry.DeleteFirst | electron/src/handlers/connection.handler.ts:180-182 | with distinct keys, deleting the first key in order drops exactly the first entry |
| Registry.InToMap | electron/src/handlers/connection.handler.ts:58 | a key is in the dictionary exactly when some entry carries it |
| Registry.ToMapOfDistinct | electron/src/handlers/connection.handler.ts:27 | with distinct keys the dictionary has one key per entry, and each entry gives its key's socket |
| Registry.FirstKeyOf | electron/src/handlers/connection.handler.ts:169-177 | the reverse lookup finds nothing exactly when no key is bound to the socket; otherwise it returns the first key in order bound to it |
| Registry.FindAfterRegister | electron/src/handlers/connection.handler.ts:137-139 | a socket registered under `id`, and bound to no key before, is found under `id` |
| Registry.FirstKeyWinsOverLatest | electron/src/handlers/connection.handler.ts:169-177 | one socket registered under "a" then "b" is found under "a", the earlier key |
| Registry.BroadcastOutbox | electron/src/handlers/connection.handler.ts:62-70 | a fan-out writes the frame to each socket once per key bound to it, and nothing to a socket bound to no key |
| Registry.BroadcastSize | electron/src/handlers/connection.handler.ts:63 | with distinct keys, a fan-out makes exactly one send per key in the dictionary |
| Models.OutboxAppend | electron/src/handlers/connection.handler.ts:119 | a socket's received frames in a concatenated log are its frames in each part, in order |
| Registry.DeleteAt | electron/src/handlers/connection.handler.ts:181 | with distinct keys, deleting the key of entry `i` removes exactly that entry and keeps the others in their order |
| SettingsHandling.ServerUuid | electron/src/handlers/settings.handler.ts:92-104 | the machine id when available, with the store untouched; otherwise the stored `uuid`, with nothing written; otherwise the generated value, written under `uuid` |
| SettingsHandling.ServerUuidStable | electron/src/handlers/settings.handler.ts:98-101 | a second call returns the same identity and writes nothing, whatever the generator yields then |
| SettingsHandling.IdentitySwitchesOnFailedLookup | electron/src/handlers/settings.handler.ts:92-104 | with no stored `uuid`, a call whose lookup succeeds returns the machine id and stores nothing, so a later call whose lookup fails returns the newly generated value instead |
| SettingsHandling.ServerUuidWellTyped | electron/src/handlers/settings.handler.ts:100 | writing the identity keeps every store key holding a value of its own kind |
| SettingsHandling.SettingsHandler.constructor | electron/src/handlers/settings.handler.ts:14-29 | the settings snapshot is undefined until the first `settings` event and nothing has been emitted |
| SettingsHandling.SettingsHandler.OnSettingsIpc | electron/src/handlers/settings.handler.ts:24-28 | the snapshot becomes the stored settings or the default, that value is emitted once, and the getters return its fields |
| SettingsHandling.SettingsHandler.GettersReadSnapshot | electron/src/handlers/settings.handler.ts:38-79 | each of the fourteen getters returns the matching field of the current settings snapshot |
| SettingsHandling.SettingsHandler.GetServerUUID | electron/src/handlers/settings.handler.ts:92-104 | returns the identity and leaves the store as `ServerUuid` says |
| SettingsHandling.SettingsSingleton.GetInstance | electron/src/handlers/settings.handler.ts:31-36 | the first call creates the handler and every later call returns that same one |
| ConnectionHandling.EnabledEvents | electron/src/handlers/connection.handler.ts:77-83 | the charge event is listed exactly when a charge command is configured, and it is the only event that can be listed |
| ConnectionHandling.HeloRegistry | electron/src/handlers/connection.handler.ts:137-139 | a truthy device identity binds to the socket and replaces any earlier socket under it; otherwise the registry is unchanged |
| ConnectionHandling.Announce | electron/src/handlers/connection.handler.ts:92-104 | mdns is tried first and its start is the first call; bonjour is published only when mdns throws and bonjour is available; at most one start and one publish, and no stop or unpublish, happen while announcing |
| ConnectionHandling.Withdraw | electron/src/handlers/connection.handler.ts:106-114 | bonjour is unpublished exactly when its publish returned, and first; mdns is stopped exactly when its advertisement exists; each at most once, and nothing else is called |
| ConnectionHandling.AnnounceThenWithdraw | electron/src/handlers/connection.handler.ts:92-114 | after announcing from the start state, teardown stops mdns whenever its advertisement was created, even when its start threw, and unpublishes bonjour exactly when the fallback publish returned; nothing is called when mdns was unavailable and the publish did not return |
| ConnectionHandling.ReplaceOnSecondHelo | electron/src/handlers/connection.handler.ts:137-139 | two handshakes under one identity on two sockets leave the identity on the second socket, and the first socket is found under no key |
| ConnectionHandling.FirstKeyOfSnoc | electron/src/handlers/connection.handler.ts:171-175 | walking one more key keeps an earlier match, and otherwise takes the new key when it matches |
| ConnectionHandling.ConnectionHandler.constructor | electron/src/handlers/connection.handler.ts:23-35 | the registry is empty, no host channel is set, nothing has been sent or announced |
| ConnectionHandling.ConnectionHandler.Kick | electron/src/handlers/connection.handler.ts:56-61 | the response goes to the socket under the device identity when that is a key; otherwise nothing is sent; the registry is untouched |
| ConnectionHandling.ConnectionHandler.OnSettingsChanged | electron/src/handlers/connection.handler.ts:62-70 | one update per key, in property order, carrying the current output profiles and enabled events; each socket receives the update once per key bound to it |
| ConnectionHandling.ConnectionHandler.OnWsMessage | electron/src/handlers/connection.handler.ts:116-145 | `ping` gets one pong; `helo` gets one reply with the enabled events, `quantityEnabled` false and the server identity, and registers a truthy identity; other actions send nothing; the message comes back unchanged; a `helo` before any settings snapshot throws and changes nothing |
| ConnectionHandling.ConnectionHandler.HeloThenKick | electron/src/handlers/connection.handler.ts:56-61 | after a handshake under a non-empty identity, a kick of that identity delivers exactly its payload to the same socket |
| ConnectionHandling.ConnectionHandler.FindDeviceIdByWs | electron/src/handlers/connection.handler.ts:169-177 | the key loop returns the first key bound to the socket, or nothing |
| ConnectionHandling.ConnectionHandler.RemoveClient | electron/src/handlers/connection.handler.ts:179-183 | every key is deleted, whatever the socket |
| ConnectionHandling.ConnectionHandler.OnWsClose | electron/src/handlers/connection.handler.ts:147-154 | when a host channel exists, it gets `wsClose` with the first key bound to the socket, if there is one; the registry ends empty |
| ConnectionHandling.ConnectionHandler.OnWsError | electron/src/handlers/connection.handler.ts:156-163 | the same as a close, with the error passed to the host; the registry ends empty |
| ConnectionHandling.ConnectionHandler.SetIpcClient | electron/src/handlers/connection.handler.ts:165-167 | the host channel is replaced |
| ConnectionHandling.ConnectionHandler.AnnounceServer | electron/src/handlers/connection.handler.ts:92-104 | the announcement fields and library calls follow `Announce` |
| ConnectionHandling.ConnectionHandler.RemoveServerAnnounce | electron/src/handlers/connection.handler.ts:106-114 | the library calls follow `Withdraw`, and the fields are left set |
| ConnectionHandling.ConnectionSingleton.GetInstance | electron/src/handlers/connection.handler.ts:85-90 | the first call creates the handler and every later call returns that same one |
| MainProcess.Gateway.constructor | electron/src/main.ts:12-18 | no server, no host channel, no pending argv; the handlers start empty |
| MainProcess.Gateway.PageLoad | electron/src/main.ts:29-45 | nothing happens when a server exists or the sender is null; otherwise the sender becomes the host channel, a pending argv is sent once and cleared, the server exists, the announcement runs once, and the handlers get the channel |
| MainProcess.Gateway.OpenFile | electron/src/main.ts:82-89 | the argv `["", path]` is remembered, and forwarded at once only when a host channel exists |
| MainProcess.Gateway.OnMessage | electron/src/main.ts:50-62 | a frame is dropped without a main window; otherwise it goes through the scans handler, then the connection handler, and what comes back is forwarded under its action; an exception forwards nothing |
| MainProcess.Gateway.SettingsEvent | electron/src/handlers/settings.handler.ts:24-28 | a `settings` event reloads the snapshot and sends every registered socket the new profiles and events |
| MainProcess.Gateway.CloseServer | electron/src/main.ts:92-99 | teardown runs only when a server exists, and the server is gone afterwards, so a second call does nothing |
| License.UpdatedStatus | ionic/src/providers/license/license.ts:101-119 | the license is reloaded with FREE as default; a given serial is stored, an empty one loads the stored serial; the scan count and charge date are reset exactly when now is past the stored charge date; nothing else changes |
| License.NoDoubleReset | ionic/src/providers/license/license.ts:111-119 | after a reset, no second reset happens within the following month |
| License.SerialRoundTrip | ionic/src/providers/license/license.ts:104-109 | a serial passed in is the one a later call without a serial loads |
| License.FirstStart | ionic/src/providers/license/license.ts:77-82 | without a stored charge date, it becomes now plus 31 days and the last-reset date 0, and no other key changes; otherwise nothing is written |
| License.StartupDates | ionic/src/providers/license/license.ts:57-82 | on first start the charge date is now plus 31 days, the last-reset date is 0 and the scan count keeps its stored value; a later start keeps the stored last-reset date; the first-start block never runs twice |
| License.UpdatesWellTyped | ionic/src/providers/license/license.ts:101-119 | the status update and the start-up keep every store key holding a value of its own kind |
| License.WithoutNumberBlocks | ionic/src/providers/license/license.ts:157 | the filter never grows the list and leaves no `number` block |
| License.WithoutNumberBlocksMembers | ionic/src/providers/license/license.ts:157 | a block survives the filter exactly when it was in the list and its value is not `number` |
| License.WithoutNumberBlocksAppend | ionic/src/providers/license/license.ts:157 | the filter distributes over concatenation, so it keeps order and repetitions |
| License.WithoutNumberBlocksSingle | ionic/src/providers/license/license.ts:157 | a single block is dropped exactly when its value is `number` |
| License.StrippedProfiles | ionic/src/providers/license/license.ts:156-158 | as many profiles, each with its own name and its blocks filtered |
| License.StripNumberParameter | ionic/src/providers/license/license.ts:156-158 | every profile keeps its name and loses exactly its `number` blocks |
| License.Downgraded | ionic/src/providers/license/license.ts:151-158 | CSV append survives only when allowed; the profiles are kept as they are when the number parameter is allowed and otherwise stripped of their `number` blocks, profile by profile; nothing else changes |
| License.DowngradeSettings | ionic/src/providers/license/license.ts:151-158 | the in-place rewrite yields `Downgraded` |
| License.DowngradedEntries | ionic/src/providers/license/license.ts:147-161 | the store holds FREE as the subscription and the downgraded settings, and nothing else changes |
| License.DowngradeKeepsSettings | ionic/src/providers/license/license.ts:258-274 | since both feature checks resolve true, the settings are written back unchanged and a second downgrade changes nothing |
| License.LicenseName | ionic/src/providers/license/license.ts:292-299 | the four licenses map to Free, Basic, Pro and Unlimited; anything else is undefined |
| License.LicenseNameInjective | ionic/src/providers/license/license.ts:292-299 | different licenses have different names |
| License.CustomOutputField | ionic/src/providers/license/license.ts:181-197 | false exactly when there is one profile with two blocks whose values equal the default profile's two block values |
| License.CustomOutputFieldIgnoresNames | ionic/src/providers/license/license.ts:186-197 | only the block values decide the flag, not the profile or block names |
| License.ElapsedDays | ionic/src/providers/license/license.ts:204-206 | whole days elapsed, truncated toward zero, as `parseInt` reads a quotient printed in decimal notation |
| License.PeriodOfUse | ionic/src/providers/license/license.ts:203-215 | days below 7, weeks from 7 to 30, months from 31 to 364, years from 365 |
| License.PeriodOfUseMonotone | ionic/src/providers/license/license.ts:207-215 | a longer use never reports a shorter period |
| License.LicenseProvider.constructor | ionic/src/providers/license/license.ts:49-83 | the status update runs first, then the first-start block; no dialog is shown and nothing is logged |
| License.LicenseProvider.UpdateSubscriptionStatus | ionic/src/providers/license/license.ts:101-128 | the fields and the store follow `UpdatedStatus` |
| License.LicenseProvider.Deactivate | ionic/src/providers/license/license.ts:146-178 | without clearing the serial: the license becomes FREE, the store follows `DowngradedEntries`, and `license:deactivate` is published once |
| License.LicenseProvider.ShowPricingPage | ionic/src/providers/license/license.ts:180-227 | opens the pricing page once, with the query of the current plan, the custom-output flag of the stored settings, no scan limit, the usage period since the first connection and the referrer |
| License.LicenseProvider.ShowUpgradeDialog | ionic/src/providers/license/license.ts:301-316 | does nothing while a dialog is shown; otherwise presents exactly the requested dialog once and remembers it |
| License.LicenseProvider.OnUpgradeDialogDismissed | ionic/src/providers/license/license.ts:314 | dismissal clears the remembered dialog |
| License.LicenseProvider.HideUpgradeDialog | ionic/src/providers/license/license.ts:318-322 | after hiding, no dialog is remembered |
| License.LicenseProvider.OnUpgradeButton | ionic/src/providers/license/license.ts:309-311 | the upgrade button opens one pricing page with the full query, referred by the dialog's origin plus `Dialog` |
| License.LicenseProvider.LimitNOMaxConnectedDevices | ionic/src/providers/license/license.ts:234-243 | over the limit, the device is kicked once with the message and the `limitNOMaxConnectedDevices` dialog is presented unless one is already shown; otherwise nothing happens |
| License.LicenseProvider.OnConnectedDevicesListChange | ionic/src/providers/license/license.ts:58-61 | over the limit, the last device of the list is kicked and the dialog is presented unless one is shown; nothing happens within the limit |
| License.LicenseProvider.OnDeviceDisconnect | ionic/src/providers/license/license.ts:63-71 | on the FREE license the commercial-use dialog is presented unless one is already shown; on any other license nothing changes |

## Left out

- The `getLocalAddresses`, `getDefaultLocalAddress` and `getHostname` IPC handlers (electron/src/handlers/connection.handler.ts:38-55) only report the network interfaces and host name; they are not modelled.
- The `electron-store-get`/`electron-store-set` IPC pass-through (electron/src/main.ts:20-26) is a plain read and write of the store, modelled only as `KeyValue.Store.Set`.
- JSON parsing and serialisation: frames are modelled as decoded values. A malformed frame makes `JSON.parse` throw in the message handler, which is not modelled.
- The `.then` callback of `onWsClose`/`onWsError` runs after the registry is cleared; the key it reports is fixed synchronously before that, so only the order of the two effects differs from the model.
- A `findDeviceIdByWs` promise that never settles, when no key is bound to the socket, is modelled as "no host message".
- JavaScript lists integer-like keys first in property order, before insertion order; the registry keeps plain insertion order.
- Keys inherited from the object prototype (`toString`, `__proto__`) would satisfy `in` in the kick handler; the model treats the registry as holding only its own keys.
- A store value of the wrong kind is read as absent by the typed getters, because electron-store is untyped.
- Timestamps are integers; floating-point rounding in `now / 86400000` is not modelled.
- The clock is read twice in `updateSubscriptionStatus`: once for the reset test and once more, when it resets, for the next charge date. The constructor of the license provider reads it again for the first-start block. `UpdatedStatus`, `UpdateSubscriptionStatus` and the constructor use one `now` for all of these reads.
- `deactivate(true)`, which needs the license server over HTTP, is not modelled; only `deactivate(false)` is.
- Dialog texts, translations, button wiring other than the upgrade button, `openExternal` and the URL encoding of the pricing parameters are left out. The query is recorded as a value.
- The one-minute throttle on device disconnects and the awaits inside `showUpgradeDialog` (two calls racing past the null check) are not modelled: each event is handled to completion.
- The replay of past settings to late subscribers of the `ReplaySubject` is not modelled; the one subscriber exists from the start.
- The scans handler (`scansHandler.onWsMessage`) is not part of this model; it is a function parameter. The UI handler's `mainWindow` is a boolean parameter.
- The `close` and `error` wiring inside the connection callback of main.ts, `window-all-closed` and `app.quit` are not modelled; `OnWsClose`, `OnWsError` and `CloseServer` are the operations they call.
- `limitMonthlyScans`, `showV4UpgradeDialog`, `getNOMaxComponents` and `getNOMaxAllowedScansPerMonth` are not part of this model. The ui handler, the preload script and the activation page are also left out.
- License.LicenseProvider.ShowPricingPage: requires the default settings to have a first profile with at least two blocks, which the default snapshot always has.
- ConnectionHandling.ConnectionHandler.HeloThenKick: states the reply's socket and kind, not its fields, which `OnWsMessage` states.
- License.ElapsedDays: JavaScript prints a quotient below 10^-6 in exponent notation, and `parseInt` then reads its mantissa. For an elapsed time of 1 to 86 ms the code gets 1 to 9 days, so weeks at 7 to 8 ms and from 61 to 86 ms; the model gets 0 days.
- License.LicenseProvider.HideUpgradeDialog: the model clears the remembered dialog within the hide event. The code only asks the dialog to dismiss itself, and the field is cleared later by the dismissal callback, so until then new dialog requests are still ignored.
