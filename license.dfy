/** The license bookkeeping of the renderer: store-update rules driven by the
    clock (passed in as `now`, in milliseconds), the classifiers sent to the
    pricing page, the device-limit check and the single upgrade dialog. */
module License {
  import opened Models
  import opened KeyValue

  const LICENSE_FREE := "barcode-to-pc-free"
  const LICENSE_BASIC := "barcode-to-pc-basic-license"
  const LICENSE_PRO := "barcode-to-pc-pro-license"
  const LICENSE_UNLIMITED := "barcode-to-pc-unlimited-license"

  /** `1000 * 60 * 60 * 24 * 31`: the "one month" added to the clock. */
  const MONTH_MS: int := 1000 * 60 * 60 * 24 * 31
  const DAY_MS: int := 86400000
  /** `Number.MAX_SAFE_INTEGER`. */
  const MAX_SAFE_INTEGER: int := 9007199254740991

  /** The status fields and the store after a call of `updateSubscriptionStatus`. */
  datatype LicenseState = LicenseState(activeLicense: string, serial: string, entries: Entries)

  /** `now > store.get(STORAGE_NEXT_CHARGE_DATE)`; against an absent date
      (undefined) the comparison is false. */
  predicate DueForReset(entries: Entries, now: int)
  {
    match NumAt(entries, StorageNextChargeDate)
    case Some(d) => now > d
    case None => false
  }

  /** `updateSubscriptionStatus(serial)` at time `now`. */
  function UpdatedStatus(entries: Entries, serial: string, now: int): (r: LicenseState)
    ensures r.activeLicense == TextOr(entries, StorageSubscription, LICENSE_FREE)
    ensures serial != "" ==> r.serial == serial && TextAt(r.entries, StorageSerial) == Some(serial)
    ensures serial == "" ==> r.serial == TextOr(entries, StorageSerial, "")
                             && (StorageSerial in r.entries <==> StorageSerial in entries)
                             && (StorageSerial in entries ==> r.entries[StorageSerial] == entries[StorageSerial])
    ensures DueForReset(entries, now) ==>
              NumAt(r.entries, StorageMonthlyScanCount) == Some(0)
              && NumAt(r.entries, StorageNextChargeDate) == Some(now + MONTH_MS)
    ensures !DueForReset(entries, now) ==>
              forall k :: k in {StorageMonthlyScanCount, StorageNextChargeDate} ==>
                (k in r.entries <==> k in entries) && (k in entries ==> r.entries[k] == entries[k])
    ensures forall k :: k !in {StorageSerial, StorageMonthlyScanCount, StorageNextChargeDate} ==>
              (k in r.entries <==> k in entries) && (k in entries ==> r.entries[k] == entries[k])
  {
    var license := TextOr(entries, StorageSubscription, LICENSE_FREE);
    var (serial', afterSerial) :=
      if serial != "" then (serial, entries[StorageSerial := Text(serial)])
      else (TextOr(entries, StorageSerial, ""), entries);
    var afterReset :=
      if DueForReset(entries, now)
      then afterSerial[StorageMonthlyScanCount := Num(0)][StorageNextChargeDate := Num(now + MONTH_MS)]
      else afterSerial;
    LicenseState(license, serial', afterReset)
  }

  /** A reset moves the next charge date past `now`, so a second update at
      the same time (or any time up to a month later) resets nothing. */
  lemma NoDoubleReset(entries: Entries, serial: string, now: int, later: int)
    requires DueForReset(entries, now) && now <= later <= now + MONTH_MS
    ensures !DueForReset(UpdatedStatus(entries, serial, now).entries, later)
  {
  }

  /** A serial passed in is saved and is the one loaded by a later call
      without a serial. */
  lemma SerialRoundTrip(entries: Entries, serial: string, now: int, later: int)
    requires serial != ""
    ensures UpdatedStatus(UpdatedStatus(entries, serial, now).entries, "", later).serial == serial
  {
    var e1 := UpdatedStatus(entries, serial, now).entries;
    assert TextAt(e1, StorageSerial) == Some(serial);
  }

  /** The first-start block of the constructor: only when no next charge date
      is stored (`store.get(..., null) === null`). */
  function FirstStart(entries: Entries, now: int): (r: Entries)
    ensures StorageNextChargeDate in r
    ensures StorageNextChargeDate !in entries ==>
              r[StorageNextChargeDate] == Num(now + MONTH_MS) && NumAt(r, StorageLastScanCountResetDate) == Some(0)
    ensures StorageNextChargeDate in entries ==> r == entries
    ensures forall k :: k !in {StorageNextChargeDate, StorageLastScanCountResetDate} ==>
              (k in r <==> k in entries) && (k in entries ==> r[k] == entries[k])
  {
    if StorageNextChargeDate in entries then entries
    else entries[StorageNextChargeDate := Num(now + MONTH_MS)][StorageLastScanCountResetDate := Num(0)]
  }

  /** What the constructor does to the store: the status update runs first,
      then the first-start block. */
  function Startup(entries: Entries, now: int): Entries
  {
    FirstStart(UpdatedStatus(entries, "", now).entries, now)
  }

  /** On first start the status update finds no date to compare against, so
      the scan count is not reset, and the first-start block sets both dates;
      on a later start the last-reset date is left alone. A store that has
      been through one start never runs the first-start block again. */
  lemma StartupDates(entries: Entries, now: int)
    ensures StorageNextChargeDate !in entries ==>
              && Startup(entries, now)[StorageNextChargeDate] == Num(now + MONTH_MS)
              && Startup(entries, now)[StorageLastScanCountResetDate] == Num(0)
              && (StorageMonthlyScanCount in Startup(entries, now) <==> StorageMonthlyScanCount in entries)
              && (StorageMonthlyScanCount in entries ==>
                    Startup(entries, now)[StorageMonthlyScanCount] == entries[StorageMonthlyScanCount])
    ensures StorageNextChargeDate in entries ==>
              && (StorageLastScanCountResetDate in Startup(entries, now) <==> StorageLastScanCountResetDate in entries)
              && (StorageLastScanCountResetDate in entries ==>
                    Startup(entries, now)[StorageLastScanCountResetDate] == entries[StorageLastScanCountResetDate])
    ensures StorageNextChargeDate in Startup(entries, now)
    ensures forall later :: Startup(entries, now) == FirstStart(Startup(entries, now), later)
  {
    var u := UpdatedStatus(entries, "", now);
    if StorageNextChargeDate !in entries {
      assert !DueForReset(entries, now);
      assert StorageNextChargeDate !in u.entries;
    }
  }

  /** The store updates keep every key holding a value of its own kind. */
  lemma UpdatesWellTyped(entries: Entries, serial: string, now: int)
    requires WellTyped(entries)
    ensures WellTyped(UpdatedStatus(entries, serial, now).entries)
    ensures WellTyped(Startup(entries, now))
  {
  }

  /** `canUseCSVAppend` and `canUseNumberParameter`: both resolve true. */
  function CanUseCSVAppend(): bool { true }
  function CanUseNumberParameter(): bool { true }

  /** An output profile's blocks without the `number` component. */
  function WithoutNumberBlocks(blocks: seq<OutputBlock>): (r: seq<OutputBlock>)
    ensures |r| <= |blocks|
    ensures forall i :: 0 <= i < |r| ==> r[i].value != "number"
  {
    if blocks == [] then []
    else if blocks[0].value == "number" then WithoutNumberBlocks(blocks[1..])
    else [blocks[0]] + WithoutNumberBlocks(blocks[1..])
  }

  /** The filter keeps exactly the blocks whose value is not `number`. */
  lemma {:induction false} WithoutNumberBlocksMembers(blocks: seq<OutputBlock>)
    ensures forall b :: b in WithoutNumberBlocks(blocks) <==> b in blocks && b.value != "number"
  {
    if blocks != [] {
      WithoutNumberBlocksMembers(blocks[1..]);
      assert forall b :: b in blocks <==> b == blocks[0] || b in blocks[1..];
    }
  }

  /** The filter keeps order and repetitions: it distributes over
      concatenation. */
  lemma {:induction false} WithoutNumberBlocksAppend(a: seq<OutputBlock>, b: seq<OutputBlock>)
    ensures WithoutNumberBlocks(a + b) == WithoutNumberBlocks(a) + WithoutNumberBlocks(b)
  {
    if a == [] {
      assert a + b == b;
    } else {
      var ab := a + b;
      assert ab[0] == a[0] && ab[1..] == a[1..] + b;
      WithoutNumberBlocksAppend(a[1..], b);
      if a[0].value == "number" {
        assert WithoutNumberBlocks(ab) == WithoutNumberBlocks(ab[1..]);
        assert WithoutNumberBlocks(a) == WithoutNumberBlocks(a[1..]);
      } else {
        assert WithoutNumberBlocks(ab) == [a[0]] + WithoutNumberBlocks(ab[1..]);
        assert WithoutNumberBlocks(a) == [a[0]] + WithoutNumberBlocks(a[1..]);
      }
    }
  }

  /** On a single block the filter keeps it exactly when its value is not
      `number`; together with the lemma above this fixes the result. */
  lemma WithoutNumberBlocksSingle(x: OutputBlock)
    ensures WithoutNumberBlocks([x]) == if x.value == "number" then [] else [x]
  {
    assert [x][1..] == [];
  }

  /** The loop of `downgradeToFree` over the output profiles: each profile
      keeps its name and loses its `number` blocks. */
  method StripNumberParameter(profiles: seq<OutputProfile>) returns (r: seq<OutputProfile>)
    ensures |r| == |profiles|
    ensures forall i :: 0 <= i < |r| ==>
              r[i].name == profiles[i].name && r[i].outputBlocks == WithoutNumberBlocks(profiles[i].outputBlocks)
    ensures forall i, b :: 0 <= i < |r| && b in r[i].outputBlocks ==> b.value != "number"
  {
    r := profiles;
    var i := 0;
    while i < |r|
      invariant 0 <= i <= |r| == |profiles|
      invariant forall j :: 0 <= j < i ==>
                  r[j].name == profiles[j].name && r[j].outputBlocks == WithoutNumberBlocks(profiles[j].outputBlocks)
      invariant forall j :: i <= j < |r| ==> r[j] == profiles[j]
    {
      r := r[i := r[i].(outputBlocks := WithoutNumberBlocks(r[i].outputBlocks))];
      i := i + 1;
    }
  }

  /** The output profiles with every `number` block removed. */
  function StrippedProfiles(profiles: seq<OutputProfile>): (r: seq<OutputProfile>)
    ensures |r| == |profiles|
    ensures forall i :: 0 <= i < |r| ==>
              r[i].name == profiles[i].name && r[i].outputBlocks == WithoutNumberBlocks(profiles[i].outputBlocks)
  {
    seq(|profiles|, i requires 0 <= i < |profiles| =>
      profiles[i].(outputBlocks := WithoutNumberBlocks(profiles[i].outputBlocks)))
  }

  /** The settings `downgradeToFree` writes back, given the answers of
      `canUseCSVAppend` and `canUseNumberParameter`. */
  function Downgraded(s: SettingsModel, csvAppend: bool, numberParameter: bool): (r: SettingsModel)
    ensures r.appendCSVEnabled == (s.appendCSVEnabled && csvAppend)
    ensures numberParameter ==> r.outputProfiles == s.outputProfiles
    ensures !numberParameter ==> r.outputProfiles == StrippedProfiles(s.outputProfiles)
    ensures !numberParameter ==> forall i, b :: 0 <= i < |r.outputProfiles| && b in r.outputProfiles[i].outputBlocks ==> b.value != "number"
    ensures r.(appendCSVEnabled := s.appendCSVEnabled, outputProfiles := s.outputProfiles) == s
  {
    var s1 := if csvAppend then s else s.(appendCSVEnabled := false);
    if numberParameter then s1 else s1.(outputProfiles := StrippedProfiles(s1.outputProfiles))
  }

  /** `downgradeToFree` on the settings snapshot, with the two feature checks
      given as arguments. */
  method DowngradeSettings(s: SettingsModel, csvAppend: bool, numberParameter: bool) returns (r: SettingsModel)
    ensures r == Downgraded(s, csvAppend, numberParameter)
  {
    r := s;
    if !csvAppend {
      r := r.(appendCSVEnabled := false);
    }
    if !numberParameter {
      var profiles := StripNumberParameter(r.outputProfiles);
      r := r.(outputProfiles := profiles);
    }
  }

  /** `deactivate(false)`: the store after `downgradeToFree`. */
  function DowngradedEntries(entries: Entries, defaults: SettingsModel): (r: Entries)
    ensures TextAt(r, StorageSubscription) == Some(LICENSE_FREE)
    ensures StorageSettings in r
    ensures r[StorageSettings] == Prefs(Downgraded(SettingsOr(entries, defaults), CanUseCSVAppend(), CanUseNumberParameter()))
    ensures forall k :: k !in {StorageSubscription, StorageSettings} ==>
              (k in r <==> k in entries) && (k in entries ==> r[k] == entries[k])
  {
    entries[StorageSubscription := Text(LICENSE_FREE)][StorageSettings := Prefs(Downgraded(SettingsOr(entries, defaults), CanUseCSVAppend(), CanUseNumberParameter()))]
  }

  /** Since both limit checks pass, downgrading rewrites the stored settings
      unchanged (CSV append and every output block are kept; a missing
      snapshot is replaced by the default), and a second downgrade changes
      nothing more. */
  lemma DowngradeKeepsSettings(entries: Entries, defaults: SettingsModel)
    ensures DowngradedEntries(entries, defaults)[StorageSettings] == Prefs(SettingsOr(entries, defaults))
    ensures DowngradedEntries(DowngradedEntries(entries, defaults), defaults) == DowngradedEntries(entries, defaults)
  {
  }

  /** `getLicenseName()`; None is the `undefined` of an unknown license. */
  function LicenseName(license: string): (r: Option<string>)
    ensures r.Some? <==> license in {LICENSE_FREE, LICENSE_BASIC, LICENSE_PRO, LICENSE_UNLIMITED}
    ensures license == LICENSE_FREE ==> r == Some("Free")
    ensures license == LICENSE_BASIC ==> r == Some("Basic")
    ensures license == LICENSE_PRO ==> r == Some("Pro")
    ensures license == LICENSE_UNLIMITED ==> r == Some("Unlimited")
  {
    if license == LICENSE_FREE then Some("Free")
    else if license == LICENSE_BASIC then Some("Basic")
    else if license == LICENSE_PRO then Some("Pro")
    else if license == LICENSE_UNLIMITED then Some("Unlimited")
    else None
  }

  /** Different licenses have different names. */
  lemma LicenseNameInjective(l1: string, l2: string)
    requires LicenseName(l1).Some? && LicenseName(l1) == LicenseName(l2)
    ensures l1 == l2
  {
  }

  /** The `customOutputField` flag of the pricing page: false exactly when
      the stored settings have the default single profile with its two
      default blocks. The default snapshot has one profile of two blocks. */
  function CustomOutputField(s: SettingsModel, defaults: SettingsModel): (custom: bool)
    requires |defaults.outputProfiles| >= 1 && |defaults.outputProfiles[0].outputBlocks| >= 2
    ensures !custom <==>
              && |s.outputProfiles| == 1
              && |s.outputProfiles[0].outputBlocks| == 2
              && s.outputProfiles[0].outputBlocks[0].value == defaults.outputProfiles[0].outputBlocks[0].value
              && s.outputProfiles[0].outputBlocks[1].value == defaults.outputProfiles[0].outputBlocks[1].value
  {
    if |s.outputProfiles| != 1 then true
    else if |s.outputProfiles[0].outputBlocks| != 2 then true
    else
      s.outputProfiles[0].outputBlocks[0].value != defaults.outputProfiles[0].outputBlocks[0].value
      || s.outputProfiles[0].outputBlocks[1].value != defaults.outputProfiles[0].outputBlocks[1].value
  }

  /** Renaming blocks or profiles does not make the configuration custom;
      only the block values count. */
  lemma CustomOutputFieldIgnoresNames(s: SettingsModel, t: SettingsModel, defaults: SettingsModel)
    requires |defaults.outputProfiles| >= 1 && |defaults.outputProfiles[0].outputBlocks| >= 2
    requires |s.outputProfiles| == |t.outputProfiles|
    requires |s.outputProfiles| == 1 ==>
               |s.outputProfiles[0].outputBlocks| == |t.outputProfiles[0].outputBlocks|
               && forall i :: 0 <= i < |s.outputProfiles[0].outputBlocks| ==>
                    s.outputProfiles[0].outputBlocks[i].value == t.outputProfiles[0].outputBlocks[i].value
    ensures CustomOutputField(s, defaults) == CustomOutputField(t, defaults)
  {
  }

  /** `parseInt(x / 86400000 + '')` on an integer `x` whose quotient prints
      in decimal notation: the whole days, truncated toward zero. */
  function ElapsedDays(elapsed: int): (days: int)
    ensures elapsed >= 0 ==> 0 <= days && days * DAY_MS <= elapsed < (days + 1) * DAY_MS
    ensures elapsed < 0 ==> days <= 0 && (days - 1) * DAY_MS < elapsed <= days * DAY_MS
  {
    if elapsed >= 0 then elapsed / DAY_MS else -((-elapsed) / DAY_MS)
  }

  datatype Period = Days | Weeks | Months | Years

  function PeriodRank(p: Period): nat
  {
    match p
    case Days => 0
    case Weeks => 1
    case Months => 2
    case Years => 3
  }

  /** `periodOfUseSinceFirstConnection`: each later threshold overrides the
      earlier ones. */
  function PeriodOfUse(days: int): (p: Period)
    ensures p == Days <==> days < 7
    ensures p == Weeks <==> 7 <= days < 31
    ensures p == Months <==> 31 <= days < 365
    ensures p == Years <==> 365 <= days
  {
    var p := Days;
    var p := if days >= 7 then Weeks else p;
    var p := if days >= 31 then Months else p;
    if days >= 365 then Years else p
  }

  /** A longer use never reports a shorter period. */
  lemma PeriodOfUseMonotone(d1: int, d2: int)
    requires d1 <= d2
    ensures PeriodRank(PeriodOfUse(d1)) <= PeriodRank(PeriodOfUse(d2))
  {
  }

  /** The parameters `showPricingPage` appends to the pricing URL. */
  datatype PricingQuery = PricingQuery(currentPlan: string, customOutputField: bool, scanLimitReached: bool,
                                       periodOfUseSinceFirstConnection: Period, refer: string)

  /** `getNOMaxAllowedConnectedDevices()`. */
  function MaxAllowedConnectedDevices(): int { MAX_SAFE_INTEGER }

  /** The device-limit test of `limitNOMaxConnectedDevices`. */
  predicate OverDeviceLimit(connected: nat)
  {
    connected > MaxAllowedConnectedDevices()
  }

  datatype Device = Device(deviceId: string)

  /** An upgrade dialog: where it was opened from, its title and message. */
  datatype Dialog = Dialog(refer: string, title: string, message: string)

  class LicenseProvider {
    const store: Store
    var activeLicense: string
    var serial: string
    /** `upgradeDialog`: the dialog currently shown, if any. */
    var upgradeDialog: Option<Dialog>
    /** Every dialog presented, in order. */
    var presented: seq<Dialog>
    /** Every `kickDevice(device, message)` call, in order. */
    var kicked: seq<(Option<Device>, string)>
    /** Every app event published, in order. */
    var published: seq<string>
    /** Every pricing page opened, in order. */
    var pricingPages: seq<PricingQuery>

    /** The constructor: the status update, then the first-start block. */
    constructor (store: Store, now: int)
      modifies store
      ensures this.store == store
      ensures store.entries == Startup(old(store.entries), now)
      ensures activeLicense == UpdatedStatus(old(store.entries), "", now).activeLicense
      ensures serial == UpdatedStatus(old(store.entries), "", now).serial
      ensures upgradeDialog == None && presented == [] && kicked == [] && published == [] && pricingPages == []
    {
      this.store := store;
      activeLicense := LICENSE_UNLIMITED;
      serial := "";
      upgradeDialog := None;
      presented := [];
      kicked := [];
      published := [];
      pricingPages := [];
      new;
      UpdateSubscriptionStatus("", now);
      if StorageNextChargeDate !in store.entries {
        store.Set(StorageNextChargeDate, Num(now + MONTH_MS));
        store.Set(StorageLastScanCountResetDate, Num(0));
      }
    }

    /** `updateSubscriptionStatus(serial)` at time `now`. */
    method UpdateSubscriptionStatus(serial: string, now: int)
      modifies this`activeLicense, this`serial, store
      ensures LicenseState(activeLicense, this.serial, store.entries) == UpdatedStatus(old(store.entries), serial, now)
    {
      activeLicense := TextOr(store.entries, StorageSubscription, LICENSE_FREE);
      if serial != "" {
        this.serial := serial;
        store.Set(StorageSerial, Text(serial));
      } else {
        this.serial := TextOr(store.entries, StorageSerial, "");
      }
      var canResetScanCount := DueForReset(store.entries, now);
      if canResetScanCount {
        store.Set(StorageMonthlyScanCount, Num(0));
        store.Set(StorageNextChargeDate, Num(now + MONTH_MS));
      }
    }

    /** `deactivate(false)`, that is `downgradeToFree`. */
    method Deactivate(defaults: SettingsModel)
      modifies this`activeLicense, this`published, store
      ensures activeLicense == LICENSE_FREE
      ensures store.entries == DowngradedEntries(old(store.entries), defaults)
      ensures published == old(published) + ["license:deactivate"]
    {
      activeLicense := LICENSE_FREE;
      store.Set(StorageSubscription, Text(activeLicense));
      var settings := SettingsOr(store.entries, defaults);
      settings := DowngradeSettings(settings, CanUseCSVAppend(), CanUseNumberParameter());
      store.Set(StorageSettings, Prefs(settings));
      published := published + ["license:deactivate"];
    }

    function GetLicenseName(): Option<string>
      reads this
    {
      LicenseName(activeLicense)
    }

    /** The query `showPricingPage(refer)` sends at time `now`. */
    function PricingQueryFor(refer: string, now: int, defaults: SettingsModel): PricingQuery
      reads this, store
      requires |defaults.outputProfiles| >= 1 && |defaults.outputProfiles[0].outputBlocks| >= 2
    {
      var firstConnection := match NumAt(store.entries, StorageFirstConnectionDate)
                             case Some(d) => d
                             case None => 0;
      PricingQuery(activeLicense, CustomOutputField(SettingsOr(store.entries, defaults), defaults), false,
                   PeriodOfUse(ElapsedDays(now - firstConnection)), refer)
    }

    /** `showPricingPage(refer)` at time `now`: one page opened, with the
        current plan, the custom-output flag, no scan limit, the period of
        use since the first connection (0 when none is stored) and `refer`. */
    method ShowPricingPage(refer: string, now: int, defaults: SettingsModel)
      requires |defaults.outputProfiles| >= 1 && |defaults.outputProfiles[0].outputBlocks| >= 2
      modifies this`pricingPages
      ensures pricingPages == old(pricingPages) + [PricingQueryFor(refer, now, defaults)]
    {
      var settings := SettingsOr(store.entries, defaults);
      var customOutputField := CustomOutputField(settings, defaults);
      var scanLimitReached := false;
      var firstConnection := match NumAt(store.entries, StorageFirstConnectionDate)
                             case Some(d) => d
                             case None => 0;
      var days := ElapsedDays(now - firstConnection);
      var period := PeriodOfUse(days);
      pricingPages := pricingPages + [PricingQuery(activeLicense, customOutputField, scanLimitReached, period, refer)];
    }

    /** A request for dialog `d`: ignored while a dialog is shown, otherwise
        `d` is presented and remembered. */
    twostate predicate DialogRequested(d: Dialog)
      reads this
    {
      if old(upgradeDialog).Some? then upgradeDialog == old(upgradeDialog) && presented == old(presented)
      else upgradeDialog == Some(d) && presented == old(presented) + [d]
    }

    /** `showUpgradeDialog`: does nothing while a dialog is shown. */
    method ShowUpgradeDialog(refer: string, title: string, message: string)
      modifies this`upgradeDialog, this`presented
      ensures DialogRequested(Dialog(refer, title, message))
    {
      if upgradeDialog.Some? {
        return;
      }
      upgradeDialog := Some(Dialog(refer, title, message));
      presented := presented + [upgradeDialog.value];
    }

    /** The dialog's `onDidDismiss` callback. */
    method OnUpgradeDialogDismissed()
      modifies this`upgradeDialog
      ensures upgradeDialog == None
    {
      upgradeDialog := None;
    }

    /** `hideUpgradeDialog` (on a device connect): dismissing the open dialog
        runs its `onDidDismiss`. */
    method HideUpgradeDialog()
      modifies this`upgradeDialog
      ensures upgradeDialog == None
    {
      if upgradeDialog.Some? {
        OnUpgradeDialogDismissed();
      }
    }

    /** `limitNOMaxConnectedDevices(device, connectedDevices)`; `title` and
        `message` are the translated texts. */
    method LimitNOMaxConnectedDevices(device: Option<Device>, connectedDevices: seq<Device>, title: string, message: string)
      modifies this`kicked, this`upgradeDialog, this`presented
      ensures OverDeviceLimit(|connectedDevices|) ==>
                kicked == old(kicked) + [(device, message)]
                && DialogRequested(Dialog("limitNOMaxConnectedDevices", title, message))
      ensures !OverDeviceLimit(|connectedDevices|) ==>
                kicked == old(kicked) && upgradeDialog == old(upgradeDialog) && presented == old(presented)
    {
      if |connectedDevices| > MaxAllowedConnectedDevices() {
        kicked := kicked + [(device, message)];
        ShowUpgradeDialog("limitNOMaxConnectedDevices", title, message);
      }
    }

    /** The subscription to the connected-devices list: the last device is
        the one checked; on an empty list it is undefined (None). */
    method OnConnectedDevicesListChange(devices: seq<Device>, title: string, message: string)
      modifies this`kicked, this`upgradeDialog, this`presented
      ensures OverDeviceLimit(|devices|) ==>
                kicked == old(kicked) + [(Some(devices[|devices| - 1]), message)]
                && DialogRequested(Dialog("limitNOMaxConnectedDevices", title, message))
      ensures !OverDeviceLimit(|devices|) ==>
                kicked == old(kicked) && upgradeDialog == old(upgradeDialog) && presented == old(presented)
    {
      var lastDevice := if |devices| > 0 then Some(devices[|devices| - 1]) else None;
      LimitNOMaxConnectedDevices(lastDevice, devices, title, message);
    }

    /** The upgrade button of the open dialog: the pricing page, referred by
        the dialog's origin with `Dialog` appended. */
    method OnUpgradeButton(now: int, defaults: SettingsModel)
      requires upgradeDialog.Some?
      requires |defaults.outputProfiles| >= 1 && |defaults.outputProfiles[0].outputBlocks| >= 2
      modifies this`pricingPages
      ensures pricingPages == old(pricingPages) + [PricingQueryFor(upgradeDialog.value.refer + "Dialog", now, defaults)]
    {
      ShowPricingPage(upgradeDialog.value.refer + "Dialog", now, defaults);
    }

    /** The (throttled) subscription to device disconnects: on the free
        license, ask for an upgrade. */
    method OnDeviceDisconnect(title: string, message: string)
      modifies this`upgradeDialog, this`presented
      ensures activeLicense != LICENSE_FREE ==> upgradeDialog == old(upgradeDialog) && presented == old(presented)
      ensures activeLicense == LICENSE_FREE ==> DialogRequested(Dialog("commercialUse", title, message))
    {
      if activeLicense == LICENSE_FREE {
        ShowUpgradeDialog("commercialUse", title, message);
      }
    }
  }
}
