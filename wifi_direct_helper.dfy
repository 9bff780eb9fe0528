/**
 * `WifiDirectHelper`: the readiness gate that stands before every Wi-Fi
 * Direct session (permissions, Wi-Fi on, hotspot off, location on, checked
 * in that order), the permission list, receiver registration, the peer
 * list and the remove-then-create group sequence. Platform queries arrive
 * as inputs; what the helper asks of the platform is recorded as effects.
 */
module WifiDirect {
  import opened Wrappers

  // ------------------------------------------------------------ permissions

  datatype Permission = AccessFineLocation | AccessCoarseLocation | NearbyWifiDevices

  /** `Build.VERSION_CODES.TIRAMISU`. */
  const Tiramisu: int := 33

  /** `buildPermissionsArray()` for a device running SDK level `sdkInt`. */
  function BuildPermissionsArray(sdkInt: int): (r: seq<Permission>)
    ensures |r| >= 2 && r[0] == AccessFineLocation && r[1] == AccessCoarseLocation
    ensures NearbyWifiDevices in r <==> sdkInt >= Tiramisu
    ensures forall i, j :: 0 <= i < j < |r| ==> r[i] != r[j]
  {
    var base := [AccessFineLocation, AccessCoarseLocation];
    if sdkInt >= Tiramisu then base + [NearbyWifiDevices] else base
  }

  // ------------------------------------------------------ platform queries

  /** The outcome of `LocationManager.isProviderEnabled(provider)`. */
  datatype ProviderQuery = Enabled | Disabled | Throws

  /**
   * `isLocationEnabled()`: GPS, then (only when GPS is off) the network
   * provider, inside one try; an exception counts as disabled.
   */
  function IsLocationEnabled(gps: ProviderQuery, network: ProviderQuery): (r: bool)
    ensures r ==> gps == Enabled || network == Enabled
    ensures gps != Throws && network != Throws ==> (r <==> gps == Enabled || network == Enabled)
    ensures gps == Throws ==> !r
    ensures gps == Enabled ==> r
  {
    match gps
    case Throws => false
    case Enabled => true
    case Disabled => network == Enabled
  }

  /** What the platform answers when the gate runs. */
  datatype Environment = Environment(
    hasPermissions: bool,
    wifiEnabled: bool,
    hotspotOn: bool,          // `isHotspotOn()`, false when the reflective call fails
    gps: ProviderQuery,
    network: ProviderQuery,
    wirelessSettingsThrows: bool)

  // ------------------------------------------------------------------- gate

  datatype Precondition = PermissionsGranted | WifiEnabled | HotspotOff | LocationEnabled

  /** The order in which `checkAndProceed()` tests the preconditions. */
  const CheckOrder: seq<Precondition> := [PermissionsGranted, WifiEnabled, HotspotOff, LocationEnabled]

  function Rank(c: Precondition): (i: nat)
    ensures i < |CheckOrder| && CheckOrder[i] == c
  {
    match c
    case PermissionsGranted => 0
    case WifiEnabled => 1
    case HotspotOff => 2
    case LocationEnabled => 3
  }

  predicate Holds(env: Environment, c: Precondition)
  {
    match c
    case PermissionsGranted => env.hasPermissions
    case WifiEnabled => env.wifiEnabled
    case HotspotOff => !env.hotspotOn
    case LocationEnabled => IsLocationEnabled(env.gps, env.network)
  }

  datatype GateOutcome = Ready | Blocked(unmet: Precondition)

  /** The branch `checkAndProceed()` takes. */
  function Gate(env: Environment): (g: GateOutcome)
    ensures g == Ready <==> forall c :: Holds(env, c)
    ensures g.Blocked? ==> !Holds(env, g.unmet)
    ensures g.Blocked? ==> forall c :: Rank(c) < Rank(g.unmet) ==> Holds(env, c)
  {
    if !env.hasPermissions then assert !Holds(env, PermissionsGranted); Blocked(PermissionsGranted)
    else if !env.wifiEnabled then assert !Holds(env, WifiEnabled); Blocked(WifiEnabled)
    else if env.hotspotOn then assert !Holds(env, HotspotOff); Blocked(HotspotOff)
    else if !IsLocationEnabled(env.gps, env.network) then assert !Holds(env, LocationEnabled); Blocked(LocationEnabled)
    else Ready
  }

  /** Settings screens the helper can open. */
  datatype Screen = WifiSettings | LocationSourceSettings | WirelessSettings

  /** What the helper asks of the platform and the user. */
  datatype Effect =
    | RegisterReceiver
    | UnregisterReceiver
    | LaunchPermissionRequest(permissions: seq<Permission>)
    | Toast(text: string)
    | OpenSettings(screen: Screen)
    | InvokeReady

  const PermissionsToast := "Permissions required for Wi-Fi Direct"
  const WifiOffToast := "Wi-Fi is OFF. Please enable Wi-Fi."
  const HotspotOnToast := "Hotspot is ON. Please disable hotspot for Wi-Fi Direct to work."
  const LocationOffToast := "Location is OFF. Please enable Location."

  /**
   * `openTetheringSettings()`: the wireless settings screen, or the Wi-Fi
   * settings screen when starting the first one throws.
   */
  function TetheringScreen(wirelessThrows: bool): (s: Screen)
    ensures s == WirelessSettings || s == WifiSettings
    ensures s == WifiSettings <==> wirelessThrows
  {
    if wirelessThrows then WifiSettings else WirelessSettings
  }

  /** The remediation `checkAndProceed()` performs for its first unmet precondition. */
  function Remediation(c: Precondition, env: Environment, permissions: seq<Permission>): seq<Effect>
  {
    match c
    case PermissionsGranted => [LaunchPermissionRequest(permissions)]
    case WifiEnabled => [Toast(WifiOffToast), OpenSettings(WifiSettings)]
    case HotspotOff => [Toast(HotspotOnToast), OpenSettings(TetheringScreen(env.wirelessSettingsThrows))]
    case LocationEnabled => [Toast(LocationOffToast), OpenSettings(LocationSourceSettings)]
  }

  /**
   * Everything one run of `checkAndProceed()` does: the remediation of the
   * first unmet precondition, or the ready callback (when one is set).
   */
  function CheckEffects(env: Environment, permissions: seq<Permission>, readySet: bool): (r: seq<Effect>)
    ensures InvokeReady in r <==> readySet && forall c :: Holds(env, c)
    ensures |r| <= 2
    ensures Gate(env).Blocked? ==> r == Remediation(Gate(env).unmet, env, permissions)
    ensures Gate(env).Ready? ==> r == if readySet then [InvokeReady] else []
  {
    match Gate(env)
    case Blocked(c) => Remediation(c, env, permissions)
    case Ready => if readySet then [InvokeReady] else []
  }

  /** A remediation never invokes the ready callback, and opens at most one screen or request. */
  lemma RemediationIsSingle(c: Precondition, env: Environment, permissions: seq<Permission>)
    ensures InvokeReady !in Remediation(c, env, permissions)
    ensures |Remediation(c, env, permissions)| >= 1
    ensures var r := Remediation(c, env, permissions);
      r[|r| - 1].OpenSettings? || r[|r| - 1].LaunchPermissionRequest?
  {
  }

  /**
   * Fixed priority: precondition `c` is remediated exactly when it fails
   * and every precondition checked before it holds.
   */
  lemma {:induction false} GateIsFirstUnmet(env: Environment, c: Precondition)
    ensures Gate(env) == Blocked(c) <==> !Holds(env, c) && forall d :: Rank(d) < Rank(c) ==> Holds(env, d)
  {
    if !Holds(env, c) && forall d :: Rank(d) < Rank(c) ==> Holds(env, d) {
      var g := Gate(env);
      assert g.Blocked?;
      assert !(Rank(g.unmet) < Rank(c));
      assert !(Rank(c) < Rank(g.unmet));
      RankInjective(c, g.unmet);
    }
  }

  lemma RankInjective(c: Precondition, d: Precondition)
    ensures Rank(c) == Rank(d) ==> c == d
  {
  }

  // --------------------------------------------------------- peers and P2P

  /** A `WifiP2pDevice`, as far as the app uses one. */
  datatype Device = Device(deviceName: string, deviceAddress: string)

  /** A `WifiP2pInfo`: the group state and the owner's address, if known. */
  datatype ConnectionInfo = ConnectionInfo(groupFormed: bool, isGroupOwner: bool, groupOwnerAddress: Option<string>)

  /** Calls made on `WifiP2pManager`. */
  datatype P2pCall = RemoveGroup | CreateGroup | Connect(deviceAddress: string)

  /**
   * The P2P calls `createGroupWithRetries()` makes, given whether
   * `removeGroup` succeeded: `create()` runs from both callbacks, so the
   * removal's outcome does not change the calls.
   */
  function GroupCalls(removeSucceeded: bool): (r: seq<P2pCall>)
    ensures |r| == 2 && r[0] == RemoveGroup
    ensures multiset(r)[CreateGroup] == 1
  {
    [RemoveGroup, CreateGroup]
  }

  /** Whether a permission request result granted everything (`result.values.all { it }`). */
  function AllGranted(grants: seq<bool>): (r: bool)
    ensures r <==> forall i :: 0 <= i < |grants| ==> grants[i]
  {
    if grants == [] then true else grants[0] && AllGranted(grants[1..])
  }

  class WifiDirectHelper {
    const permissions: seq<Permission>
    var receiverRegistered: bool
    var peers: seq<Device>
    var hasPeersSubscriber: bool
    /** The copies of the peer list handed to the `onPeersChanged` subscriber, in order. */
    var deliveredPeers: seq<seq<Device>>
    var readyCallbackSet: bool
    /** Platform and UI effects, in the order they happen. */
    var effects: seq<Effect>
    var p2pCalls: seq<P2pCall>

    constructor (sdkInt: int)
      ensures permissions == BuildPermissionsArray(sdkInt)
      ensures !receiverRegistered && peers == [] && !hasPeersSubscriber && deliveredPeers == []
      ensures !readyCallbackSet && effects == [] && p2pCalls == []
    {
      permissions := BuildPermissionsArray(sdkInt);
      receiverRegistered := false;
      peers := [];
      hasPeersSubscriber := false;
      deliveredPeers := [];
      readyCallbackSet := false;
      effects := [];
      p2pCalls := [];
    }

    /** `registerReceivers()`: registers once; a second call does nothing. */
    method RegisterReceivers()
      modifies this
      ensures receiverRegistered
      ensures effects == old(effects) + (if old(receiverRegistered) then [] else [RegisterReceiver])
      ensures peers == old(peers) && hasPeersSubscriber == old(hasPeersSubscriber)
      ensures deliveredPeers == old(deliveredPeers) && readyCallbackSet == old(readyCallbackSet)
      ensures p2pCalls == old(p2pCalls)
    {
      if receiverRegistered {
        return;
      }
      effects := effects + [RegisterReceiver];
      receiverRegistered := true;
    }

    /**
     * `unregisterReceivers()`: does nothing when not registered; otherwise
     * asks the platform, and clears the flag even when that call throws
     * (`platformThrows`): the exception is caught and ignored, so the
     * outcome is the same either way.
     */
    method UnregisterReceivers(platformThrows: bool)
      modifies this
      ensures !receiverRegistered
      ensures effects == old(effects) + (if old(receiverRegistered) then [UnregisterReceiver] else [])
      ensures peers == old(peers) && hasPeersSubscriber == old(hasPeersSubscriber)
      ensures deliveredPeers == old(deliveredPeers) && readyCallbackSet == old(readyCallbackSet)
      ensures p2pCalls == old(p2pCalls)
    {
      if !receiverRegistered {
        return;
      }
      effects := effects + [UnregisterReceiver];
      receiverRegistered := false;
    }

    /** `setOnPeersChanged(cb)`. */
    method SetOnPeersChanged()
      modifies this
      ensures hasPeersSubscriber
      ensures receiverRegistered == old(receiverRegistered) && peers == old(peers)
      ensures deliveredPeers == old(deliveredPeers) && readyCallbackSet == old(readyCallbackSet)
      ensures effects == old(effects) && p2pCalls == old(p2pCalls)
    {
      hasPeersSubscriber := true;
    }

    /**
     * A peer list arriving after a peers-changed broadcast: `peers.clear()`,
     * `peers.addAll(deviceList)`, then a copy to the subscriber.
     */
    method OnPeersAvailable(deviceList: seq<Device>)
      modifies this
      ensures peers == deviceList
      ensures deliveredPeers == old(deliveredPeers) + (if hasPeersSubscriber then [deviceList] else [])
      ensures receiverRegistered == old(receiverRegistered) && hasPeersSubscriber == old(hasPeersSubscriber)
      ensures readyCallbackSet == old(readyCallbackSet)
      ensures effects == old(effects) && p2pCalls == old(p2pCalls)
    {
      peers := [];
      peers := peers + deviceList;
      if hasPeersSubscriber {
        deliveredPeers := deliveredPeers + [peers];
      }
    }

    /** `checkAndProceed()` against the platform's answers `env`. */
    method CheckAndProceed(env: Environment)
      modifies this
      ensures effects == old(effects) + CheckEffects(env, permissions, readyCallbackSet)
      ensures receiverRegistered == old(receiverRegistered) && peers == old(peers)
      ensures hasPeersSubscriber == old(hasPeersSubscriber) && deliveredPeers == old(deliveredPeers)
      ensures readyCallbackSet == old(readyCallbackSet) && p2pCalls == old(p2pCalls)
    {
      if !env.hasPermissions {
        effects := effects + [LaunchPermissionRequest(permissions)];
        return;
      }
      if !env.wifiEnabled {
        effects := effects + [Toast(WifiOffToast), OpenSettings(WifiSettings)];
        return;
      }
      if env.hotspotOn {
        effects := effects + [Toast(HotspotOnToast)];
        if env.wirelessSettingsThrows {
          effects := effects + [OpenSettings(WifiSettings)];
        } else {
          effects := effects + [OpenSettings(WirelessSettings)];
        }
        return;
      }
      if !IsLocationEnabled(env.gps, env.network) {
        effects := effects + [Toast(LocationOffToast), OpenSettings(LocationSourceSettings)];
        return;
      }
      if readyCallbackSet {
        effects := effects + [InvokeReady];
      }
    }

    /** `prepareAndThen(onReady)`: register, remember the callback, run the gate. */
    method PrepareAndThen(env: Environment)
      modifies this
      ensures receiverRegistered && readyCallbackSet
      ensures effects == old(effects) + (if old(receiverRegistered) then [] else [RegisterReceiver])
        + CheckEffects(env, permissions, true)
      ensures peers == old(peers) && hasPeersSubscriber == old(hasPeersSubscriber)
      ensures deliveredPeers == old(deliveredPeers) && p2pCalls == old(p2pCalls)
    {
      RegisterReceivers();
      readyCallbackSet := true;
      CheckAndProceed(env);
    }

    /**
     * The permission launcher's result callback: a toast when anything was
     * refused, then the gate runs again in every case.
     */
    method OnPermissionResult(grants: seq<bool>, env: Environment)
      modifies this
      ensures effects == old(effects) + (if AllGranted(grants) then [] else [Toast(PermissionsToast)])
        + CheckEffects(env, permissions, readyCallbackSet)
      ensures receiverRegistered == old(receiverRegistered) && peers == old(peers)
      ensures hasPeersSubscriber == old(hasPeersSubscriber) && deliveredPeers == old(deliveredPeers)
      ensures readyCallbackSet == old(readyCallbackSet) && p2pCalls == old(p2pCalls)
    {
      var grantedAll := true;
      var i := 0;
      while i < |grants|
        invariant 0 <= i <= |grants|
        invariant grantedAll <==> forall j :: 0 <= j < i ==> grants[j]
      {
        grantedAll := grantedAll && grants[i];
        i := i + 1;
      }
      if !grantedAll {
        effects := effects + [Toast(PermissionsToast)];
      }
      CheckAndProceed(env);
    }

    /** `connectToDevice(device)`: a push-button connect request to the device's address. */
    method ConnectToDevice(device: Device)
      modifies this
      ensures p2pCalls == old(p2pCalls) + [Connect(device.deviceAddress)]
      ensures receiverRegistered == old(receiverRegistered) && peers == old(peers)
      ensures hasPeersSubscriber == old(hasPeersSubscriber) && deliveredPeers == old(deliveredPeers)
      ensures readyCallbackSet == old(readyCallbackSet) && effects == old(effects)
    {
      p2pCalls := p2pCalls + [Connect(device.deviceAddress)];
    }

    /**
     * `cleanup()`: unregisters the receivers (a throwing platform call is
     * caught inside) and asks the platform to remove the group; an
     * exception from the removal is caught and logged. Cancelling the
     * helper's own coroutines is not modelled.
     */
    method Cleanup(platformThrows: bool)
      modifies this
      ensures !receiverRegistered
      ensures effects == old(effects) + (if old(receiverRegistered) then [UnregisterReceiver] else [])
      ensures p2pCalls == old(p2pCalls) + [RemoveGroup]
      ensures peers == old(peers) && hasPeersSubscriber == old(hasPeersSubscriber)
      ensures deliveredPeers == old(deliveredPeers) && readyCallbackSet == old(readyCallbackSet)
    {
      UnregisterReceivers(platformThrows);
      p2pCalls := p2pCalls + [RemoveGroup];
    }

    /**
     * `createGroupWithRetries()`: remove the old group, then create; both
     * of the removal's callbacks call `create()`, so `removeSucceeded`
     * does not change what is sent.
     */
    method CreateGroupWithRetries(removeSucceeded: bool)
      modifies this
      ensures p2pCalls == old(p2pCalls) + GroupCalls(removeSucceeded)
      ensures receiverRegistered == old(receiverRegistered) && peers == old(peers)
      ensures hasPeersSubscriber == old(hasPeersSubscriber) && deliveredPeers == old(deliveredPeers)
      ensures readyCallbackSet == old(readyCallbackSet) && effects == old(effects)
    {
      p2pCalls := p2pCalls + [RemoveGroup, CreateGroup];
    }
  }
}
