/**
 * VPNManager as the object it is in VPN/VPNManager.swift: private flags and
 * an `autoconnect` property updated in place, over a provider object whose
 * preferences the manager assigns field by field. Every method is proved to
 * move the pair exactly as the matching function of VPNModel says.
 */
module VPN {
  import opened Optional
  import opened VPNModel

  /**
   * The tunnel provider (NEVPNManager): its connection status, its
   * preferences, the calls made on it and the completion handlers it still
   * owes. Completions are delivered by the environment through VPNManager.
   */
  class TunnelProvider {
    var status: Status
    var prefs: Preferences
    ghost var calls: seq<ProviderCall>
    var pendingSaves: seq<SaveCompletion>
    var pendingLoads: seq<LoadCompletion>

    constructor (status: Status, prefs: Preferences)
      ensures this.status == status && this.prefs == prefs
      ensures calls == [] && pendingSaves == [] && pendingLoads == []
    {
      this.status := status;
      this.prefs := prefs;
      calls := [];
      pendingSaves := [];
      pendingLoads := [];
    }

    /** `connection.stopVPNTunnel()`: the status changes later, through a notification. */
    method StopVPNTunnel()
      modifies this
      ensures calls == old(calls) + [Stop]
      ensures status == old(status) && prefs == old(prefs)
      ensures pendingSaves == old(pendingSaves) && pendingLoads == old(pendingLoads)
    {
      calls := calls + [Stop];
    }

    /** The provider's connection status changes on its own account. */
    method ChangeStatus(status: Status)
      modifies this
      ensures this.status == status && prefs == old(prefs) && calls == old(calls)
      ensures pendingSaves == old(pendingSaves) && pendingLoads == old(pendingLoads)
    {
      this.status := status;
    }

    /** `connection.startVPNTunnel()`: a thrown error is only printed by the caller. */
    method StartVPNTunnel()
      modifies this
      ensures calls == old(calls) + [Start]
      ensures status == old(status) && prefs == old(prefs)
      ensures pendingSaves == old(pendingSaves) && pendingLoads == old(pendingLoads)
    {
      calls := calls + [Start];
    }

    /** `saveToPreferences(completionHandler:)` with the handler `k`. */
    method SaveToPreferences(k: SaveCompletion)
      modifies this
      ensures calls == old(calls) + [Save(prefs)]
      ensures pendingSaves == old(pendingSaves) + [k]
      ensures status == old(status) && prefs == old(prefs) && pendingLoads == old(pendingLoads)
    {
      calls := calls + [Save(prefs)];
      pendingSaves := pendingSaves + [k];
    }

    /** `loadFromPreferences(completionHandler:)` with the handler `k`. */
    method LoadFromPreferences(k: LoadCompletion)
      modifies this
      ensures calls == old(calls) + [Load]
      ensures pendingLoads == old(pendingLoads) + [k]
      ensures status == old(status) && prefs == old(prefs) && pendingSaves == old(pendingSaves)
    {
      calls := calls + [Load];
      pendingLoads := pendingLoads + [k];
    }

    /** The `i`-th outstanding save completes: its handler is handed out and forgotten. */
    method TakeSaveCompletion(i: nat) returns (k: SaveCompletion)
      requires i < |pendingSaves|
      modifies this
      ensures k == old(pendingSaves[i])
      ensures pendingSaves == RemoveAt(old(pendingSaves), i)
      ensures status == old(status) && prefs == old(prefs) && calls == old(calls) && pendingLoads == old(pendingLoads)
    {
      k := pendingSaves[i];
      pendingSaves := pendingSaves[..i] + pendingSaves[i + 1..];
    }

    /** The `i`-th outstanding load completes; a successful one refreshes the preferences. */
    method TakeLoadCompletion(i: nat, outcome: LoadOutcome) returns (k: LoadCompletion)
      requires i < |pendingLoads|
      modifies this
      ensures k == old(pendingLoads[i])
      ensures pendingLoads == RemoveAt(old(pendingLoads), i)
      ensures prefs == if outcome.Loaded? then outcome.stored else old(prefs)
      ensures status == old(status) && calls == old(calls) && pendingSaves == old(pendingSaves)
    {
      k := pendingLoads[i];
      pendingLoads := pendingLoads[..i] + pendingLoads[i + 1..];
      if outcome.Loaded? {
        prefs := outcome.stored;
      }
    }
  }

  class VPNManager {
    const manager: TunnelProvider
    /** Settings and credential storage, read at each use; the environment may change them. */
    var settings: Settings

    var isConfigured: bool
    var connectWhenConfigured: bool
    var requestIPWhenDisconnected: bool
    var autoconnect: bool

    /** The notifications posted, in order. */
    var events: seq<Event>
    /** Hosts of the reconnects scheduled with `asyncAfter(0.5 s)` that have not fired. */
    var reconnects: seq<string>
    /** Identifiers of the caller-supplied `disconnect` callbacks that have run, in order. */
    var callbacksRun: seq<nat>

    ghost function State(): Controller
      reads this, manager
    {
      Controller(manager.status, manager.prefs, manager.calls, manager.pendingSaves, manager.pendingLoads,
                 isConfigured, connectWhenConfigured, requestIPWhenDisconnected, autoconnect,
                 settings, events, reconnects, callbacksRun)
    }

    constructor (provider: TunnelProvider, settings: Settings)
      requires provider.calls == [] && provider.pendingSaves == [] && provider.pendingLoads == []
      ensures manager == provider
      ensures State() == Initial(provider.status, provider.prefs, settings)
    {
      manager := provider;
      this.settings := settings;
      isConfigured := false;
      connectWhenConfigured := false;
      requestIPWhenDisconnected := false;
      autoconnect := false;
      events := [];
      reconnects := [];
      callbacksRun := [];
    }

    // ---- queries

    method IsConnected() returns (r: bool)
      ensures r == VPNModel.IsConnected(manager.status)
    {
      r := manager.status == Connected;
    }

    method IsDisconnected() returns (r: bool)
      ensures r == VPNModel.IsDisconnected(manager.status)
    {
      r := manager.status == Disconnected || manager.status == Invalid;
    }

    method IsActivated() returns (r: bool)
      ensures r == VPNModel.IsActivated(State())
    {
      r := manager.prefs.isEnabled && manager.status != Disconnected && manager.status != Invalid;
    }

    method IsKillswitchActivated() returns (r: bool)
      ensures r == VPNModel.IsKillswitchActivated(manager.prefs)
    {
      r := manager.prefs.isEnabled && manager.prefs.isOnDemandEnabled;
    }

    method SelectedHost() returns (r: Option<string>)
      ensures r == VPNModel.SelectedHost(manager.prefs)
    {
      if manager.prefs.protocolConfiguration.Some? {
        r := manager.prefs.protocolConfiguration.value.serverAddress;
      } else {
        r := None;
      }
    }

    // ---- commands

    /** The `autoconnect` setter together with its `didSet`. */
    method SetAutoconnect(value: bool)
      modifies this, manager
      ensures State() == VPNModel.SetAutoconnect(old(State()), value)
    {
      var oldValue := autoconnect;
      autoconnect := value;
      if oldValue == autoconnect {
        return;
      }
      if isConfigured {
        ConnectToLatestServer();
      } else {
        connectWhenConfigured := true;
      }
    }

    method Initialize()
      modifies this, manager
      ensures State() == VPNModel.Initialize(old(State()))
    {
      manager.LoadFromPreferences(ConfigurationLoadedHandler);
      SetAutoconnect(settings.isAutoconnectEnabled);
    }

    method Reload()
      modifies manager
      ensures State() == VPNModel.Reload(old(State()))
    {
      manager.LoadFromPreferences(ConfigurationLoadedHandler);
    }

    method ConnectToLatestServer()
      modifies this, manager
      ensures State() == VPNModel.ConnectToLatestServer(old(State()))
    {
      var host := if settings.latestConnectedHost.Some? then settings.latestConnectedHost.value else DefaultHost;
      Connect(host);
    }

    method Connect(host: string)
      modifies this, manager
      ensures State() == VPNModel.Connect(old(State()), host)
    {
      if !(manager.status == Disconnected || manager.status == Invalid) {
        Disconnect(Some(ReconnectLater(host)));
        return;
      }
      var needsReload := manager.status == Invalid;
      var configuration := CreateVPNConfiguration(settings, host);
      manager.prefs := manager.prefs.(protocolConfiguration := Some(configuration));
      manager.prefs := manager.prefs.(isEnabled := true);
      if settings.isOnDemandEnabled {
        manager.prefs := manager.prefs.(isOnDemandEnabled := true);
        manager.prefs := manager.prefs.(onDemandRules := [ConnectOnAnyInterface]);
      }
      manager.SaveToPreferences(AfterConnectSave(needsReload));
    }

    method Disconnect(callback: Option<DisconnectCallback>)
      modifies this, manager
      ensures State() == VPNModel.Disconnect(old(State()), callback)
    {
      manager.StopVPNTunnel();
      manager.prefs := manager.prefs.(isOnDemandEnabled := false);
      manager.prefs := manager.prefs.(isEnabled := false);
      manager.SaveToPreferences(AfterDisconnectSave(callback));
      if callback.None? {
        requestIPWhenDisconnected := true;
      }
    }

    // ---- handlers invoked by the environment

    method HandleConfigurationLoaded(error: Option<string>)
      modifies this, manager
      ensures State() == VPNModel.HandleConfigurationLoaded(old(State()), error)
    {
      events := events + [VpnStatus(Some(false))];
      if error.Some? {
        events := events + [VpnError(error.value)];
      }
      isConfigured := true;
      var activated := IsActivated();
      if connectWhenConfigured && !activated {
        ConnectToLatestServer();
      }
    }

    method HandleConfigurationChange()
      modifies this
      ensures State() == VPNModel.HandleConfigurationChange(old(State()))
    {
      events := events + [VpnStatus(None)];
    }

    /** The provider's status changes; the notification of it comes later. */
    method ProviderStatusChanged(status: Status)
      modifies manager
      ensures State() == VPNModel.ProviderStatusChanged(old(State()), status)
    {
      manager.ChangeStatus(status);
    }

    /** The `NEVPNStatusDidChange` handler: reload when the status read now is invalid. */
    method HandleConnectionStatusChange()
      modifies this, manager
      ensures State() == VPNModel.HandleConnectionStatusChange(old(State()))
    {
      if manager.status == Invalid {
        Reload();
      }
      events := events + [VpnStatus(None)];
    }

    /** The provider completes the `i`-th outstanding save. */
    method SaveCompleted(i: nat, error: Option<string>)
      requires i < |manager.pendingSaves|
      modifies this, manager
      ensures State() == VPNModel.SaveCompleted(old(State()), i, error)
    {
      var k := manager.TakeSaveCompletion(i);
      match k
      case AfterConnectSave(needsReload) =>
        if error.Some? {
          events := events + [VpnError(error.value)];
        } else if needsReload {
          manager.LoadFromPreferences(StartAfterReload);
        } else {
          manager.StartVPNTunnel();
        }
      case AfterDisconnectSave(callback) =>
        match callback
        case Some(ReconnectLater(host)) =>
          reconnects := reconnects + [host];
        case Some(CallerCallback(id)) =>
          callbacksRun := callbacksRun + [id];
        case None =>
    }

    /** The provider completes the `i`-th outstanding load. */
    method LoadCompleted(i: nat, outcome: LoadOutcome)
      requires i < |manager.pendingLoads|
      modifies this, manager
      ensures State() == VPNModel.LoadCompleted(old(State()), i, outcome)
    {
      var k := manager.TakeLoadCompletion(i, outcome);
      match k
      case ConfigurationLoadedHandler =>
        HandleConfigurationLoaded(if outcome.LoadFailed? then Some(outcome.message) else None);
      case StartAfterReload =>
        manager.StartVPNTunnel();
        events := events + [VpnStatus(None)];
    }

    /** The `i`-th scheduled reconnect fires. */
    method ReconnectFired(i: nat)
      requires i < |reconnects|
      modifies this, manager
      ensures State() == VPNModel.ReconnectFired(old(State()), i)
    {
      var host := reconnects[i];
      reconnects := reconnects[..i] + reconnects[i + 1..];
      Connect(host);
    }

    /** The persisted settings or the stored password reference change. */
    method UpdateSettings(s: Settings)
      modifies this
      ensures State() == old(State()).(settings := s)
    {
      settings := s;
    }
  }
}
