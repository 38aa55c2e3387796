/**
 * What VPN/VPNManager.swift promises, proved of the state machine in
 * vpn_model.dfy: the effect of each command and handler, the reconnect
 * cycle, a start-up scenario, and an invariant of every reachable state.
 */
module VPNProperties {
  import opened Optional
  import opened VPNModel

  // ---------------------------------------------------------------------
  // Counting provider calls

  function Occurrences<T>(s: seq<T>, p: T -> bool): nat
  {
    if s == [] then 0 else Occurrences(s[..|s| - 1], p) + (if p(s[|s| - 1]) then 1 else 0)
  }

  lemma {:induction false} OccurrencesAppend<T>(a: seq<T>, b: seq<T>, p: T -> bool)
    ensures Occurrences(a + b, p) == Occurrences(a, p) + Occurrences(b, p)
  {
    if b == [] {
      assert a + b == a;
    } else {
      assert (a + b)[..|a + b| - 1] == a + b[..|b| - 1];
      OccurrencesAppend(a, b[..|b| - 1], p);
    }
  }

  predicate IsSave(call: ProviderCall) { call.Save? }

  predicate IsStart(call: ProviderCall) { call.Start? }

  function Saves(calls: seq<ProviderCall>): nat { Occurrences(calls, IsSave) }

  function Starts(calls: seq<ProviderCall>): nat { Occurrences(calls, IsStart) }

  /** Counts of a few appended calls. */
  lemma CountsAppend(calls: seq<ProviderCall>, extra: seq<ProviderCall>)
    ensures Saves(calls + extra) == Saves(calls) + Saves(extra)
    ensures Starts(calls + extra) == Starts(calls) + Starts(extra)
  {
    OccurrencesAppend(calls, extra, IsSave);
    OccurrencesAppend(calls, extra, IsStart);
  }

  /** The calls a disconnect appends hold one save and no start. */
  lemma StopAndSaveCounts(calls: seq<ProviderCall>, saved: Preferences)
    ensures Saves(calls + [Stop, Save(saved)]) == Saves(calls) + 1
    ensures Starts(calls + [Stop, Save(saved)]) == Starts(calls)
  {
    var extra := [Stop, Save(saved)];
    CountsAppend(calls, extra);
    assert extra[..1] == [Stop] && [Stop][..0] == [];
    assert Occurrences([Stop], IsSave) == 0 && Occurrences([Stop], IsStart) == 0;
    assert Occurrences(extra, IsSave) == 1 && Occurrences(extra, IsStart) == 0;
  }

  // ---------------------------------------------------------------------
  // connect(to:)

  /**
   * Connecting while the tunnel is not disconnected only disconnects: the
   * tunnel is stopped, the flags cleared and saved, the configuration is not
   * touched and nothing is started.
   */
  lemma ConnectWhileBusy(c: Controller, host: string)
    requires !IsDisconnected(c.status)
    ensures var r := Connect(c, host);
      var p := c.prefs.(isEnabled := false, isOnDemandEnabled := false);
      && r == c.(calls := c.calls + [Stop, Save(p)], prefs := p,
                 pendingSaves := c.pendingSaves + [AfterDisconnectSave(Some(ReconnectLater(host)))])
      && r.calls == c.calls + [Stop, Save(r.prefs)]
      && r.prefs == c.prefs.(isEnabled := false, isOnDemandEnabled := false)
      && SelectedHost(r.prefs) == SelectedHost(c.prefs)
      && r.pendingSaves == c.pendingSaves + [AfterDisconnectSave(Some(ReconnectLater(host)))]
      && r.pendingLoads == c.pendingLoads
      && r.events == c.events
      && r.reconnects == c.reconnects
      && r.requestIPWhenDisconnected == c.requestIPWhenDisconnected
      && Starts(r.calls) == Starts(c.calls)
  {
    StopAndSaveCounts(c.calls, Connect(c, host).prefs);
  }

  /**
   * The disconnect that a busy connect issues schedules exactly one
   * reconnect to the same host when its save completes, whatever the save's
   * outcome, and changes nothing else.
   */
  lemma BusyConnectSchedulesOneReconnect(c: Controller, host: string, error: Option<string>)
    requires !IsDisconnected(c.status)
    ensures var r := Connect(c, host);
      && |r.pendingSaves| == |c.pendingSaves| + 1
      && var s := SaveCompleted(r, |c.pendingSaves|, error);
      && s == r.(pendingSaves := c.pendingSaves, reconnects := c.reconnects + [host])
      && s.reconnects == c.reconnects + [host]
      && s.events == c.events
  {
    var r := Connect(c, host);
    assert r.pendingSaves[|c.pendingSaves|] == AfterDisconnectSave(Some(ReconnectLater(host)));
    assert RemoveAt(r.pendingSaves, |c.pendingSaves|) == c.pendingSaves;
  }

  /**
   * Connecting from a disconnected or invalid tunnel builds the IKEv2
   * configuration for `host`, enables the provider, attaches the kill-switch
   * rule exactly when the on-demand setting is on, and saves once.
   */
  lemma ConnectFromDisconnected(c: Controller, host: string)
    requires IsDisconnected(c.status)
    ensures var r := Connect(c, host);
      var config := r.prefs.protocolConfiguration;
      && config.Some?
      && config.value.serverAddress == Some(host)
      && config.value.remoteIdentifier == host
      && config.value.authenticationMethod == NoAuthentication
      && config.value.useExtendedAuthentication
      && config.value.disconnectOnSleep
      && config.value.username == c.settings.username
      && config.value.passwordReference == c.settings.passwordReference
      && SelectedHost(r.prefs) == Some(host)
      && r.prefs.isEnabled
      && (c.settings.isOnDemandEnabled ==>
            r.prefs.isOnDemandEnabled && r.prefs.onDemandRules == [ConnectOnAnyInterface])
      && (!c.settings.isOnDemandEnabled ==>
            r.prefs.isOnDemandEnabled == c.prefs.isOnDemandEnabled && r.prefs.onDemandRules == c.prefs.onDemandRules)
      && (IsKillswitchActivated(r.prefs) <==> c.settings.isOnDemandEnabled || c.prefs.isOnDemandEnabled)
      && r.calls == c.calls + [Save(r.prefs)]
      && r.pendingSaves == c.pendingSaves + [AfterConnectSave(c.status == Invalid)]
      && r.status == c.status
      && r.events == c.events
      && Saves(r.calls) == Saves(c.calls) + 1
      && Starts(r.calls) == Starts(c.calls)
  {
    CountsAppend(c.calls, [Save(Connect(c, host).prefs)]);
  }

  /**
   * What happens when the save of a connect completes: an error is posted
   * and nothing is started; otherwise the tunnel is started, after a reload
   * when the tunnel was invalid at connect time.
   */
  lemma ConnectSaveCompletion(c: Controller, i: nat, error: Option<string>)
    requires i < |c.pendingSaves| && c.pendingSaves[i].AfterConnectSave?
    ensures var r := SaveCompleted(c, i, error);
      && r.pendingSaves == RemoveAt(c.pendingSaves, i)
      && r.prefs == c.prefs
      && (error.Some? ==>
            r.events == c.events + [VpnError(error.value)] && r.calls == c.calls && r.pendingLoads == c.pendingLoads)
      && (error.None? && c.pendingSaves[i].needsReload ==>
            r.calls == c.calls + [Load] && r.pendingLoads == c.pendingLoads + [StartAfterReload] && r.events == c.events)
      && (error.None? && !c.pendingSaves[i].needsReload ==>
            r.calls == c.calls + [Start] && r.pendingLoads == c.pendingLoads && r.events == c.events)
  {
  }

  /** The reload that precedes a start ignores the load's outcome, starts and posts one status. */
  lemma StartAfterReloadCompletion(c: Controller, i: nat, outcome: LoadOutcome)
    requires i < |c.pendingLoads| && c.pendingLoads[i] == StartAfterReload
    ensures var r := LoadCompleted(c, i, outcome);
      && r.calls == c.calls + [Start]
      && r.events == c.events + [VpnStatus(None)]
      && r.pendingLoads == RemoveAt(c.pendingLoads, i)
      && r.isConfigured == c.isConfigured
  {
  }

  /**
   * The whole successful connect from an invalid tunnel: save, then load,
   * then start, then one status notification.
   */
  lemma ConnectFromInvalidStarts(c: Controller, host: string, outcome: LoadOutcome)
    requires c.status == Invalid
    ensures var r1 := Connect(c, host);
      && |r1.pendingSaves| == |c.pendingSaves| + 1
      && var r2 := SaveCompleted(r1, |c.pendingSaves|, None);
      && |r2.pendingLoads| == |c.pendingLoads| + 1
      && var r3 := LoadCompleted(r2, |c.pendingLoads|, outcome);
      && r3.calls == c.calls + [Save(r1.prefs), Load, Start]
      && r3.events == c.events + [VpnStatus(None)]
      && r3.pendingSaves == c.pendingSaves
      && r3.pendingLoads == c.pendingLoads
  {
    var r1 := Connect(c, host);
    ConnectFromDisconnected(c, host);
    assert RemoveAt(r1.pendingSaves, |c.pendingSaves|) == c.pendingSaves;
    var r2 := SaveCompleted(r1, |c.pendingSaves|, None);
    ConnectSaveCompletion(r1, |c.pendingSaves|, None);
    assert RemoveAt(r2.pendingLoads, |c.pendingLoads|) == c.pendingLoads;
  }

  // ---------------------------------------------------------------------
  // disconnect

  /**
   * `disconnect` stops the tunnel and saves with both flags cleared, keeps
   * the configuration and rules, and remembers an IP refresh exactly when
   * no callback is given.
   */
  lemma DisconnectEffect(c: Controller, callback: Option<DisconnectCallback>)
    ensures var r := Disconnect(c, callback);
      && r.calls == c.calls + [Stop, Save(r.prefs)]
      && !r.prefs.isEnabled && !r.prefs.isOnDemandEnabled
      && !IsKillswitchActivated(r.prefs)
      && r.prefs.protocolConfiguration == c.prefs.protocolConfiguration
      && r.prefs.onDemandRules == c.prefs.onDemandRules
      && r.pendingSaves == c.pendingSaves + [AfterDisconnectSave(callback)]
      && (r.requestIPWhenDisconnected <==> callback.None? || c.requestIPWhenDisconnected)
      && r.events == c.events
      && r.status == c.status
  {
  }

  /**
   * The callback of `disconnect` runs exactly once after its save, whether
   * or not the save failed: the controller's own reconnect is scheduled, a
   * caller's closure is recorded as run.
   */
  lemma DisconnectCallbackRunsRegardless(c: Controller, callback: Option<DisconnectCallback>, error: Option<string>)
    ensures var r := Disconnect(c, callback);
      && |r.pendingSaves| == |c.pendingSaves| + 1
      && var s := SaveCompleted(r, |c.pendingSaves|, error);
      && s.reconnects == c.reconnects + (if callback.Some? && callback.value.ReconnectLater? then [callback.value.host] else [])
      && s.callbacksRun == c.callbacksRun + (if callback.Some? && callback.value.CallerCallback? then [callback.value.id] else [])
      && s.events == c.events
      && s.calls == r.calls
  {
    var r := Disconnect(c, callback);
    assert r.pendingSaves[|c.pendingSaves|] == AfterDisconnectSave(callback);
  }

  // ---------------------------------------------------------------------
  // connectToLatestServer, autoconnect, handlers

  /**
   * `connectToLatestServer` targets the latest host, or "" when there is
   * none: a disconnected tunnel is configured for it, and a busy one is
   * stopped with a reconnect to it scheduled on the disconnect's save.
   */
  lemma ConnectToLatestServerTarget(c: Controller)
    ensures var host := if c.settings.latestConnectedHost.Some? then c.settings.latestConnectedHost.value else "";
      && (IsDisconnected(c.status) ==> SelectedHost(ConnectToLatestServer(c).prefs) == Some(host))
      && (!IsDisconnected(c.status) ==>
            ConnectToLatestServer(c).pendingSaves == c.pendingSaves + [AfterDisconnectSave(Some(ReconnectLater(host)))])
  {
    if IsDisconnected(c.status) {
      ConnectFromDisconnected(c, LatestHost(c.settings));
    }
  }

  /**
   * Assigning `autoconnect` its current value changes nothing; any real
   * change, in either direction, connects once when the configuration is
   * loaded and otherwise only records the wish to connect.
   */
  lemma AutoconnectAssignment(c: Controller, value: bool)
    ensures var r := SetAutoconnect(c, value);
      && r.autoconnect == value
      && (c.autoconnect == value ==> r == c)
      && (c.autoconnect != value && c.isConfigured ==>
            && r == ConnectToLatestServer(c.(autoconnect := value))
            && Saves(r.calls) == Saves(c.calls) + 1
            && Starts(r.calls) == Starts(c.calls)
            && r.events == c.events)
      && (c.autoconnect != value && !c.isConfigured ==>
            r == c.(autoconnect := value, connectWhenConfigured := true))
  {
    if c.autoconnect != value && c.isConfigured {
      var d := c.(autoconnect := value);
      if IsDisconnected(c.status) {
        ConnectFromDisconnected(d, LatestHost(d.settings));
      } else {
        ConnectWhileBusy(d, LatestHost(d.settings));
        StopAndSaveCounts(c.calls, Connect(d, LatestHost(d.settings)).prefs);
      }
    }
  }

  /** A connect always saves exactly once, starts nothing and posts nothing. */
  lemma ConnectSavesOnce(c: Controller, host: string)
    ensures var r := Connect(c, host);
      && Saves(r.calls) == Saves(c.calls) + 1
      && Starts(r.calls) == Starts(c.calls)
      && r.events == c.events
      && r.isConfigured == c.isConfigured
  {
    if IsDisconnected(c.status) {
      ConnectFromDisconnected(c, host);
    } else {
      ConnectWhileBusy(c, host);
      StopAndSaveCounts(c.calls, Connect(c, host).prefs);
    }
  }

  /**
   * A finished configuration load posts a hidden status, plus an error iff
   * the load failed, marks the controller configured, and connects (one
   * save) exactly when a connect was wished for and the tunnel is not active.
   */
  lemma ConfigurationLoadedHandling(c: Controller, error: Option<string>)
    ensures var r := HandleConfigurationLoaded(c, error);
      && r.events == c.events + [VpnStatus(Some(false))] + (if error.Some? then [VpnError(error.value)] else [])
      && r.isConfigured
      && (Saves(r.calls) == Saves(c.calls) + 1 <==> c.connectWhenConfigured && !IsActivated(c))
      && (!(c.connectWhenConfigured && !IsActivated(c)) ==> r.calls == c.calls)
      && Starts(r.calls) == Starts(c.calls)
      && (c.connectWhenConfigured && !IsActivated(c) ==>
            r == Connect(c.(events := r.events, isConfigured := true),
                         if c.settings.latestConnectedHost.Some? then c.settings.latestConnectedHost.value else ""))
  {
    var posted := PostNotification(c, VpnStatus(Some(false)));
    var reported := if error.Some? then PostNotification(posted, VpnError(error.value)) else posted;
    var configured := reported.(isConfigured := true);
    if configured.connectWhenConfigured && !IsActivated(configured) {
      ConnectSavesOnce(configured, LatestHost(configured.settings));
    }
  }

  /**
   * The status-change handler keeps the status it reads, reloads iff that
   * status is invalid, and posts exactly one status notification.
   */
  lemma StatusChangeHandling(c: Controller)
    ensures var r := HandleConnectionStatusChange(c);
      && r.status == c.status
      && r.events == c.events + [VpnStatus(None)]
      && r.calls == c.calls + (if c.status == Invalid then [Load] else [])
      && r.pendingLoads == c.pendingLoads + (if c.status == Invalid then [ConfigurationLoadedHandler] else [])
      && r.prefs == c.prefs
  {
  }

  // ---------------------------------------------------------------------
  // Runs of the controller

  /** Everything that can happen to the controller: a command, a notification or a completion. */
  datatype Step =
    | ConnectCommand(host: string)
    | DisconnectCommand(callerCallback: Option<nat>)
    | ReloadCommand
    | ConnectToLatestServerCommand
    | AutoconnectAssigned(value: bool)
    | InitializeCommand
    | ProviderStatusChange(status: Status)
    | StatusNotified
    | ConfigurationChanged
    | SaveDone(saveIndex: nat, error: Option<string>)
    | LoadDone(loadIndex: nat, outcome: LoadOutcome)
    | ReconnectDue(reconnectIndex: nat)
    | SettingsChanged(settings: Settings)

  /** The next state, or None when the step names a completion or timer that is not outstanding. */
  function Apply(c: Controller, step: Step): Option<Controller>
  {
    match step
    case ConnectCommand(host) => Some(Connect(c, host))
    case DisconnectCommand(callerCallback) => Some(Disconnect(c, CallerDisconnectCallback(callerCallback)))
    case ReloadCommand => Some(Reload(c))
    case ConnectToLatestServerCommand => Some(ConnectToLatestServer(c))
    case AutoconnectAssigned(value) => Some(SetAutoconnect(c, value))
    case InitializeCommand => Some(Initialize(c))
    case ProviderStatusChange(status) => Some(ProviderStatusChanged(c, status))
    case StatusNotified => Some(HandleConnectionStatusChange(c))
    case ConfigurationChanged => Some(HandleConfigurationChange(c))
    case SaveDone(i, error) => if i < |c.pendingSaves| then Some(SaveCompleted(c, i, error)) else None
    case LoadDone(i, outcome) => if i < |c.pendingLoads| then Some(LoadCompleted(c, i, outcome)) else None
    case ReconnectDue(i) => if i < |c.reconnects| then Some(ReconnectFired(c, i)) else None
    case SettingsChanged(settings) => Some(c.(settings := settings))
  }

  /** The callback a caller hands to `disconnect`, if any. */
  function CallerDisconnectCallback(callerCallback: Option<nat>): Option<DisconnectCallback>
  {
    match callerCallback
    case Some(id) => Some(CallerCallback(id))
    case None => None
  }

  function Run(c: Controller, steps: seq<Step>): Option<Controller>
    decreases |steps|
  {
    if steps == [] then Some(c)
    else match Apply(c, steps[0])
      case None => None
      case Some(next) => Run(next, steps[1..])
  }

  lemma RunFirst(c: Controller, step: Step, rest: seq<Step>)
    requires Apply(c, step).Some?
    ensures Run(c, [step] + rest) == Run(Apply(c, step).value, rest)
  {
    assert ([step] + rest)[1..] == rest;
  }

  /** Initializing a fresh controller with autoconnect on: one load, and a connect wished for. */
  lemma StartupInitialize(prefs: Preferences, settings: Settings)
    requires settings.isAutoconnectEnabled
    ensures var c := Initialize(Initial(Invalid, prefs, settings));
      && c.status == Invalid && c.settings == settings
      && c.calls == [Load] && c.pendingLoads == [ConfigurationLoadedHandler] && c.pendingSaves == []
      && c.connectWhenConfigured && !c.isConfigured
  {
  }

  /** The first load completes: the controller connects to the latest host from the invalid state. */
  lemma StartupFirstLoad(c: Controller, stored: Preferences)
    requires c.status == Invalid
    requires c.calls == [Load] && c.pendingLoads == [ConfigurationLoadedHandler] && c.pendingSaves == []
    requires c.connectWhenConfigured
    ensures var r := LoadCompleted(c, 0, Loaded(stored));
      && r.calls == [Load, Save(r.prefs)]
      && SelectedHost(r.prefs) == Some(LatestHost(c.settings))
      && r.pendingSaves == [AfterConnectSave(true)] && r.pendingLoads == []
      && r.isConfigured
  {
    var configured := c.(pendingLoads := [], prefs := stored,
                         events := c.events + [VpnStatus(Some(false))], isConfigured := true);
    assert LoadCompleted(c, 0, Loaded(stored)) == Connect(configured, LatestHost(c.settings));
    ConnectFromDisconnected(configured, LatestHost(c.settings));
  }

  /** After the connect's save is queued from an invalid tunnel: the save completes, the reload completes, the tunnel starts. */
  lemma StartupSaveAndReload(c: Controller, reloaded: LoadOutcome)
    requires c.pendingSaves == [AfterConnectSave(true)] && c.pendingLoads == []
    ensures var r := Run(c, [SaveDone(0, None), LoadDone(0, reloaded)]);
      && r.Some?
      && r.value.calls == c.calls + [Load, Start]
      && r.value.isConfigured == c.isConfigured
  {
    var c3 := SaveCompleted(c, 0, None);
    ConnectSaveCompletion(c, 0, None);
    var c4 := LoadCompleted(c3, 0, reloaded);
    StartAfterReloadCompletion(c3, 0, reloaded);
    RunFirst(c3, LoadDone(0, reloaded), []);
    RunFirst(c, SaveDone(0, None), [LoadDone(0, reloaded)]);
  }

  /**
   * Start-up with autoconnect on over an invalid tunnel: the first load
   * completes, the controller connects to the latest host, and after the
   * save and the reload the tunnel is started.
   */
  lemma AutoconnectAtStartup(prefs: Preferences, stored: Preferences, settings: Settings, reloaded: LoadOutcome)
    requires settings.isAutoconnectEnabled
    requires settings.latestConnectedHost == Some("vpn.example.com")
    ensures var r := Run(Initial(Invalid, prefs, settings),
                         [InitializeCommand, LoadDone(0, Loaded(stored)), SaveDone(0, None), LoadDone(0, reloaded)]);
      && r.Some?
      && |r.value.calls| == 4
      && r.value.calls[0] == Load
      && r.value.calls[1].Save?
      && SelectedHost(r.value.calls[1].saved) == Some("vpn.example.com")
      && r.value.calls[2] == Load
      && r.value.calls[3] == Start
      && r.value.isConfigured
  {
    var c0 := Initial(Invalid, prefs, settings);
    var tail := [SaveDone(0, None), LoadDone(0, reloaded)];
    StartupInitialize(prefs, settings);
    var c1 := Apply(c0, InitializeCommand).value;
    StartupFirstLoad(c1, stored);
    var c2 := Apply(c1, LoadDone(0, Loaded(stored))).value;
    StartupSaveAndReload(c2, reloaded);
    RunFirst(c1, LoadDone(0, Loaded(stored)), tail);
    RunFirst(c0, InitializeCommand, [LoadDone(0, Loaded(stored))] + tail);
    assert [InitializeCommand] + ([LoadDone(0, Loaded(stored))] + tail)
        == [InitializeCommand, LoadDone(0, Loaded(stored)), SaveDone(0, None), LoadDone(0, reloaded)];
  }

  // ---------------------------------------------------------------------
  // Every start call is paid for by its own save of an enabled configuration

  predicate IsEnabledSave(call: ProviderCall) { call.Save? && call.saved.isEnabled }

  function EnabledSaves(calls: seq<ProviderCall>): nat { Occurrences(calls, IsEnabledSave) }

  predicate IsConnectSave(k: SaveCompletion) { k.AfterConnectSave? }

  predicate IsStartAfterReload(k: LoadCompletion) { k.StartAfterReload? }

  /** The starts still owed: connect saves and reloads-before-start that are outstanding. */
  function PendingStarts(c: Controller): nat
  {
    Occurrences(c.pendingSaves, IsConnectSave) + Occurrences(c.pendingLoads, IsStartAfterReload)
  }

  /**
   * Each start call made, and each start still owed, is matched by a
   * distinct save of an enabled configuration.
   */
  predicate StartInvariant(c: Controller)
  {
    Starts(c.calls) + PendingStarts(c) <= EnabledSaves(c.calls)
  }

  lemma {:induction false} OccurrencesSnoc<T>(s: seq<T>, x: T, p: T -> bool)
    ensures Occurrences(s + [x], p) == Occurrences(s, p) + (if p(x) then 1 else 0)
  {
    assert (s + [x])[..|s + [x]| - 1] == s;
  }

  lemma {:induction false} OccurrencesRemoveAt<T>(s: seq<T>, i: nat, p: T -> bool)
    requires i < |s|
    ensures Occurrences(RemoveAt(s, i), p) + (if p(s[i]) then 1 else 0) == Occurrences(s, p)
  {
    OccurrencesAppend(s[..i], s[i + 1..], p);
    OccurrencesSnoc(s[..i], s[i], p);
    OccurrencesAppend(s[..i] + [s[i]], s[i + 1..], p);
    assert s[..i] + [s[i]] + s[i + 1..] == s;
  }

  /** How appending calls moves the three counts. */
  lemma CallCounts(calls: seq<ProviderCall>, x: ProviderCall)
    ensures Starts(calls + [x]) == Starts(calls) + (if x == Start then 1 else 0)
    ensures EnabledSaves(calls + [x]) == EnabledSaves(calls) + (if x.Save? && x.saved.isEnabled then 1 else 0)
  {
    OccurrencesSnoc(calls, x, IsStart);
    OccurrencesSnoc(calls, x, IsEnabledSave);
  }

  lemma ConnectKeepsInvariant(c: Controller, host: string)
    requires StartInvariant(c)
    ensures StartInvariant(Connect(c, host))
  {
    if IsDisconnected(c.status) {
      IdleConnectKeepsInvariant(c, host);
    } else {
      DisconnectKeepsInvariant(c, Some(ReconnectLater(host)));
    }
  }

  /** An idle connect saves one enabled configuration and owes one start. */
  lemma IdleConnectKeepsInvariant(c: Controller, host: string)
    requires StartInvariant(c) && IsDisconnected(c.status)
    ensures StartInvariant(Connect(c, host))
  {
    var r := Connect(c, host);
    assert r.calls == c.calls + [Save(r.prefs)] && r.prefs.isEnabled;
    assert r.pendingSaves == c.pendingSaves + [AfterConnectSave(c.status == Invalid)];
    CallCounts(c.calls, Save(r.prefs));
    OccurrencesSnoc(c.pendingSaves, AfterConnectSave(c.status == Invalid), IsConnectSave);
  }

  lemma DisconnectKeepsInvariant(c: Controller, callback: Option<DisconnectCallback>)
    requires StartInvariant(c)
    ensures StartInvariant(Disconnect(c, callback))
  {
    var r := Disconnect(c, callback);
    CallCounts(c.calls, Stop);
    CallCounts(c.calls + [Stop], Save(r.prefs));
    assert c.calls + [Stop] + [Save(r.prefs)] == r.calls;
    OccurrencesSnoc(c.pendingSaves, AfterDisconnectSave(callback), IsConnectSave);
  }

  lemma ReloadKeepsInvariant(c: Controller)
    requires StartInvariant(c)
    ensures StartInvariant(Reload(c))
  {
    CallCounts(c.calls, Load);
    OccurrencesSnoc(c.pendingLoads, ConfigurationLoadedHandler, IsStartAfterReload);
  }

  lemma ConfigurationLoadedKeepsInvariant(c: Controller, error: Option<string>)
    requires StartInvariant(c)
    ensures StartInvariant(HandleConfigurationLoaded(c, error))
  {
    var posted := PostNotification(c, VpnStatus(Some(false)));
    var reported := if error.Some? then PostNotification(posted, VpnError(error.value)) else posted;
    var configured := reported.(isConfigured := true);
    if configured.connectWhenConfigured && !IsActivated(configured) {
      ConnectKeepsInvariant(configured, LatestHost(configured.settings));
    }
  }

  /** A connect's save completes: the start it owed is made, handed to a reload, or dropped on error. */
  lemma ConnectSaveCompletedKeepsInvariant(c: Controller, i: nat, error: Option<string>)
    requires StartInvariant(c) && i < |c.pendingSaves| && c.pendingSaves[i].AfterConnectSave?
    ensures StartInvariant(SaveCompleted(c, i, error))
  {
    OccurrencesRemoveAt(c.pendingSaves, i, IsConnectSave);
    var rest := c.(pendingSaves := RemoveAt(c.pendingSaves, i));
    if error.None? {
      if c.pendingSaves[i].needsReload {
        CallCounts(c.calls, Load);
        OccurrencesSnoc(c.pendingLoads, StartAfterReload, IsStartAfterReload);
        assert SaveCompleted(c, i, error) == LoadConfiguration(rest, StartAfterReload);
      } else {
        CallCounts(c.calls, Start);
        assert SaveCompleted(c, i, error) == StartTunnel(rest);
      }
    }
  }

  /** A disconnect's save completes: no call is made and no start was owed. */
  lemma DisconnectSaveCompletedKeepsInvariant(c: Controller, i: nat, error: Option<string>)
    requires StartInvariant(c) && i < |c.pendingSaves| && c.pendingSaves[i].AfterDisconnectSave?
    ensures StartInvariant(SaveCompleted(c, i, error))
  {
    OccurrencesRemoveAt(c.pendingSaves, i, IsConnectSave);
    var rest := c.(pendingSaves := RemoveAt(c.pendingSaves, i));
    assert StartInvariant(rest);
    match c.pendingSaves[i].callback
    case Some(ReconnectLater(host)) =>
      assert SaveCompleted(c, i, error) == rest.(reconnects := rest.reconnects + [host]);
    case Some(CallerCallback(id)) =>
      assert SaveCompleted(c, i, error) == rest.(callbacksRun := rest.callbacksRun + [id]);
    case None =>
      assert SaveCompleted(c, i, error) == rest;
  }

  lemma LoadCompletedKeepsInvariant(c: Controller, i: nat, outcome: LoadOutcome)
    requires StartInvariant(c) && i < |c.pendingLoads|
    ensures StartInvariant(LoadCompleted(c, i, outcome))
  {
    OccurrencesRemoveAt(c.pendingLoads, i, IsStartAfterReload);
    var rest := c.(pendingLoads := RemoveAt(c.pendingLoads, i),
                   prefs := if outcome.Loaded? then outcome.stored else c.prefs);
    match c.pendingLoads[i]
    case ConfigurationLoadedHandler =>
      ConfigurationLoadedKeepsInvariant(rest, if outcome.LoadFailed? then Some(outcome.message) else None);
    case StartAfterReload =>
      CallCounts(c.calls, Start);
  }

  lemma StepKeepsInvariant(c: Controller, step: Step)
    requires StartInvariant(c) && Apply(c, step).Some?
    ensures StartInvariant(Apply(c, step).value)
  {
    match step
    case ConnectCommand(host) => ConnectKeepsInvariant(c, host);
    case DisconnectCommand(callerCallback) => DisconnectKeepsInvariant(c, CallerDisconnectCallback(callerCallback));
    case ReloadCommand => ReloadKeepsInvariant(c);
    case ConnectToLatestServerCommand => ConnectKeepsInvariant(c, LatestHost(c.settings));
    case AutoconnectAssigned(value) =>
      if c.autoconnect != value && c.isConfigured {
        ConnectKeepsInvariant(c.(autoconnect := value), LatestHost(c.settings));
      }
    case InitializeCommand =>
      var loading := Reload(c);
      ReloadKeepsInvariant(c);
      if loading.autoconnect != loading.settings.isAutoconnectEnabled && loading.isConfigured {
        ConnectKeepsInvariant(loading.(autoconnect := loading.settings.isAutoconnectEnabled), LatestHost(c.settings));
      }
    case ProviderStatusChange(status) =>
    case StatusNotified =>
      if c.status == Invalid {
        ReloadKeepsInvariant(c);
      }
    case ConfigurationChanged =>
    case SaveDone(i, error) =>
      if c.pendingSaves[i].AfterConnectSave? {
        ConnectSaveCompletedKeepsInvariant(c, i, error);
      } else {
        DisconnectSaveCompletedKeepsInvariant(c, i, error);
      }
    case LoadDone(i, outcome) => LoadCompletedKeepsInvariant(c, i, outcome);
    case ReconnectDue(i) => ConnectKeepsInvariant(c.(reconnects := RemoveAt(c.reconnects, i)), c.reconnects[i]);
    case SettingsChanged(settings) =>
  }

  /**
   * In every run, each start call is matched by its own earlier save of an
   * enabled configuration, which only a connect from a disconnected or
   * invalid tunnel makes: the starts made plus the starts still owed never
   * exceed the enabled saves. Every prefix of a run is a run, so this holds
   * after every step. The latest save need not be enabled: see
   * `DisconnectDoesNotCancelPendingConnect`.
   */
  lemma {:induction false} RunStartsNeverExceedEnabledSaves(c: Controller, steps: seq<Step>)
    requires StartInvariant(c)
    ensures Run(c, steps).Some? ==> StartInvariant(Run(c, steps).value)
    ensures Run(c, steps).Some? ==> Starts(Run(c, steps).value.calls) <= EnabledSaves(Run(c, steps).value.calls)
    decreases |steps|
  {
    if steps != [] {
      match Apply(c, steps[0])
      case None =>
      case Some(next) =>
        StepKeepsInvariant(c, steps[0]);
        RunStartsNeverExceedEnabledSaves(next, steps[1..]);
    }
  }

  /**
   * A disconnect does not cancel a connect whose save is still outstanding:
   * when that save completes, the tunnel is started although the latest
   * save stored a disabled configuration.
   */
  lemma DisconnectDoesNotCancelPendingConnect(prefs: Preferences, settings: Settings, host: string)
    ensures var r := Run(Initial(Disconnected, prefs, settings),
                         [ConnectCommand(host), DisconnectCommand(None), SaveDone(0, None)]);
      && r.Some?
      && |r.value.calls| == 4
      && r.value.calls[0].Save? && r.value.calls[0].saved.isEnabled
      && r.value.calls[1] == Stop
      && r.value.calls[2] == Save(r.value.prefs) && !r.value.prefs.isEnabled
      && r.value.calls[3] == Start
  {
    var c0 := Initial(Disconnected, prefs, settings);
    var c1 := Connect(c0, host);
    ConnectFromDisconnected(c0, host);
    var c2 := Disconnect(c1, None);
    DisconnectEffect(c1, None);
    assert c2.pendingSaves[0] == AfterConnectSave(false);
    var c3 := SaveCompleted(c2, 0, None);
    assert c3 == StartTunnel(c2.(pendingSaves := RemoveAt(c2.pendingSaves, 0)));
    assert Apply(c2, SaveDone(0, None)) == Some(c3);
    assert Apply(c1, DisconnectCommand(None)) == Some(c2);
    assert Apply(c0, ConnectCommand(host)) == Some(c1);
    RunFirst(c2, SaveDone(0, None), []);
    RunFirst(c1, DisconnectCommand(None), [SaveDone(0, None)]);
    RunFirst(c0, ConnectCommand(host), [DisconnectCommand(None), SaveDone(0, None)]);
  }

  /**
   * A connect that runs after the provider became invalid but before the
   * status-change handler sees the invalid status: it saves an enabled
   * configuration with a reload pending, and the handler's load comes after
   * that save.
   */
  lemma ConnectBeforeStatusHandler(prefs: Preferences, settings: Settings, host: string)
    ensures var r := Run(Initial(Connected, prefs, settings),
                         [ProviderStatusChange(Invalid), ConnectCommand(host), StatusNotified]);
      && r.Some?
      && |r.value.calls| == 2
      && r.value.calls[0].Save? && r.value.calls[0].saved.isEnabled
      && r.value.calls[1] == Load
      && r.value.pendingSaves == [AfterConnectSave(true)]
      && r.value.pendingLoads == [ConfigurationLoadedHandler]
  {
    var c0 := Initial(Connected, prefs, settings);
    var c1 := ProviderStatusChanged(c0, Invalid);
    var c2 := Connect(c1, host);
    ConnectFromDisconnected(c1, host);
    RunFirst(c2, StatusNotified, []);
    RunFirst(c1, ConnectCommand(host), [StatusNotified]);
    RunFirst(c0, ProviderStatusChange(Invalid), [ConnectCommand(host), StatusNotified]);
  }

  /**
   * A configuration load completes while a connect is wished for and the
   * tunnel is down: even when the load failed, the handler connects and
   * saves an enabled configuration.
   */
  lemma FailedLoadStillConnects(c: Controller, i: nat, message: string)
    requires i < |c.pendingLoads| && c.pendingLoads[i] == ConfigurationLoadedHandler
    requires c.connectWhenConfigured && IsDisconnected(c.status)
    ensures var r := LoadCompleted(c, i, LoadFailed(message));
      && r.calls == c.calls + [Save(r.prefs)]
      && r.prefs.isEnabled
      && r.events == c.events + [VpnStatus(Some(false)), VpnError(message)]
      && r.connectWhenConfigured
  {
    var rest := c.(pendingLoads := RemoveAt(c.pendingLoads, i));
    var posted := rest.(events := rest.events + [VpnStatus(Some(false)), VpnError(message)], isConfigured := true);
    assert LoadCompleted(c, i, LoadFailed(message)) == Connect(posted, LatestHost(c.settings));
    ConnectFromDisconnected(posted, LatestHost(c.settings));
  }

  /** Running `a` and then `b` is running `a + b`. */
  lemma {:induction false} RunAppend(c: Controller, a: seq<Step>, b: seq<Step>)
    ensures Run(c, a + b) == if Run(c, a).Some? then Run(Run(c, a).value, b) else None
    decreases |a|
  {
    if a == [] {
      assert a + b == b;
    } else {
      assert (a + b)[0] == a[0] && (a + b)[1..] == a[1..] + b;
      match Apply(c, a[0])
      case None =>
      case Some(next) => RunAppend(next, a[1..], b);
    }
  }

  /** Two steps, each defined where it is taken. */
  lemma RunTwo(c: Controller, s1: Step, s2: Step)
    requires Apply(c, s1).Some? && Apply(Apply(c, s1).value, s2).Some?
    ensures Run(c, [s1, s2]) == Apply(Apply(c, s1).value, s2)
  {
    RunFirst(Apply(c, s1).value, s2, []);
    RunFirst(c, s1, [s2]);
  }

  /** The steps of `ReloadAfterDisconnectReconnects`, one function application each. */
  lemma RunToReloadAfterDisconnect(c0: Controller, stored: Preferences)
    ensures Run(c0, [InitializeCommand, LoadDone(0, Loaded(stored)),
                     ProviderStatusChange(Connected), DisconnectCommand(Some(1)),
                     ProviderStatusChange(Disconnected), ReloadCommand])
         == Some(Reload(ProviderStatusChanged(
              Disconnect(ProviderStatusChanged(LoadCompleted(Initialize(c0), 0, Loaded(stored)), Connected),
                         Some(CallerCallback(1))),
              Disconnected)))
  {
    var c1 := Initialize(c0);
    assert c1.pendingLoads == c0.pendingLoads + [ConfigurationLoadedHandler];
    var c2 := LoadCompleted(c1, 0, Loaded(stored));
    var c4 := Disconnect(ProviderStatusChanged(c2, Connected), Some(CallerCallback(1)));
    var c6 := Reload(ProviderStatusChanged(c4, Disconnected));
    var a := [InitializeCommand, LoadDone(0, Loaded(stored))];
    var b := [ProviderStatusChange(Connected), DisconnectCommand(Some(1))];
    var d := [ProviderStatusChange(Disconnected), ReloadCommand];
    RunTwo(c0, a[0], a[1]);
    RunTwo(c2, b[0], b[1]);
    RunTwo(c4, d[0], d[1]);
    RunAppend(c2, b, d);
    RunAppend(c0, a, b + d);
    assert a + (b + d) == [InitializeCommand, LoadDone(0, Loaded(stored)),
                           ProviderStatusChange(Connected), DisconnectCommand(Some(1)),
                           ProviderStatusChange(Disconnected), ReloadCommand];
  }

  /**
   * `connectWhenConfigured` is never cleared once set: after the first load,
   * the user's disconnect and a later reload, the wish is still recorded, the
   * tunnel is down and the reload's handler is pending, so by
   * `FailedLoadStillConnects` that load connects again.
   */
  lemma ReloadAfterDisconnectReconnects(prefs: Preferences, stored: Preferences, settings: Settings)
    requires settings.isAutoconnectEnabled
    ensures var r := Run(Initial(Disconnected, prefs, settings),
                         [InitializeCommand, LoadDone(0, Loaded(stored)),
                          ProviderStatusChange(Connected), DisconnectCommand(Some(1)),
                          ProviderStatusChange(Disconnected), ReloadCommand]);
      && r.Some?
      && r.value.connectWhenConfigured
      && r.value.status == Disconnected
      && !r.value.prefs.isEnabled
      && |r.value.pendingLoads| > 0
      && r.value.pendingLoads[|r.value.pendingLoads| - 1] == ConfigurationLoadedHandler
      && var s := LoadCompleted(r.value, |r.value.pendingLoads| - 1, LoadFailed("e"));
      && s.calls == r.value.calls + [Save(s.prefs)] && s.prefs.isEnabled
  {
    var c0 := Initial(Disconnected, prefs, settings);
    RunToReloadAfterDisconnect(c0, stored);
    var c1 := Initialize(c0);
    assert c1.pendingLoads == [ConfigurationLoadedHandler] && c1.connectWhenConfigured;
    var c2 := LoadCompleted(c1, 0, Loaded(stored));
    assert c2.connectWhenConfigured;
    var c4 := Disconnect(ProviderStatusChanged(c2, Connected), Some(CallerCallback(1)));
    assert c4.connectWhenConfigured && !c4.prefs.isEnabled;
    var c6 := Reload(ProviderStatusChanged(c4, Disconnected));
    assert c6.pendingLoads[|c6.pendingLoads| - 1] == ConfigurationLoadedHandler;
    FailedLoadStillConnects(c6, |c6.pendingLoads| - 1, "e");
  }

  /** A fresh controller has made no call and owes no start. */
  lemma InitialSatisfiesInvariant(status: Status, prefs: Preferences, settings: Settings)
    ensures StartInvariant(Initial(status, prefs, settings))
    ensures PendingStarts(Initial(status, prefs, settings)) == 0
  {
  }
}
