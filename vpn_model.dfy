/**
 * The connection controller of VPN/VPNManager.swift as a pure state machine.
 *
 * A `Controller` is a snapshot of everything the controller can observe or
 * change: the provider's connection status and stored preferences, the calls
 * made on the provider, the completion handlers the provider still owes, the
 * controller's private flags, the notifications it posted and the reconnects
 * it scheduled with a 0.5 s delay. Every command and every handler is a
 * function from one snapshot to the next; the class in vpn_manager.dfy is
 * proved to follow these functions step by step.
 */
module VPNModel {
  import opened Optional

  // ---------------------------------------------------------------------
  // Provider vocabulary

  /** The six values of NEVPNStatus. */
  datatype Status = Invalid | Disconnected | Connecting | Connected | Disconnecting | Reasserting

  datatype InterfaceType = Any | Ethernet | WiFi | Cellular

  datatype RuleAction = ConnectAction | DisconnectAction | IgnoreAction | EvaluateConnectionAction

  /** An on-demand rule: what to do when a matching interface is up. */
  datatype OnDemandRule = OnDemandRule(action: RuleAction, interfaceTypeMatch: InterfaceType)

  datatype AuthenticationMethod = NoAuthentication | Certificate | SharedSecret

  /** An opaque keychain reference to the account password. */
  type PasswordReference = seq<bv8>

  /**
   * The IKEv2 protocol configuration the controller builds per connect. The
   * server address of a configuration loaded from preferences may be absent.
   */
  datatype IKEv2Protocol = IKEv2Protocol(
    serverAddress: Option<string>,
    remoteIdentifier: string,
    authenticationMethod: AuthenticationMethod,
    useExtendedAuthentication: bool,
    username: string,
    passwordReference: Option<PasswordReference>,
    disconnectOnSleep: bool)

  /** The part of the provider that is loaded from and saved to preferences. */
  datatype Preferences = Preferences(
    isEnabled: bool,
    isOnDemandEnabled: bool,
    protocolConfiguration: Option<IKEv2Protocol>,
    onDemandRules: seq<OnDemandRule>)

  /**
   * The external inputs the controller reads: the persisted settings and the
   * password reference handed out by the credential storage.
   */
  datatype Settings = Settings(
    username: string,
    passwordReference: Option<PasswordReference>,
    latestConnectedHost: Option<string>,
    isOnDemandEnabled: bool,
    isAutoconnectEnabled: bool)

  /** One call on the provider; a save records the preferences it saves. */
  datatype ProviderCall = Stop | Save(saved: Preferences) | Load | Start

  /** A posted notification: `.vpnStatus` (with its optional "isVisible") or `.vpnError`. */
  datatype Event = VpnStatus(isVisible: Option<bool>) | VpnError(message: string)

  /**
   * A callback handed to `disconnect`: the controller's own reconnect to
   * `host` after 0.5 s, or a closure some caller supplied, known by `id`.
   */
  datatype DisconnectCallback = ReconnectLater(host: string) | CallerCallback(id: nat)

  /** What runs when a save the controller started completes. */
  datatype SaveCompletion =
    | AfterConnectSave(needsReload: bool)
    | AfterDisconnectSave(callback: Option<DisconnectCallback>)

  /** What runs when a load the controller started completes. */
  datatype LoadCompletion = ConfigurationLoadedHandler | StartAfterReload

  /** How a load ends: the stored preferences, or an error message. */
  datatype LoadOutcome = Loaded(stored: Preferences) | LoadFailed(message: string)

  datatype Controller = Controller(
    // the provider (NEVPNManager)
    status: Status,
    prefs: Preferences,
    calls: seq<ProviderCall>,
    pendingSaves: seq<SaveCompletion>,
    pendingLoads: seq<LoadCompletion>,
    // the controller's own state
    isConfigured: bool,
    connectWhenConfigured: bool,
    requestIPWhenDisconnected: bool,
    autoconnect: bool,
    settings: Settings,
    events: seq<Event>,
    reconnects: seq<string>,
    callbacksRun: seq<nat>)

  const DefaultHost: string := ""

  /** The single rule the kill switch attaches: connect on any interface. */
  const ConnectOnAnyInterface: OnDemandRule := OnDemandRule(ConnectAction, Any)

  /** The state of a freshly created controller over a provider in the given state. */
  function Initial(status: Status, prefs: Preferences, settings: Settings): Controller
  {
    Controller(status, prefs, [], [], [], false, false, false, false, settings, [], [], [])
  }

  // ---------------------------------------------------------------------
  // Status descriptions

  /**
   * `NEVPNStatus.description` exactly as written: every key starts with
   * "status.", and every key but the `.connected` one, whose first letter
   * after the dot is a Cyrillic es, is ASCII.
   */
  function DescriptionAsWritten(s: Status): (r: string)
    ensures |r| > |KeyPrefix| && r[..|KeyPrefix|] == KeyPrefix
    ensures s != Connected ==> IsAscii(r)
    ensures s == Connected ==> r[|KeyPrefix|] == '\U{0441}'
  {
    match s
    case Connected => "status.\U{0441}onnected"
    case Connecting => "status.connecting"
    case Disconnected => "status.disconnected"
    case Disconnecting => "status.disconnecting"
    case Reasserting => "status.reconnecting"
    case Invalid => "status.invalid"
  }

  /** `NEVPNStatus.description` with the `.connected` key spelled in ASCII. */
  function Description(s: Status): string
  {
    match s
    case Connected => "status.connected"
    case Connecting => "status.connecting"
    case Disconnected => "status.disconnected"
    case Disconnecting => "status.disconnecting"
    case Reasserting => "status.reconnecting"
    case Invalid => "status.invalid"
  }

  predicate IsAscii(s: string)
  {
    forall i :: 0 <= i < |s| ==> s[i] as int < 128
  }

  const KeyPrefix: string := "status."

  /** Every corrected key is ASCII, starts with "status." and names exactly one status. */
  lemma DescriptionKeys(s: Status, t: Status)
    ensures IsAscii(Description(s))
    ensures |Description(s)| > |KeyPrefix| && Description(s)[..|KeyPrefix|] == KeyPrefix
    ensures Description(s) == Description(t) ==> s == t
    ensures s != Connected ==> Description(s) == DescriptionAsWritten(s)
  {
  }

  /** The key written for `.connected` is not ASCII and differs from "status.connected". */
  lemma DescriptionAsWrittenConnectedNotAscii()
    ensures !IsAscii(DescriptionAsWritten(Connected))
    ensures DescriptionAsWritten(Connected) != Description(Connected)
  {
    assert DescriptionAsWritten(Connected)[7] == '\U{0441}';
  }

  // ---------------------------------------------------------------------
  // Queries

  predicate IsConnected(s: Status)
  {
    s == Connected
  }

  predicate IsDisconnected(s: Status)
  {
    s == Disconnected || s == Invalid
  }

  predicate IsActivated(c: Controller)
  {
    c.prefs.isEnabled && c.status != Disconnected && c.status != Invalid
  }

  predicate IsKillswitchActivated(p: Preferences)
  {
    p.isEnabled && p.isOnDemandEnabled
  }

  function SelectedHost(p: Preferences): Option<string>
  {
    match p.protocolConfiguration
    case Some(config) => config.serverAddress
    case None => None
  }

  /** How the queries relate to one another and to the six statuses. */
  lemma QueryRelations(c: Controller)
    ensures IsDisconnected(c.status) <==> c.status in {Disconnected, Invalid}
    ensures IsActivated(c) <==> c.prefs.isEnabled && !IsDisconnected(c.status)
    ensures IsConnected(c.status) ==> !IsDisconnected(c.status)
    ensures IsConnected(c.status) && c.prefs.isEnabled ==> IsActivated(c)
    ensures IsKillswitchActivated(c.prefs) ==> c.prefs.isEnabled
  {
  }

  // ---------------------------------------------------------------------
  // Building blocks

  function RemoveAt<T>(s: seq<T>, i: nat): (r: seq<T>)
    requires i < |s|
    ensures |r| == |s| - 1
    ensures forall k :: 0 <= k < i ==> r[k] == s[k]
    ensures forall k :: i <= k < |r| ==> r[k] == s[k + 1]
  {
    s[..i] + s[i + 1..]
  }

  function LatestHost(settings: Settings): string
  {
    match settings.latestConnectedHost
    case Some(host) => host
    case None => DefaultHost
  }

  /**
   * The configuration for `host`: the host is both the server address and
   * the identity expected of the server, authentication is by user name and
   * the password reference from the settings (extended authentication, no
   * certificate or shared secret), and the tunnel drops when the device sleeps.
   */
  function CreateVPNConfiguration(settings: Settings, host: string): (r: IKEv2Protocol)
    ensures SelectedHost(Preferences(false, false, Some(r), [])) == Some(host)
    ensures r.remoteIdentifier == host
    ensures r.authenticationMethod == NoAuthentication && r.useExtendedAuthentication
    ensures r.username == settings.username && r.passwordReference == settings.passwordReference
    ensures r.disconnectOnSleep
  {
    IKEv2Protocol(
      serverAddress := Some(host),
      remoteIdentifier := host,
      authenticationMethod := NoAuthentication,
      useExtendedAuthentication := true,
      username := settings.username,
      passwordReference := settings.passwordReference,
      disconnectOnSleep := true)
  }

  function PostNotification(c: Controller, e: Event): Controller
  {
    c.(events := c.events + [e])
  }

  function SaveConfiguration(c: Controller, k: SaveCompletion): Controller
  {
    c.(calls := c.calls + [Save(c.prefs)], pendingSaves := c.pendingSaves + [k])
  }

  function LoadConfiguration(c: Controller, k: LoadCompletion): Controller
  {
    c.(calls := c.calls + [Load], pendingLoads := c.pendingLoads + [k])
  }

  /** Start errors are only printed, so starting adds nothing but the call. */
  function StartTunnel(c: Controller): Controller
  {
    c.(calls := c.calls + [Start])
  }

  // ---------------------------------------------------------------------
  // Commands

  function Disconnect(c: Controller, callback: Option<DisconnectCallback>): Controller
  {
    var stopped := c.(calls := c.calls + [Stop],
                      prefs := c.prefs.(isOnDemandEnabled := false, isEnabled := false));
    var saving := SaveConfiguration(stopped, AfterDisconnectSave(callback));
    if callback.None? then saving.(requestIPWhenDisconnected := true) else saving
  }

  function Connect(c: Controller, host: string): Controller
  {
    if !IsDisconnected(c.status) then
      Disconnect(c, Some(ReconnectLater(host)))
    else
      var needsReload := c.status == Invalid;
      var configured := c.prefs.(protocolConfiguration := Some(CreateVPNConfiguration(c.settings, host)),
                                 isEnabled := true);
      var withRules := if c.settings.isOnDemandEnabled
                       then configured.(isOnDemandEnabled := true, onDemandRules := [ConnectOnAnyInterface])
                       else configured;
      SaveConfiguration(c.(prefs := withRules), AfterConnectSave(needsReload))
  }

  function ConnectToLatestServer(c: Controller): Controller
  {
    Connect(c, LatestHost(c.settings))
  }

  function Reload(c: Controller): Controller
  {
    LoadConfiguration(c, ConfigurationLoadedHandler)
  }

  /** Assigning the `autoconnect` property, including its `didSet`. */
  function SetAutoconnect(c: Controller, value: bool): Controller
  {
    var updated := c.(autoconnect := value);
    if c.autoconnect == value then updated
    else if c.isConfigured then ConnectToLatestServer(updated)
    else updated.(connectWhenConfigured := true)
  }

  /** `initialize`: load the configuration, then apply the autoconnect setting. */
  function Initialize(c: Controller): Controller
  {
    var loading := LoadConfiguration(c, ConfigurationLoadedHandler);
    SetAutoconnect(loading, loading.settings.isAutoconnectEnabled)
  }

  // ---------------------------------------------------------------------
  // Handlers

  function HandleConfigurationLoaded(c: Controller, error: Option<string>): Controller
  {
    var posted := PostNotification(c, VpnStatus(Some(false)));
    var reported := if error.Some? then PostNotification(posted, VpnError(error.value)) else posted;
    var configured := reported.(isConfigured := true);
    if configured.connectWhenConfigured && !IsActivated(configured) then ConnectToLatestServer(configured)
    else configured
  }

  /**
   * The provider's status becomes `status`. This is the provider's own doing;
   * the controller learns of it only when its status-change handler runs,
   * which may be after other handlers have already read the new status.
   */
  function ProviderStatusChanged(c: Controller, status: Status): Controller
  {
    c.(status := status)
  }

  /** The status-change notification arrives; the handler reads the status as it is now. */
  function HandleConnectionStatusChange(c: Controller): Controller
  {
    var reloading := if c.status == Invalid then Reload(c) else c;
    PostNotification(reloading, VpnStatus(None))
  }

  function HandleConfigurationChange(c: Controller): Controller
  {
    PostNotification(c, VpnStatus(None))
  }

  /** The provider completes the `i`-th outstanding save, with or without an error. */
  function SaveCompleted(c: Controller, i: nat, error: Option<string>): Controller
    requires i < |c.pendingSaves|
  {
    var k := c.pendingSaves[i];
    var rest := c.(pendingSaves := RemoveAt(c.pendingSaves, i));
    match k
    case AfterConnectSave(needsReload) =>
      if error.Some? then PostNotification(rest, VpnError(error.value))
      else if needsReload then LoadConfiguration(rest, StartAfterReload)
      else StartTunnel(rest)
    case AfterDisconnectSave(callback) =>
      match callback
      case Some(ReconnectLater(host)) => rest.(reconnects := rest.reconnects + [host])
      case Some(CallerCallback(id)) => rest.(callbacksRun := rest.callbacksRun + [id])
      case None => rest
  }

  /** The provider completes the `i`-th outstanding load; a successful load refreshes the preferences. */
  function LoadCompleted(c: Controller, i: nat, outcome: LoadOutcome): Controller
    requires i < |c.pendingLoads|
  {
    var k := c.pendingLoads[i];
    var rest := c.(pendingLoads := RemoveAt(c.pendingLoads, i),
                   prefs := if outcome.Loaded? then outcome.stored else c.prefs);
    match k
    case ConfigurationLoadedHandler =>
      HandleConfigurationLoaded(rest, if outcome.LoadFailed? then Some(outcome.message) else None)
    case StartAfterReload =>
      PostNotification(StartTunnel(rest), VpnStatus(None))
  }

  /** The `i`-th deferred reconnect fires. */
  function ReconnectFired(c: Controller, i: nat): Controller
    requires i < |c.reconnects|
  {
    Connect(c.(reconnects := RemoveAt(c.reconnects, i)), c.reconnects[i])
  }
}
