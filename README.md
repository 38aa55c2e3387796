# VPN client core, modelled in Dafny

This project models the core of an iOS VPN client and proves properties of the model. The core has three parts:

- **The connection controller** (`VPNManager`). It is a small state machine over the tunnel provider (NetworkExtension's `NEVPNManager`). The provider contributes the connection status, the `isEnabled`/`isOnDemandEnabled` flags, the IKEv2 protocol configuration and the on-demand rules. The controller adds its private flags (`isConfigured`, `connectWhenConfigured`, `requestIPWhenDisconnected`) and the `autoconnect` preference. Its commands (`connect(to:)`, `disconnect`, `reload`, `connectToLatestServer`) and its notification handlers decide which calls to make on the provider.
- **The server API's response decoding** (`ServerAPI.createAPIResponse`) and its request composition.
- **The in-app purchase manager** (`PurchaseManager`). It keeps a product cache, one outstanding products request with its callback slot, and a dispatch of payment transactions to notifications.

## Files

- `optional.dfy`: module `Optional`, the `Option` type.
- `vpn_model.dfy`: module `VPNModel`, the controller as a pure state machine. A `Controller` value is a snapshot of everything the controller can observe or change:
  - the provider's status and preferences;
  - the provider calls made, in order (`Stop`, `Save(preferences)`, `Load`, `Start`);
  - the completion handlers the provider still owes;
  - the controller's flags and settings;
  - the notifications posted;
  - the reconnects scheduled with the 0.5 s delay;
  - the identifiers of the callbacks that callers handed to `disconnect` and that have run.

  Every command and every handler is a function from one snapshot to the next. Asynchronous completions are explicit functions that the environment invokes (`SaveCompleted`, `LoadCompleted`, `ReconnectFired`).
- `vpn_properties.dfy`: module `VPNProperties`, the properties of that state machine. It also defines `Step`/`Run`, which describe every sequence of commands, notifications and completions, and proves an invariant of every such run.
- `vpn_manager.dfy`: module `VPN`, the imperative form.
  - `TunnelProvider` is the abstract provider object. It keeps a ghost call trace and queues of pending completions.
  - `VPNManager` has the source's fields and methods. It assigns the provider's preferences field by field.
  - Every method is proved to take `State()` exactly where the matching `VPNModel` function says.
- `server_api.dfy`: module `ServerAPI`, the response decision table. The two JSON decoders are parameters of type `Bytes -> Option<T>`.
- `purchase.dfy`: module `Purchase`, the class `PurchaseManager` together with the functions and lemmas that specify it. One ordered log of `Effect`s records everything the manager does: its StoreKit calls, the callback invocations and the notifications it posts.

### Behaviour of the source worth knowing

- Assigning `autoconnect` any value different from its current one, false included, asks for a connect to the latest server (`VPN/VPNManager.swift:43-48`). Once the configuration has been loaded, the connect happens at once. Before that, the setter only sets `connectWhenConfigured`; the connect then happens when the first load completes, and only if the tunnel is not activated then (`VPN/VPNManager.swift:204-205`). Nothing ever clears `connectWhenConfigured` (`VPN/VPNManager.swift:47`). So every later configuration load connects again while the tunnel is not activated. That includes each `reload()`, such as the one the status handler makes for an invalid status, even after the user's own disconnect, and even when the load failed (`ReloadAfterDisconnectReconnects`).
- Earlier scheduled reconnects are never cancelled. Every busy `connect` adds one more, and all of them fire.
- A `disconnect` does not cancel a connect whose save is still outstanding. When that save completes, the tunnel is started even though the latest save stored a disabled configuration (`DisconnectDoesNotCancelPendingConnect`).
- The fallback host is the empty string (`defaultHost`). The controller itself never updates the latest connected host.
- The controller reads the provider's status live. The provider changes it on its own, and the status-change handler runs only later. In between, a command or a completion handler may already see the new status. Here the provider's change (`ProviderStatusChanged`) and the handler (`HandleConnectionStatusChange`, which reads the status as it is then) are separate steps. `ConnectBeforeStatusHandler` shows a connect saving with a reload pending before the handler's own load.
- `handleConfigurationLoaded` also runs when a load fails. In that case it still marks the controller configured and may connect.

## Model

| member | source | states |
|---|---|---|
| VPNModel.QueryRelations | VPN/VPNManager.swift:58-82 | `isDisconnected` holds iff the status is disconnected or invalid; `isActivated` iff enabled and not disconnected; connected implies not disconnected; the kill switch implies enabled |
| VPN.VPNManager.IsConnected | VPN/VPNManager.swift:58-60 | true iff the provider's status is connected |
| VPN.VPNManager.IsDisconnected | VPN/VPNManager.swift:62-64 | true iff the provider's status is disconnected or invalid |
| VPN.VPNManager.SelectedHost | VPN/VPNManager.swift:70-72 | the server address of the current protocol configuration, none without one |
| VPN.VPNManager.IsKillswitchActivated | VPN/VPNManager.swift:74-76 | true iff the provider is enabled and on-demand is enabled |
| VPN.VPNManager.IsActivated | VPN/VPNManager.swift:78-82 | true iff enabled and the status is neither disconnected nor invalid |
| VPNModel.DescriptionAsWritten | VPN/VPNManager.swift:11-24 | the description table as written: every key starts with "status.", the five keys other than `.connected` are ASCII, and the `.connected` key has a Cyrillic es (U+0441) right after the dot |
| VPNModel.DescriptionKeys | VPN/VPNManager.swift:11-24 | the corrected description keys are ASCII, start with "status.", name one status each, and agree with the source except for `.connected` |
| VPNModel.DescriptionAsWrittenConnectedNotAscii | VPN/VPNManager.swift:14 | the key written for `.connected` is not ASCII and differs from "status.connected" |
| VPNProperties.AutoconnectAssignment | VPN/VPNManager.swift:41-50 | assigning the current value changes nothing; any real change (either direction) connects to the latest server exactly once (one save, no start) when configured, and otherwise only sets `connectWhenConfigured` |
| VPN.VPNManager.SetAutoconnect | VPN/VPNManager.swift:41-50 | the setter with its `didSet` moves the state as `VPNModel.SetAutoconnect` |
| VPN.VPNManager.constructor | VPN/VPNManager.swift:37-41 | all flags false, nothing posted or scheduled |
| VPN.VPNManager.Initialize | VPN/VPNManager.swift:52-56 | loads the configuration with the default handler, then assigns `autoconnect` from the settings |
| VPN.VPNManager.Reload | VPN/VPNManager.swift:84-86 | one load whose completion is `handleConfigurationLoaded` |
| VPNProperties.ConnectToLatestServerTarget | VPN/VPNManager.swift:88-91 | the target is the latest connected host, or "" when there is none: a disconnected tunnel is configured for it, and a busy one gets exactly one pending disconnect save whose callback reconnects to it |
| VPN.VPNManager.ConnectToLatestServer | VPN/VPNManager.swift:88-91 | connects to the latest host or the default host |
| VPNProperties.ConnectWhileBusy | VPN/VPNManager.swift:93-101 | when not disconnected, connect only stops, clears both flags and saves with a reconnect to the same host as the save's callback: the whole new state is the old one with exactly those changes, so configuration, status, flags, settings, events and starts are untouched |
| VPNProperties.BusyConnectSchedulesOneReconnect | VPN/VPNManager.swift:94-99 | that disconnect's completion, whatever its error, schedules exactly one reconnect to the same host; the resulting state is the state after the connect with only that pending save removed and the reconnect appended |
| VPNModel.CreateVPNConfiguration | VPN/VPNManager.swift:179-194 | the configuration selects `host` as server address and remote identifier, authentication `.none` with extended authentication, the settings' user name and password reference, and disconnect on sleep |
| VPNProperties.ConnectFromDisconnected | VPN/VPNManager.swift:103-113 | from disconnected or invalid: server address and remote identifier are the host, no certificate or shared-secret authentication, extended authentication with the user name and password reference from the settings, disconnect on sleep, enabled; one connect-any rule and on-demand on iff the setting is on, otherwise both untouched; exactly one save; reload needed iff invalid |
| VPNProperties.ConnectSaveCompletion | VPN/VPNManager.swift:115-126 | on save error one `vpnError` with the message and no start; on success a load first when the tunnel was invalid, else a direct start |
| VPNProperties.StartAfterReloadCompletion | VPN/VPNManager.swift:118-122 | the load after a save ignores its outcome, starts the tunnel, then posts one `vpnStatus` |
| VPNProperties.ConnectFromInvalidStarts | VPN/VPNManager.swift:103-126 | a successful connect from an invalid tunnel issues save, load, start in that order and posts exactly one `vpnStatus` |
| VPNProperties.ConnectSavesOnce | VPN/VPNManager.swift:93-127 | every connect saves exactly once, starts nothing and posts nothing |
| VPN.VPNManager.Connect | VPN/VPNManager.swift:93-127 | moves the state as `VPNModel.Connect` |
| VPNProperties.DisconnectEffect | VPN/VPNManager.swift:129-140 | stop then save with `isEnabled` and `isOnDemandEnabled` false (kill switch off), configuration and rules kept; `requestIPWhenDisconnected` set iff no callback |
| VPNProperties.DisconnectCallbackRunsRegardless | VPN/VPNManager.swift:129-135 | the callback runs exactly once after the save, whether or not it failed: the controller's own reconnect is scheduled once, and a caller-supplied callback is recorded as run once |
| VPN.VPNManager.Disconnect | VPN/VPNManager.swift:129-140 | moves the state as `VPNModel.Disconnect` |
| VPN.TunnelProvider.StopVPNTunnel | VPN/VPNManager.swift:130 | records one stop, changes nothing else |
| VPN.TunnelProvider.SaveToPreferences | VPN/VPNManager.swift:152-154 | records the saved preferences and queues the completion handler |
| VPN.TunnelProvider.LoadFromPreferences | VPN/VPNManager.swift:148-150 | records one load and queues the completion handler |
| VPN.TunnelProvider.StartVPNTunnel | VPN/VPNManager.swift:171-177 | records one start; a start error has no effect on the state |
| VPN.TunnelProvider.TakeSaveCompletion | VPN/VPNManager.swift:152-154 | a finished save hands out the chosen pending handler and removes it from the queue; status, preferences, calls and pending loads are unchanged |
| VPN.TunnelProvider.TakeLoadCompletion | VPN/VPNManager.swift:148-150 | hands out the chosen pending handler; a successful load refreshes the preferences |
| VPNProperties.ConfigurationLoadedHandling | VPN/VPNManager.swift:197-207 | posts a hidden `vpnStatus`, plus a `vpnError` iff the load failed; marks configured; saves (connects) iff `connectWhenConfigured` and not activated, and then the result is a connect to the latest connected host, or "", from the configured state with those notifications posted |
| VPN.VPNManager.HandleConfigurationLoaded | VPN/VPNManager.swift:197-207 | moves the state as `VPNModel.HandleConfigurationLoaded` |
| VPN.VPNManager.LoadCompleted | VPN/VPNManager.swift:148-150 | a load started without a handler runs `handleConfigurationLoaded`; the reload of a connect starts and posts |
| VPN.VPNManager.SaveCompleted | VPN/VPNManager.swift:115-135 | runs the completion of the save that finished (connect's or disconnect's) |
| VPN.VPNManager.ReconnectFired | VPN/VPNManager.swift:96-98 | a due reconnect is removed and connects to its host |
| VPN.VPNManager.HandleConfigurationChange | VPN/VPNManager.swift:209-211 | posts one `vpnStatus` |
| VPNProperties.StatusChangeHandling | VPN/VPNManager.swift:213-219 | the handler reads the current status, reloads iff it is invalid, leaves the status as it is, and posts exactly one `vpnStatus` |
| VPN.VPNManager.HandleConnectionStatusChange | VPN/VPNManager.swift:213-219 | moves the state as `VPNModel.HandleConnectionStatusChange` |
| VPN.VPNManager.ProviderStatusChanged | VPN/VPNManager.swift:66-68 | the provider's status, which every query reads live, becomes the new value; nothing else changes and nothing is posted until the handler runs |
| VPN.TunnelProvider.ChangeStatus | VPN/VPNManager.swift:66-68 | sets the connection status and leaves the preferences, calls and pending handlers unchanged |
| VPNProperties.ConnectBeforeStatusHandler | VPN/VPNManager.swift:103-126 | the provider turns invalid, a connect runs before the status handler: the calls are an enabled save with a reload pending, then the handler's load |
| VPNProperties.FailedLoadStillConnects | VPN/VPNManager.swift:197-207 | a configuration load that completes with a failure while a connect is wished for and the tunnel is down posts the hidden status and the error, then saves an enabled configuration; the wish stays recorded |
| VPNProperties.ReloadAfterDisconnectReconnects | VPN/VPNManager.swift:41-50 | with autoconnect on: initialize, first load, connected, the user's disconnect, disconnected, reload; the wish to connect is still recorded and the reload's failed load saves an enabled configuration again |
| VPNProperties.AutoconnectAtStartup | VPN/VPNManager.swift:197-207 | start-up with autoconnect on over an invalid tunnel: load, then save of "vpn.example.com", then load, then start |
| VPNProperties.RunStartsNeverExceedEnabledSaves | VPN/VPNManager.swift:103-126 | in every run, the start calls made plus the starts still owed (outstanding connect saves and reloads before a start) never exceed the saves of an enabled configuration, so each start has its own enabled save, which only a connect from disconnected or invalid makes; the latest save may have been a disabling one |
| VPNProperties.InitialSatisfiesInvariant | VPN/VPNManager.swift:29-39 | a fresh controller has made no call and owes no start, so every run of it satisfies the start count |
| VPNProperties.DisconnectDoesNotCancelPendingConnect | VPN/VPNManager.swift:93-140 | connect, then disconnect, then the connect's save completes: the calls are an enabled save, stop, a disabled save, then start, so the tunnel starts with a disabled configuration stored |
| ServerAPI.CreateAPIResponse | Network/ServerAPI.swift:43-72 | no HTTP response gives `error("No HTTP Response", -1)`; success only for status 200; every error with a response carries the HTTP status as its code; decoded data came from a non-empty body |
| ServerAPI.NoResponseIsAnError | Network/ServerAPI.swift:44 | no HTTP response: `error("No HTTP Response", -1)` whatever the body |
| ServerAPI.OkWithDecodableBody | Network/ServerAPI.swift:49-53 | 200 with a non-empty body that decodes: success with the decoded value |
| ServerAPI.OkWithUndecodableBody | Network/ServerAPI.swift:54-55 | 200 with a non-empty body that does not decode: `error("Decoding failed", 200)` |
| ServerAPI.OkWithoutBody | Network/ServerAPI.swift:57-58 | 200 with no or empty body: success without data |
| ServerAPI.ServerErrorWithCode | Network/ServerAPI.swift:60-63 | non-200 whose body decodes as an error response: the message is the code in decimal and reads back as the code |
| ServerAPI.ServerErrorWithoutCode | Network/ServerAPI.swift:64-69 | non-200 with no body or an undecodable one: `error("Failed to decode error response", status)` |
| ServerAPI.IntToStringRoundTrip | Network/ServerAPI.swift:63 | `String(code)` gives the code back when parsed |
| ServerAPI.CodeMessagesAreNotFixedMessages | Network/ServerAPI.swift:63 | a message made from a code never equals one of the three fixed messages |
| ServerAPI.MakeRequest | Network/ServerAPI.swift:33-36 | URL is the base URL followed by the method's URI; method type, parameters as given, empty headers |
| ServerAPI.LoginRequestShape | Network/ServerAPI.swift:74-88 | login posts the token to the base URL + "login" with HTTP POST |
| Purchase.ProductIdentifiersAreTheTwelvePlans | Purchase/PurchaseManager.swift:38-43 | exactly twelve distinct identifiers: single and double, each for 7/30/90/180/365/730 |
| Purchase.PurchaseManager.constructor | Purchase/PurchaseManager.swift:27-30 | the identifier set is the set of the twelve ids; cache and slots empty; the first request gets identity 0; the log is empty |
| Purchase.PurchaseManager.Initialize | Purchase/PurchaseManager.swift:32-35 | requests the products without a callback |
| Purchase.PurchaseManager.RequestProducts | Purchase/PurchaseManager.swift:50-57 | cancels the outstanding request if any, puts the handler (possibly none) in the slot, starts a new request for all identifiers; cache unchanged |
| Purchase.PurchaseManager.BuyProduct | Purchase/PurchaseManager.swift:59-63 | adds a payment for the cached product, nothing when the id is not cached |
| Purchase.PurchaseManager.RestorePurchases | Purchase/PurchaseManager.swift:69-71 | asks the queue to restore completed transactions |
| Purchase.PurchaseManager.ProductsRequestDidReceive | Purchase/PurchaseManager.swift:78-86 | the stored callback (if any) is invoked once with (true, products), both slots cleared, then the cache is the old one with every product inserted under its id in order |
| Purchase.InsertAllContents | Purchase/PurchaseManager.swift:83-85 | each returned id maps to the last returned product with that id; every other entry is kept as it was |
| Purchase.InsertAllCachesEveryReturnedId | Purchase/PurchaseManager.swift:83-85 | every returned product's id is in the cache |
| Purchase.PurchaseManager.RequestDidFail | Purchase/PurchaseManager.swift:88-93 | the stored callback (if any) is invoked once with (false, nil), both slots cleared, cache unchanged |
| Purchase.PurchaseManager.ClearRequestAndHandler | Purchase/PurchaseManager.swift:95-98 | both slots empty, nothing else changes |
| Purchase.PurchaseManager.PaymentQueueUpdated | Purchase/PurchaseManager.swift:105-120 | the log grows by the handling of each transaction, in order |
| Purchase.OneNotificationPerTransaction | Purchase/PurchaseManager.swift:105-120 | exactly one notification per transaction, in order, with its identifier and the status matching its state |
| Purchase.OnlyRestoredAndFailedFinish | Purchase/PurchaseManager.swift:122-168 | the transactions finished are exactly the restored and failed ones, in order |
| Purchase.FinishedOnesMembers | Purchase/PurchaseManager.swift:144-160 | a transaction is finished iff it is in the batch and is restored or failed |
| Purchase.FailParams | Purchase/PurchaseManager.swift:152-157 | the "error" parameter is present iff there is an error whose code is not `paymentCancelled` |
| Purchase.ErrorNeverPublished | Purchase/PurchaseManager.swift:149-177 | the notifications do not depend on the transaction's error |
| Purchase.PurchaseManager.Complete | Purchase/PurchaseManager.swift:122-142 | posts `purchased`, does not finish |
| Purchase.PurchaseManager.Restore | Purchase/PurchaseManager.swift:144-147 | posts `restored`, then finishes |
| Purchase.PurchaseManager.Fail | Purchase/PurchaseManager.swift:149-160 | finishes, then posts `failed` |
| Purchase.PurchaseManager.Deferr | Purchase/PurchaseManager.swift:162-164 | posts `deferred`, does not finish |
| Purchase.PurchaseManager.Purchase | Purchase/PurchaseManager.swift:166-168 | posts `purchasing`, does not finish |
| Purchase.PurchaseManager.PostPurchaseNotification | Purchase/PurchaseManager.swift:170-177 | posts exactly the identifier and the status; the parameters are ignored |

## Left out

- The NetworkExtension internals (IKEv2 negotiation, how preferences are stored) are not modelled. The provider is an abstract record with a call trace. When a load succeeds, the preferences it returns are an input supplied by the environment.
- Notification delivery and observer registration (`subscribe`, `SKPaymentQueue.add(self)`) are not modelled. Posting a notification is modelled as appending to a log. The sender is omitted: `VPNManager` posts with `object: self` (`VPN/VPNManager.swift:157-158`), `PurchaseManager` with `object: nil` (`Purchase/PurchaseManager.swift:176`).
- The 0.5 s delay of `asyncAfter` is not modelled. Only the list of pending reconnects and the order in which they fire are kept. Completions and timers may be delivered in any order; the environment picks the index.
- A callback that a caller hands to `disconnect` is known only by an identifier; running it is recorded in `callbacksRun`. What the closure itself does belongs to the caller and is not modelled.
- Concurrency and main-queue serialisation are not modelled: each command, handler, completion and provider status change is one atomic step. The environment chooses the order, so a status change need not be followed by its handler before other steps, and the model does not force one handler per change.
- `print` of a start error and of a failed products request is not modelled. It has no effect on the state.
- The `@unknown default` branch of the status description (`"Error"`) is not modelled: the six known statuses are exhaustive here.
- `Storage` and `Settings` are external inputs (`VPNModel.Settings`). The environment may replace them between steps.
- Alamofire's I/O and `JSONDecoder` are not modelled. The decoders are parameters, and `login`'s callback is the caller's.
- StoreKit is not modelled: products, transactions and requests are abstract records.
  - `canMakePayments` is a query of StoreKit alone.
  - Receipt reading and base64 in `complete` are file I/O whose result is not used.
  - The unused `purchaseRequestCallback` field is not modelled.
  - The products request that answers is not compared with the stored one, and the model does not compare them either.
- ProductsRequestDidReceive: the products callback is assumed not to call back into the manager; it is logged as an inert `CallbackInvoked` effect. The source invokes it before `clearRequestAndHandler()` and before the cache is filled (`Purchase/PurchaseManager.swift:80-85`). So a callback that calls `requestProducts(h2)` has that new request and `h2` wiped by the clear that follows, and `h2` is never invoked. A callback that calls `buyProduct(id)` for a product just returned finds it missing from the cache unless an earlier response already cached it, and then does nothing. The model captures neither.
- RequestDidFail: the failure callback is assumed not to call back into the manager, as above. The source invokes it before `clearRequestAndHandler()` (`Purchase/PurchaseManager.swift:91-92`), so a callback that calls `requestProducts(h2)` has that request and `h2` wiped by the clear, and `h2` is never invoked. The model does not capture this.
- Cript/AES256.swift, the Core Data extensions and User Defaults/Settings.swift are not part of this model.

## Findings

| source | as written | input that shows it | evidently intended | confidence | as-written member | corrected member |
|---|---|---|---|---|---|---|
| VPN/VPNManager.swift:14 | the `.connected` description key is "status.сonnected", whose first letter after the dot is the Cyrillic es U+0441 | status `.connected` | "status.connected" in ASCII, like the other five keys, so that the localisation lookup finds it | medium, not executed | `VPNModel.DescriptionAsWritten`, shown by `VPNModel.DescriptionAsWrittenConnectedNotAscii` | `VPNModel.Description`, with `VPNModel.DescriptionKeys` |
