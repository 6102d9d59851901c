# Solar dVPN community core for iOS, modelled in Dafny

This project models the core of the Solar dVPN community core for iOS. That core is the part of the app that:
- keeps the device's WireGuard tunnels;
- builds a tunnel's configuration from the connection data a dVPN node hands out;
- decides whether a connect request may go ahead.

It covers three areas.

- **The tunnel registry and its state machine.** `TunnelsService` keeps a list of `TunnelContainer`s sorted by name, except after a rename whose save failed, which leaves the new name in place unsorted. It adds, modifies, removes and reloads tunnels against the system's stored VPN profiles. It lets only one tunnel change state at a time, using the `waiting` status. Each `TunnelContainer` has its own status and retries activation at most 8 times. `TunnelStatus` maps the system's VPN status onto the seven local states. The provider manager extension adds a configuration cache and the equivalence test that reload relies on.
- **Configuration derivation and the two text formats.**
  - `TunnelManager` decodes the node's 58-byte session blob into a scratch-pad model: `TunnelModel`, `TunnelInterfaceModel` and `PeersModel`. That model validates and caches on `save()`.
  - The wg-quick `[Interface]`/`[Peer]` format has a parser and a serialiser.
  - The WireGuard userspace-API "get" reply has a parser.
  - `splitToArray` and the keychain-reference helpers support both formats.
- **Connection gating.** `ConnectionNodeModel` runs these checks in turn:
  - it picks the subscription;
  - it checks the quota and whether the subscription is active;
  - it detects the (tunnel, session) state and decides from a table;
  - it checks the balance;
  - it signs the 8-byte big-endian session id.

  The rest of this area:
  - `ConnectionModel` is modelled as a log of the events it emits.
  - `SessionsService` validates the node's reply.
  - `SubscriptionsService` maps subscribe and cancel outcomes.
  - The settings storage, the storage route helpers, the DNS server table, the continent decoder, the network-error classes, mnemonic validation and the node and wallet-error extensions are modelled.

How the source is rendered in Dafny:
- Code that updates objects in place becomes a Dafny `class` with `modifies` and `reads` frames: the tunnel registry and containers, the scratch pads, the tunnel manager, the stores and the event log. Each method is proved against specification functions over values.
- Pure decisions and tables become functions and lemmas.
- The system (profile saves and loads, tunnel start and stop), the network, the wallet library, the keychain's answers and the clock are not modelled. What they answer is a parameter of the operation that receives the answer.
- A Swift completion chain becomes a step that takes the answer and returns the delegate calls it makes and the next request.
- Callbacks from KVO and notifications become explicit event methods.

Swift's runtime traps are explicit outcomes: the Int64 overflow of the quota subtraction, and `Int(id)` above the signed range. Integer widths are subset types of `nat`.

## Model

| member | source | states |
|---|---|---|
| ArrayConversion.SplitOptionalToArray | SolardVPNCommunityCoreiOS/Shared/Extentions/String+ArrayConversion.swift:18-21 | a nil text gives no pieces; a text gives exactly the pieces of the non-optional split |
| ArrayConversion.VerbatimPieces | SolardVPNCommunityCoreiOS/Shared/Extentions/String+ArrayConversion.swift:9-15 | without trimming, every piece is a non-empty run of the text that holds no separator (empty runs are dropped) |
| ArrayConversion.TrimmedPieces | SolardVPNCommunityCoreiOS/Shared/Extentions/String+ArrayConversion.swift:9-15 | with trimming, every piece is trimmed, comes from a non-empty run, and is empty exactly when that run was all whitespace |
| ArrayConversion.CommaListRoundTrip | SolardVPNCommunityCoreiOS/Shared/Extentions/String+ArrayConversion.swift:9-15 | non-empty trimmed comma-free items written joined by ", " split back, with trimming, into the same items |
| TunnelStatuses.FromRawValue | SolardVPNCommunityCoreiOS/SOLARdVPNCommunityCoreiOS/Tunnel/Service/TunnelStatus.swift:12-20 | the Int raw value decodes exactly for 0..6 |
| TunnelStatuses.RawValueRoundTrip | SolardVPNCommunityCoreiOS/SOLARdVPNCommunityCoreiOS/Tunnel/Service/TunnelStatus.swift:12-20 | raw values are one per case and decode back to their case |
| TunnelStatuses.RawValueCovers | SolardVPNCommunityCoreiOS/SOLARdVPNCommunityCoreiOS/Tunnel/Service/TunnelStatus.swift:12-20 | every number 0..6 is the raw value of some case |
| TunnelStatuses.FromVPNStatus | SolardVPNCommunityCoreiOS/SOLARdVPNCommunityCoreiOS/Tunnel/Service/TunnelStatus.swift:22-39 | no system status maps to restarting or waiting |
| TunnelStatuses.FromVPNStatusDisconnected | SolardVPNCommunityCoreiOS/SOLARdVPNCommunityCoreiOS/Tunnel/Service/TunnelStatus.swift:22-39 | a tunnel reads disconnected exactly for the system statuses disconnected and invalid |
| TunnelStatuses.FromVPNStatusImage | SolardVPNCommunityCoreiOS/SOLARdVPNCommunityCoreiOS/Tunnel/Service/TunnelStatus.swift:22-39 | the local states produced from a system status are exactly those other than restarting and waiting |
| TunnelErrors.ServiceErrorDescriptionNamesCase | SolardVPNCommunityCoreiOS/SOLARdVPNCommunityCoreiOS/Services/Tunnel/Service/TunnelsServiceStatusDelegate.swift:10-33 | two service errors have the same description exactly when they are the same case |
| DNSServerTypes.FromRawValue | SolardVPNCommunityCoreiOS/SOLARdVPNCommunityCoreiOS/Services/DNSServers/DNSServerType.swift:10-13 | only a case name is recognised, and it names the case it gives |
| DNSServerTypes.RawValueRoundTrip | SolardVPNCommunityCoreiOS/SOLARdVPNCommunityCoreiOS/Services/DNSServers/DNSServerType.swift:10-13 | every raw value reads back as its case; the three cases are listed once each |
| DNSServerTypes.AddressIsServerList | SolardVPNCommunityCoreiOS/SOLARdVPNCommunityCoreiOS/Services/DNSServers/DNSServerType.swift:15-24 | each provider's address is its two servers' dotted quads joined by ", " |
| DNSServerTypes.CloudflareTexts | SolardVPNCommunityCoreiOS/SOLARdVPNCommunityCoreiOS/Services/DNSServers/DNSServerType.swift:17-18 | Cloudflare's servers are 1.1.1.1 and 1.0.0.1 |
| DNSServerTypes.GoogleTexts | SolardVPNCommunityCoreiOS/SOLARdVPNCommunityCoreiOS/Services/DNSServers/DNSServerType.swift:19-20 | Google's servers are 8.8.8.8 and 8.8.4.4 |
| DNSServerTypes.HandshakeTexts | SolardVPNCommunityCoreiOS/SOLARdVPNCommunityCoreiOS/Services/DNSServers/DNSServerType.swift:21-22 | Handshake's servers are 103.196.38.38 and 103.196.38.39 |
| DNSServerTypes.AddressSplitsIntoTwoServers | SolardVPNCommunityCoreiOS/SOLARdVPNCommunityCoreiOS/Services/DNSServers/DNSServerType.swift:15-24 | every provider's address splits back into exactly its two servers, and both read as DNS servers with no search domain |
| NameOrder.NameIsLessAsymmetric | SolardVPNCommunityCoreiOS/SOLARdVPNCommunityCoreiOS/Tunnel/Service/TunnelsService.swift:28-30 | no name is less than itself, and the name order is asymmetric |
| NameOrder.NameIsLessTransitive | SolardVPNCommunityCoreiOS/SOLARdVPNCommunityCoreiOS/Tunnel/Service/TunnelsService.swift:28-30 | the name order is transitive |
| NameOrder.NameIsLessIgnoresCase | SolardVPNCommunityCoreiOS/SOLARdVPNCommunityCoreiOS/Tunnel/Service/TunnelsService.swift:28-30 | names that differ only in letter case are equivalent |
| NameOrder.NameIsLessNegativelyTransitive | SolardVPNCommunityCoreiOS/SOLARdVPNCommunityCoreiOS/Tunnel/Service/TunnelsService.swift:28-30 | the name order is a strict weak order, which sorting needs |
| TunnelsServices.FirstIndexOf | SolardVPNCommunityCoreiOS/SOLARdVPNCommunityCoreiOS/Tunnel/Service/TunnelsService.swift:256 | the index found holds the status asked for and is the first that does; none means no tunnel has it |
| TunnelsServices.FirstIndexNotOf | SolardVPNCommunityCoreiOS/SOLARdVPNCommunityCoreiOS/Tunnel/Service/TunnelsService.swift:260 | the index found is the first tunnel not in the status given; none means every tunnel is in it |
| TunnelsServices.ResetWaiting | SolardVPNCommunityCoreiOS/SOLARdVPNCommunityCoreiOS/Tunnel/Service/TunnelsService.swift:256-258 | the statuses keep their length and only a waiting tunnel can change, to disconnected |
| TunnelsServices.Arbitrate | SolardVPNCommunityCoreiOS/SOLARdVPNCommunityCoreiOS/Tunnel/Service/TunnelsService.swift:248-271 | a wait or a handover names tunnels of the list, and the statuses it plans cover the whole list |
| TunnelsServices.ArbitrationOutcome | SolardVPNCommunityCoreiOS/SOLARdVPNCommunityCoreiOS/Tunnel/Service/TunnelsService.swift:248-271 | activation is refused exactly for a tunnel that is not disconnected; it proceeds only when every other tunnel is disconnected or waiting; it waits behind the first tunnel in operation when that one is disconnecting, and otherwise deactivates that tunnel and activates a waiting one; with at most one tunnel waiting before, at most one waits after and the handover activates the requested tunnel |
| TunnelsServices.ArbitrateProceeds | SolardVPNCommunityCoreiOS/SOLARdVPNCommunityCoreiOS/Tunnel/Service/TunnelsService.swift:260-270 | with no tunnel in operation once the waiting one is reset, the requested tunnel is activated |
| TunnelsServices.ArbitrateWaits | SolardVPNCommunityCoreiOS/SOLARdVPNCommunityCoreiOS/Tunnel/Service/TunnelsService.swift:260-267 | when the first tunnel in operation is disconnecting, the requested tunnel only waits for it |
| TunnelsServices.ArbitrateHandsOver | SolardVPNCommunityCoreiOS/SOLARdVPNCommunityCoreiOS/Tunnel/Service/TunnelsService.swift:260-267 | when the first tunnel in operation is not disconnecting, it is deactivated and the first waiting tunnel is handed the activation |
| TunnelsServices.InsertByName | SolardVPNCommunityCoreiOS/SOLARdVPNCommunityCoreiOS/Tunnel/Service/TunnelsService.swift:155-156 | inserting into a list sorted by name keeps it sorted and adds exactly that tunnel |
| TunnelsServices.SortByName | SolardVPNCommunityCoreiOS/SOLARdVPNCommunityCoreiOS/Tunnel/Service/TunnelsService.swift:20-23 | the result is sorted by name and a permutation of the input; distinct tunnels stay distinct |
| TunnelsServices.SortedContainersFor | SolardVPNCommunityCoreiOS/SOLARdVPNCommunityCoreiOS/Tunnel/Service/TunnelsService.swift:20-23 | one fresh container per distinct profile, sorted by name, with exactly the profiles given |
| TunnelsServices.ContainersFor | SolardVPNCommunityCoreiOS/SOLARdVPNCommunityCoreiOS/Tunnel/Service/TunnelsService.swift:21-22 | one fresh container per profile, in order, each made for its profile |
| TunnelsServices.WithoutKeeps | SolardVPNCommunityCoreiOS/SOLARdVPNCommunityCoreiOS/Tunnel/Service/TunnelsService.swift:350-352 | taking a tunnel out keeps the list free of repeats, its profiles distinct and its order by name |
| TunnelsServices.WithoutContents | SolardVPNCommunityCoreiOS/SOLARdVPNCommunityCoreiOS/Tunnel/Service/TunnelsService.swift:350-352 | taking a tunnel out removes exactly one copy of it when listed, and none remains in a list without repeats |
| TunnelsServices.StatusChangeOutcome | SolardVPNCommunityCoreiOS/SOLARdVPNCommunityCoreiOS/Tunnel/Service/TunnelsService.swift:390-425 | after a status notification no tunnel is left waiting; a tunnel not restarting takes the system's status; a restarting tunnel stays restarting exactly while the system is neither connected nor disconnected, is activated again when the system disconnects and becomes connected, with success reported, when it connects; an invalid session reports a deactivation and ends the activation attempt |
| TunnelsServices.DeactivationReports | SolardVPNCommunityCoreiOS/SOLARdVPNCommunityCoreiOS/Tunnel/Service/TunnelsService.swift:287-291 | the delegate hears nothing exactly when the tunnel was disconnected or disconnecting |
| TunnelsServices.DeactivatedOutcome | SolardVPNCommunityCoreiOS/SOLARdVPNCommunityCoreiOS/Tunnel/Service/TunnelsService.swift:287-291 | deactivation leaves the tunnel disconnected or disconnecting and not attempting activation, asks the session to stop only for a tunnel in operation, changes nothing else and is idempotent |
| TunnelsServices.Deactivate | SolardVPNCommunityCoreiOS/SOLARdVPNCommunityCoreiOS/Tunnel/Service/TunnelsService.swift:287-291 | the tunnel's new state is its deactivated state and the reports are those of its former status |
| TunnelsServices.SetOnDemandEnabled | SolardVPNCommunityCoreiOS/SOLARdVPNCommunityCoreiOS/Tunnel/Service/TunnelsService.swift:161-186 | the profile takes the on-demand flag; a failed save is addTunnelFailed, a failed reload loadTunnelsFailed, and otherwise the tunnel is returned; after a save the container's flag follows the profile's |
| TunnelsServices.DestroyAndRefresh | SolardVPNCommunityCoreiOS/SOLARdVPNCommunityCoreiOS/Tunnel/Service/TunnelsService.swift:340-356 | the keychain item of the profile, if any, is deleted and nothing else in the keychain; the tunnel's status is refreshed from the system |
| TunnelsServices.EditProfile | SolardVPNCommunityCoreiOS/SOLARdVPNCommunityCoreiOS/Tunnel/Service/TunnelsService.swift:193-214 | the tunnel is renamed exactly when the name differs from the profile's, refused exactly when it is renamed to a taken name, and reconfigured exactly when the profile does not answer this configuration |
| TunnelsServices.FinishModify | SolardVPNCommunityCoreiOS/SOLARdVPNCommunityCoreiOS/Tunnel/Service/TunnelsService.swift:228-244 | a reconfigured tunnel in operation is marked restarting and its session asked to stop; the on-demand flag follows the profile's; the reload error decides the result |
| TunnelsServices.HandleStatusChange | SolardVPNCommunityCoreiOS/SOLARdVPNCommunityCoreiOS/Tunnel/Service/TunnelsService.swift:390-425 | the tunnel's new state, its reports and its activation attempts are those the notification outcome prescribes |
| TunnelsServices.ActivationKeepsOneWaiting | SolardVPNCommunityCoreiOS/SOLARdVPNCommunityCoreiOS/Tunnel/Service/TunnelsService.swift:248-271 | with at most one waiting tunnel before activation there is at most one after; a waiting tunnel is the requested one and a handover activates it |
| TunnelsServices.RevivalLeavesNoneActive | SolardVPNCommunityCoreiOS/SOLARdVPNCommunityCoreiOS/Tunnel/Service/TunnelsService.swift:143-152 | after a tunnel is added the formerly active tunnel is not connected or connecting: one still active is marked restarting, a disconnecting one is refused and a disconnected one is activated again |
| TunnelsServices.ActivatedFromDisconnected | SolardVPNCommunityCoreiOS/SOLARdVPNCommunityCoreiOS/Tunnel/Service/TunnelsService.swift:248-271 | a disconnected tunnel asked to activate ends connecting, waiting or disconnected |
| TunnelsServices.NotificationKeepsOneWaiting | SolardVPNCommunityCoreiOS/SOLARdVPNCommunityCoreiOS/Tunnel/Service/TunnelsService.swift:363-426 | a notification never leaves a tunnel waiting that was not waiting before, keeps at most one waiting, and once the awaited tunnel is down activates the one waiting for it |
| TunnelsServices.EquivalentIsSameIdentity | SolardVPNCommunityCoreiOS/SOLARdVPNCommunityCoreiOS/Tunnel/Service/TunnelsService.swift:434-441 | a profile is equivalent to a tunnel exactly when both have the same identity |
| TunnelsServices.AnyEquivalentIsOffered | SolardVPNCommunityCoreiOS/SOLARdVPNCommunityCoreiOS/Tunnel/Service/TunnelsService.swift:434 | a tunnel has an equivalent loaded profile exactly when its identity is among those the loaded profiles offer |
| TunnelsServices.SurvivorsAre | SolardVPNCommunityCoreiOS/SOLARdVPNCommunityCoreiOS/Tunnel/Service/TunnelsService.swift:433-438 | a listed tunnel survives the first half of a reload exactly when its identity is offered, and only listed tunnels survive |
| TunnelsServices.Unmatched | SolardVPNCommunityCoreiOS/SOLARdVPNCommunityCoreiOS/Tunnel/Service/TunnelsService.swift:433-438 | removing from the last index to the first leaves exactly the survivors, in order |
| TunnelsServices.FirstActive | SolardVPNCommunityCoreiOS/SOLARdVPNCommunityCoreiOS/Tunnel/Service/TunnelsService.swift:131 | the tunnel found is listed and connected or connecting; none means no listed tunnel is |
| TunnelsServices.FirstProvidedBy | SolardVPNCommunityCoreiOS/SOLARdVPNCommunityCoreiOS/Tunnel/Service/TunnelsService.swift:384 | the index found is the first tunnel with that profile; none means no tunnel has it |
| TunnelsServices.TunnelsService.constructor | SolardVPNCommunityCoreiOS/SOLARdVPNCommunityCoreiOS/Tunnel/Service/TunnelsService.swift:20-26 | one new container per profile, sorted by name, no tunnel awaited |
| TunnelsServices.TunnelsService.StartActivation | SolardVPNCommunityCoreiOS/SOLARdVPNCommunityCoreiOS/Tunnel/Service/TunnelsService.swift:248-271 | an unlisted tunnel changes nothing; otherwise the list's new states, the awaited tunnel and the delegate calls are the activation outcome of the old states |
| TunnelsServices.TunnelsService.StartActivationOfLastTunnel | SolardVPNCommunityCoreiOS/SOLARdVPNCommunityCoreiOS/Tunnel/Service/TunnelsService.swift:273-276 | an empty list changes nothing; otherwise the last tunnel's activation outcome |
| TunnelsServices.TunnelsService.StartDeactivationOfActiveTunnel | SolardVPNCommunityCoreiOS/SOLARdVPNCommunityCoreiOS/Tunnel/Service/TunnelsService.swift:279-285 | true exactly when the list is non-empty and its last tunnel not disconnected; that tunnel is then set not to connect on demand and deactivated |
| TunnelsServices.TunnelsService.Remove | SolardVPNCommunityCoreiOS/SOLARdVPNCommunityCoreiOS/Tunnel/Service/TunnelsService.swift:336-357 | the profile's keychain item is deleted and the status refreshed; a failed removal is removeTunnelFailed with the list unchanged; otherwise the tunnel leaves the list, which stays sorted if it was |
| TunnelsServices.TunnelsService.RequestAdd | SolardVPNCommunityCoreiOS/SOLARdVPNCommunityCoreiOS/Tunnel/Service/TunnelsService.swift:107-131 | no name or an empty one is emptyName and a taken name nameAlreadyExists, with nothing stored; otherwise a new enabled on-demand profile holds the configuration and the first active tunnel is remembered |
| TunnelsServices.TunnelsService.CompleteAdd | SolardVPNCommunityCoreiOS/SOLARdVPNCommunityCoreiOS/Tunnel/Service/TunnelsService.swift:133-158 | a failed save deletes the new profile's keychain item and is addTunnelFailed; otherwise the formerly active tunnel is revived and a container for the new profile joins the list, which is sorted again |
| TunnelsServices.TunnelsService.Revive | SolardVPNCommunityCoreiOS/SOLARdVPNCommunityCoreiOS/Tunnel/Service/TunnelsService.swift:145-152 | a listed tunnel's revival is the revival outcome; an unlisted one still active is only marked restarting |
| TunnelsServices.TunnelsService.Modify | SolardVPNCommunityCoreiOS/SOLARdVPNCommunityCoreiOS/Tunnel/Service/TunnelsService.swift:188-246 | an empty name is emptyName with nothing changed; nameAlreadyExists exactly for a new name that a listed tunnel has; otherwise the profile holds the configuration, a failed save is addTunnelFailed, a rename sorts the list again, a reconfigured tunnel in operation restarts, and the reload decides between loadTunnelsFailed and success |
| TunnelsServices.TunnelsService.AfterModifySaved | SolardVPNCommunityCoreiOS/SOLARdVPNCommunityCoreiOS/Tunnel/Service/TunnelsService.swift:223-244 | a rename sorts the list again; the tunnel's new state and the result are those of the completion |
| TunnelsServices.TunnelsService.Reload | SolardVPNCommunityCoreiOS/SOLARdVPNCommunityCoreiOS/Tunnel/Service/TunnelsService.swift:428-459 | any list is accepted, sorted or not; a sorted list stays sorted and one that gained a container is sorted again; a listed tunnel is kept exactly when a loaded profile is equivalent to it, every other tunnel is new, and the identities listed are exactly those of the loaded profiles |
| TunnelsServices.TunnelsService.AwaitedStatusChanged | SolardVPNCommunityCoreiOS/SOLARdVPNCommunityCoreiOS/Tunnel/Service/TunnelsService.swift:363-372 | nothing happens until the awaited tunnel is disconnected; then the observation ends and the first waiting tunnel, if any, is activated |
| TunnelsServices.TunnelsService.StatusDidChange | SolardVPNCommunityCoreiOS/SOLARdVPNCommunityCoreiOS/Tunnel/Service/TunnelsService.swift:375-426 | a notification for a profile no listed tunnel has changes nothing; otherwise the first such tunnel's new state, the awaited tunnel and the delegate calls are the notification outcome |
| TunnelsServices.TunnelsService.StartDeactivationOf | SolardVPNCommunityCoreiOS/SOLARdVPNCommunityCoreiOS/Tunnel/Service/TunnelsService.swift:287-291 | the tunnel's new state is its deactivated state, the delegate hears the reports of its former status, and a listed tunnel changes in place |
| TunnelContainers.ActivationAtBound | SolardVPNCommunityCoreiOS/SOLARdVPNCommunityCoreiOS/Services/Tunnel/Service/TunnelContainer.swift:80-91 | at the retry bound nothing is attempted or changed, and retryLimitReached is reported exactly when there is a last error |
| TunnelContainers.ActivationAttempts | SolardVPNCommunityCoreiOS/SOLARdVPNCommunityCoreiOS/Services/Tunnel/Service/TunnelContainer.swift:75-184 | below the bound an activation makes between one and the remaining number of attempts and ends with exactly one report |
| TunnelContainers.ActivationRetryLimit | SolardVPNCommunityCoreiOS/SOLARdVPNCommunityCoreiOS/Services/Tunnel/Service/TunnelContainer.swift:80-91 | the retry limit is reported only after every remaining attempt was made |
| TunnelContainers.ActivationEnds | SolardVPNCommunityCoreiOS/SOLARdVPNCommunityCoreiOS/Services/Tunnel/Service/TunnelContainer.swift:136-184 | below the bound the tunnel ends connecting or disconnected, disconnected exactly when starting or reloading failed, and a successful start leaves it attempting activation |
| TunnelContainers.TunnelContainer.constructor | SolardVPNCommunityCoreiOS/SOLARdVPNCommunityCoreiOS/Services/Tunnel/Service/TunnelContainer.swift:59-65 | the name is the profile's or "Unnamed", the status and on-demand flag follow the profile's, and no activation is under way |
| TunnelContainers.TunnelContainer.RefreshStatus | SolardVPNCommunityCoreiOS/SOLARdVPNCommunityCoreiOS/Services/Tunnel/Service/TunnelContainer.swift:67-73 | a restarting tunnel is left alone; otherwise status and on-demand flag follow the system's |
| TunnelContainers.TunnelContainer.StartActivation | SolardVPNCommunityCoreiOS/SOLARdVPNCommunityCoreiOS/Services/Tunnel/Service/TunnelContainer.swift:75-104 | the loop over attempts ends in the state, reports and attempt count the recursive activation prescribes |
| TunnelContainers.TunnelContainer.AttemptActivation | SolardVPNCommunityCoreiOS/SOLARdVPNCommunityCoreiOS/Services/Tunnel/Service/TunnelContainer.swift:115-184 | one attempt either ends the activation with its reports or continues it with the next count and last error |
| TunnelContainers.TunnelContainer.StartDeactivation | SolardVPNCommunityCoreiOS/SOLARdVPNCommunityCoreiOS/Services/Tunnel/Service/TunnelContainer.swift:106-111 | the session is asked to stop once, the tunnel is disconnected and the delegate hears deactivationSucceeded |
| TunnelProviders.Keychain.OpenReference | SolardVPNCommunityCoreiOS/Shared/Keychain.swift:14-29 | the stored text comes back exactly when the item exists, and it is the item's text |
| TunnelProviders.Keychain.DeleteReference | SolardVPNCommunityCoreiOS/Shared/Keychain.swift:70-75 | exactly that item is gone; nothing else changes |
| TunnelProviders.Keychain.MakeReference | SolardVPNCommunityCoreiOS/Shared/Keychain.swift:31-68 | a reference comes back exactly when the bundle is known and the system stores the item; it is new, holds the text, and the old reference is then deleted; on failure nothing changes |
| TunnelProviders.Endpoints | SolardVPNCommunityCoreiOS/Shared/Extentions/NETunnelProviderProtocol+Extension.swift:30 | the endpoints are those the peers have, no more than one per peer, and none exactly when no peer has one |
| TunnelProviders.EndpointTextHasColon | SolardVPNCommunityCoreiOS/Shared/Extentions/NETunnelProviderProtocol+Extension.swift:36 | an endpoint's text holds the ':' after the host |
| TunnelProviders.ServerAddressCases | SolardVPNCommunityCoreiOS/Shared/Extentions/NETunnelProviderProtocol+Extension.swift:30-39 | the server address is "Unspecified" exactly when no peer has an endpoint, the endpoint's text when exactly one has, and "Multiple endpoints" exactly when several have |
| TunnelProviders.ProviderProtocol.constructor | SolardVPNCommunityCoreiOS/Shared/Extentions/NETunnelProviderProtocol+Extension.swift:17 | a loaded protocol holds the bundle identifier, reference, provider configuration and server address given |
| TunnelProviders.ProviderProtocol.LegacyConfig | SolardVPNCommunityCoreiOS/Shared/Extentions/NETunnelProviderProtocol+Extension.swift:46 | the legacy text is present exactly when the provider configuration holds the "WireGuardConfig" key |
| TunnelProviders.ProviderProtocol.AsTunnelConfiguration | SolardVPNCommunityCoreiOS/Shared/Extentions/NETunnelProviderProtocol+Extension.swift:42-50 | the keychain text is parsed when the reference opens, else the legacy text; a configuration comes back exactly when that text parses, named as asked |
| TunnelProviders.ProviderProtocol.VerifyConfigurationReference | SolardVPNCommunityCoreiOS/Shared/Extentions/NETunnelProviderProtocol+Extension.swift:57-60 | true exactly when there is a reference and the keychain item it names opens; false after the item is destroyed |
| TunnelProviders.ProviderProtocol.DestroyConfigurationReference | SolardVPNCommunityCoreiOS/Shared/Extentions/NETunnelProviderProtocol+Extension.swift:52-55 | the referenced keychain item is deleted; without a reference nothing changes |
| TunnelProviders.ProviderProtocol.MigrateConfigurationIfNeeded | SolardVPNCommunityCoreiOS/Shared/Extentions/NETunnelProviderProtocol+Extension.swift:62-72 | true exactly when there was legacy text; it then clears the provider configuration and makes a keychain item holding that text only when there was no reference; without legacy text nothing changes |
| TunnelProviders.NewProviderProtocol | SolardVPNCommunityCoreiOS/Shared/Extentions/NETunnelProviderProtocol+Extension.swift:18-40 | no protocol and nothing stored without a name or bundle identifier; otherwise a protocol exactly when the keychain stores the item, naming the network extension, referencing a new item that holds the configuration's wg-quick text, and showing the server address |
| TunnelProviders.ProviderManager.constructor | SolardVPNCommunityCoreiOS/SOLARdVPNCommunityCoreiOS/Common/Extensions/VPN/NETunnelProviderManager+Ext.swift:12 | a profile as the system hands it over, with nothing cached and no stop requested |
| TunnelProviders.ProviderManager.LoadedConfiguration | SolardVPNCommunityCoreiOS/SOLARdVPNCommunityCoreiOS/Common/Extensions/VPN/NETunnelProviderManager+Ext.swift:23-40 | the cached configuration if there is one, nothing without a tunnel-provider protocol, and otherwise a configuration named after the profile |
| TunnelProviders.ProviderManager.TunnelConfiguration | SolardVPNCommunityCoreiOS/SOLARdVPNCommunityCoreiOS/Common/Extensions/VPN/NETunnelProviderManager+Ext.swift:23-40 | answers the loaded configuration, caches a freshly parsed one and leaves an existing cache alone |
| TunnelProviders.ProviderManager.SetTunnelConfiguration | SolardVPNCommunityCoreiOS/SOLARdVPNCommunityCoreiOS/Common/Extensions/VPN/NETunnelProviderManager+Ext.swift:42-52 | the profile is renamed after the configuration and answers it from now on; a protocol exists exactly when it could be made, and its keychain item holds the configuration's wg-quick text; flags and status are unchanged |
| TunnelProviders.EquivalentToOwnTunnel | SolardVPNCommunityCoreiOS/SOLARdVPNCommunityCoreiOS/Common/Extensions/VPN/NETunnelProviderManager+Ext.swift:54-56 | a profile is equivalent to its own tunnel exactly when its name is the tunnel's name |
| TunnelProviders.ReloadedProfileEquivalent | SolardVPNCommunityCoreiOS/SOLARdVPNCommunityCoreiOS/Common/Extensions/VPN/NETunnelProviderManager+Ext.swift:54-56 | a profile saved with a configuration and reloaded without its cache answers the same configuration, so it is equivalent to the saved manager under that name |
| PeersModels.FilledFields | SolardVPNCommunityCoreiOS/SOLARdVPNCommunityCoreiOS/Services/Tunnel/Model/PeersModel.swift:171-186 | the public key is always shown, in base64 |
| PeersModels.WithField | SolardVPNCommunityCoreiOS/SOLARdVPNCommunityCoreiOS/Services/Tunnel/Model/PeersModel.swift:70-77 | the field reads back as the value written (an empty value removes it), and every other field is unchanged |
| PeersModels.ExcludeStatesTable | SolardVPNCommunityCoreiOS/SOLARdVPNCommunityCoreiOS/Services/Tunnel/Model/PeersModel.swift:134-169 | the control is offered exactly for a single peer routing the default route or every public range, is on exactly when the default route is absent and every public range present, and for a single peer is offered exactly when DNS is strongly recommended |
| PeersModels.OtherFieldKeepsAllowed | SolardVPNCommunityCoreiOS/SOLARdVPNCommunityCoreiOS/Services/Tunnel/Model/PeersModel.swift:70-80 | editing a field other than the allowed IPs leaves the allowed IPs as they were |
| PeersModels.SaveFields | SolardVPNCommunityCoreiOS/SOLARdVPNCommunityCoreiOS/Services/Tunnel/Model/PeersModel.swift:87-131 | a missing public key is publicKeyRequired and an undecodable one publicKeyInvalid; a saved peer has the decoded key and an optional field exactly when the scratch pad had it, and no byte counts |
| PeersModels.FilledPreSharedKey | SolardVPNCommunityCoreiOS/SOLARdVPNCommunityCoreiOS/Services/Tunnel/Model/PeersModel.swift:97-102 | the pre-shared key shown reads back as the peer's |
| PeersModels.FilledAllowedIPs | SolardVPNCommunityCoreiOS/SOLARdVPNCommunityCoreiOS/Services/Tunnel/Model/PeersModel.swift:104-114 | the allowed IPs shown read back as the peer's |
| PeersModels.FilledEndpoint | SolardVPNCommunityCoreiOS/SOLARdVPNCommunityCoreiOS/Services/Tunnel/Model/PeersModel.swift:116-121 | the endpoint shown reads back as the peer's |
| PeersModels.FilledKeepAlive | SolardVPNCommunityCoreiOS/SOLARdVPNCommunityCoreiOS/Services/Tunnel/Model/PeersModel.swift:123-128 | the keepalive shown reads back as the peer's |
| PeersModels.FillThenSave | SolardVPNCommunityCoreiOS/SOLARdVPNCommunityCoreiOS/Services/Tunnel/Model/PeersModel.swift:84-132 | what is shown for a peer saves back into the same peer, less its byte counts |
| PeersModels.PeerModel.constructor | SolardVPNCommunityCoreiOS/SOLARdVPNCommunityCoreiOS/Services/Tunnel/Model/PeersModel.swift:61-63 | a new peer has the index given, an empty scratch pad, no cache, all flags off and no peers counted |
| PeersModels.PeerModel.PublicKey | SolardVPNCommunityCoreiOS/SOLARdVPNCommunityCoreiOS/Services/Tunnel/Model/PeersModel.swift:46-54 | the cached peer's key when there is one; nothing without a cache or a key text |
| PeersModels.PeerModel.ExcludePrivateIPsFieldStates | SolardVPNCommunityCoreiOS/SOLARdVPNCommunityCoreiOS/Services/Tunnel/Model/PeersModel.swift:144-169 | the two flags become the exclude states for the peer count and allowed IPs |
| PeersModels.PeerModel.UpdateExcludePrivateIPs | SolardVPNCommunityCoreiOS/SOLARdVPNCommunityCoreiOS/Services/Tunnel/Model/PeersModel.swift:134-140 | the scratch pad is filled if empty and the three flags agree with its allowed IPs and the peer count |
| PeersModels.PeerModel.FillData | SolardVPNCommunityCoreiOS/SOLARdVPNCommunityCoreiOS/Services/Tunnel/Model/PeersModel.swift:171-198 | without a cache nothing changes; otherwise the fields come from the cache and the flags follow them |
| PeersModels.PeerModel.Get | SolardVPNCommunityCoreiOS/SOLARdVPNCommunityCoreiOS/Services/Tunnel/Model/PeersModel.swift:66-69 | the value of a field, "" when absent, once an empty scratch pad is filled |
| PeersModels.PeerModel.Set | SolardVPNCommunityCoreiOS/SOLARdVPNCommunityCoreiOS/Services/Tunnel/Model/PeersModel.swift:70-81 | the field is written or removed, the cache dropped, and the flags refreshed after an edit of the allowed IPs |
| PeersModels.PeerModel.Save | SolardVPNCommunityCoreiOS/SOLARdVPNCommunityCoreiOS/Services/Tunnel/Model/PeersModel.swift:84-132 | a cached result is returned as it is; otherwise the fields are validated and a success cached, a failure leaving the cache unchanged |
| TunnelInterfaceModels.FilledFields | SolardVPNCommunityCoreiOS/SOLARdVPNCommunityCoreiOS/Tunnel/Model/TunnelInterfaceModel.swift:131-156 | name and both keys are always shown, the public key derived from the private one; addresses, listen port, MTU and DNS are shown exactly when the configuration has them, and no other field |
| TunnelInterfaceModels.SetThenGet | SolardVPNCommunityCoreiOS/SOLARdVPNCommunityCoreiOS/Tunnel/Model/TunnelInterfaceModel.swift:38-57 | a field reads back as the value written ("" for a cleared one), other fields are untouched, and the public key follows a 44-character decodable private key and is removed for any other |
| TunnelInterfaceModels.SaveFields | SolardVPNCommunityCoreiOS/SOLARdVPNCommunityCoreiOS/Tunnel/Model/TunnelInterfaceModel.swift:65-127 | a missing or blank name is nameRequired, then a missing private key privateKeyRequired; a saved interface has the trimmed name, the decoded key, a listen port and an MTU exactly when those fields were present, and an MTU of at least 576 |
| TunnelInterfaceModels.AddressesRoundTrip | SolardVPNCommunityCoreiOS/SOLARdVPNCommunityCoreiOS/Tunnel/Model/TunnelInterfaceModel.swift:80-90 | the addresses as shown read back as the same ranges |
| TunnelInterfaceModels.SplitDNSAppend | SolardVPNCommunityCoreiOS/SOLARdVPNCommunityCoreiOS/Tunnel/Model/TunnelInterfaceModel.swift:111-117 | an entry that reads as a DNS server joins the servers, any other the search domains |
| TunnelInterfaceModels.SplitDNSOfServers | SolardVPNCommunityCoreiOS/SOLARdVPNCommunityCoreiOS/Tunnel/Model/TunnelInterfaceModel.swift:111-153 | server texts read back as the same servers and no search domain |
| TunnelInterfaceModels.SplitDNSOfTexts | SolardVPNCommunityCoreiOS/SOLARdVPNCommunityCoreiOS/Tunnel/Model/TunnelInterfaceModel.swift:111-153 | server texts followed by search domains that are not servers split back into the same two lists |
| TunnelInterfaceModels.DNSRoundTrip | SolardVPNCommunityCoreiOS/SOLARdVPNCommunityCoreiOS/Tunnel/Model/TunnelInterfaceModel.swift:107-153 | the DNS field as shown reads back as the same servers and search domains |
| TunnelInterfaceModels.FillThenSave | SolardVPNCommunityCoreiOS/SOLARdVPNCommunityCoreiOS/Tunnel/Model/TunnelInterfaceModel.swift:65-127 | what is shown for a named interface saves back into the same name and configuration |
| TunnelInterfaceModels.FilledAddresses | SolardVPNCommunityCoreiOS/SOLARdVPNCommunityCoreiOS/Tunnel/Model/TunnelInterfaceModel.swift:80-90 | the shown addresses save back as the configuration's |
| TunnelInterfaceModels.FilledListenPort | SolardVPNCommunityCoreiOS/SOLARdVPNCommunityCoreiOS/Tunnel/Model/TunnelInterfaceModel.swift:92-144 | the shown listen port saves back as the configuration's |
| TunnelInterfaceModels.FilledMTU | SolardVPNCommunityCoreiOS/SOLARdVPNCommunityCoreiOS/Tunnel/Model/TunnelInterfaceModel.swift:100-147 | the shown MTU saves back as the configuration's |
| TunnelInterfaceModels.FilledDNS | SolardVPNCommunityCoreiOS/SOLARdVPNCommunityCoreiOS/Tunnel/Model/TunnelInterfaceModel.swift:107-153 | the shown DNS saves back as the configuration's servers and search domains |
| TunnelInterfaceModels.InterfaceModel.constructor | SolardVPNCommunityCoreiOS/SOLARdVPNCommunityCoreiOS/Tunnel/Model/TunnelInterfaceModel.swift:60-63 | an empty scratch pad over the configuration and name given |
| TunnelInterfaceModels.InterfaceModel.SaveOutcome | SolardVPNCommunityCoreiOS/SOLARdVPNCommunityCoreiOS/Tunnel/Model/TunnelInterfaceModel.swift:65-66 | the cached name and configuration when both are cached, otherwise the validated fields |
| TunnelInterfaceModels.InterfaceModel.FillData | SolardVPNCommunityCoreiOS/SOLARdVPNCommunityCoreiOS/Tunnel/Model/TunnelInterfaceModel.swift:131-156 | the fields come from the cache when there is one; otherwise nothing changes |
| TunnelInterfaceModels.InterfaceModel.Get | SolardVPNCommunityCoreiOS/SOLARdVPNCommunityCoreiOS/Tunnel/Model/TunnelInterfaceModel.swift:32-37 | the value of a field, "" when absent, once an empty scratch pad is filled |
| TunnelInterfaceModels.InterfaceModel.Set | SolardVPNCommunityCoreiOS/SOLARdVPNCommunityCoreiOS/Tunnel/Model/TunnelInterfaceModel.swift:38-57 | the field is written with the public key following the private key, and the cache is dropped |
| TunnelInterfaceModels.InterfaceModel.Save | SolardVPNCommunityCoreiOS/SOLARdVPNCommunityCoreiOS/Tunnel/Model/TunnelInterfaceModel.swift:65-127 | a cached result is returned unchanged; otherwise the fields are validated and a success is cached, a failure leaving the cache as it was |
| TunnelModels.CollectPeers | SolardVPNCommunityCoreiOS/SOLARdVPNCommunityCoreiOS/Services/Tunnel/Model/TunnelModel.swift:86-93 | the peers collect exactly when every one saved, in order; otherwise the first failure is the answer |
| TunnelModels.SetSizeIffDistinct | SolardVPNCommunityCoreiOS/SOLARdVPNCommunityCoreiOS/Services/Tunnel/Model/TunnelModel.swift:95-97 | the array of public keys and its set have the same size exactly when no two peers share a key |
| TunnelModels.CollateSucceeds | SolardVPNCommunityCoreiOS/SOLARdVPNCommunityCoreiOS/Services/Tunnel/Model/TunnelModel.swift:74-109 | a tunnel saves exactly when its interface and every peer save and no two peers share a public key; it then holds the interface, its name and the peers in order |
| TunnelModels.CollateFails | SolardVPNCommunityCoreiOS/SOLARdVPNCommunityCoreiOS/Services/Tunnel/Model/TunnelModel.swift:78-99 | the interface's error comes first, then the first failing peer's, and only then publicKeyDuplicated |
| TunnelModels.RangeTexts | SolardVPNCommunityCoreiOS/SOLARdVPNCommunityCoreiOS/Services/Tunnel/Model/TunnelModel.swift:60-66 | no more entries than the list had |
| TunnelModels.Without | SolardVPNCommunityCoreiOS/SOLARdVPNCommunityCoreiOS/Services/Tunnel/Model/TunnelModel.swift:68 | exactly the entries of the first list that are not in the second |
| TunnelModels.ReplacedServersMembers | SolardVPNCommunityCoreiOS/SOLARdVPNCommunityCoreiOS/Services/Tunnel/Model/TunnelModel.swift:59-68 | an entry is in the new allowed IPs exactly when it was there and is not an old server's range, or is a new server's range |
| TunnelModels.ReplacedServersReadBack | SolardVPNCommunityCoreiOS/SOLARdVPNCommunityCoreiOS/Services/Tunnel/Model/TunnelModel.swift:68-69 | the joined allowed IPs the peer stores read back as exactly the new list |
| TunnelModels.PeerOutcomes | SolardVPNCommunityCoreiOS/SOLARdVPNCommunityCoreiOS/Services/Tunnel/Model/TunnelModel.swift:76 | one result per peer, each what that peer's save gives |
| TunnelModels.UpdatePeers | SolardVPNCommunityCoreiOS/SOLARdVPNCommunityCoreiOS/Services/Tunnel/Model/TunnelModel.swift:118-125 | every peer knows the peer count, shows its fields, and has flags that agree with them |
| TunnelModels.TunnelModel.constructor | SolardVPNCommunityCoreiOS/SOLARdVPNCommunityCoreiOS/Services/Tunnel/Model/TunnelModel.swift:17-35 | the interface pad caches the saved interface and name, and there is one peer pad per saved peer, at its own index, caching it, with flags updated |
| TunnelModels.TunnelModel.AppendEmptyPeer | SolardVPNCommunityCoreiOS/SOLARdVPNCommunityCoreiOS/Services/Tunnel/Model/TunnelModel.swift:37-42 | one new blank peer at the end, the others unchanged, and every peer's flags updated |
| TunnelModels.TunnelModel.DeletePeer | SolardVPNCommunityCoreiOS/SOLARdVPNCommunityCoreiOS/Services/Tunnel/Model/TunnelModel.swift:44-53 | the peer at the given index leaves, later peers move one place down and keep their own indices, and the flags are updated |
| TunnelModels.TunnelModel.UpdateDNSServersIfRequired | SolardVPNCommunityCoreiOS/SOLARdVPNCommunityCoreiOS/Services/Tunnel/Model/TunnelModel.swift:55-72 | true exactly for a single peer whose exclude-private-IPs control is offered and on; its allowed IPs then lose the old servers' ranges and gain the new ones', and otherwise nothing changes |
| TunnelModels.TunnelModel.Save | SolardVPNCommunityCoreiOS/SOLARdVPNCommunityCoreiOS/Services/Tunnel/Model/TunnelModel.swift:74-109 | the result collates the interface's and the peers' save results, and each success is cached |
| TunnelModels.TunnelModel.AsWireGuardConfig | SolardVPNCommunityCoreiOS/SOLARdVPNCommunityCoreiOS/Services/Tunnel/Model/TunnelModel.swift:111-114 | the wg-quick text of the saved tunnel, or nothing when it does not save |
| TunnelModels.InitialPeers | SolardVPNCommunityCoreiOS/SOLARdVPNCommunityCoreiOS/Services/Tunnel/Model/TunnelModel.swift:23-34 | one fresh pad per saved peer, at its index, caching it, with flags updated |
| TunnelModels.NewPeers | SolardVPNCommunityCoreiOS/SOLARdVPNCommunityCoreiOS/Services/Tunnel/Model/TunnelModel.swift:23-30 | one fresh pad per saved peer, at its index, caching it and showing its fields |
| TunnelModels.LowerIndices | SolardVPNCommunityCoreiOS/SOLARdVPNCommunityCoreiOS/Services/Tunnel/Model/TunnelModel.swift:47-50 | every pad after the deleted one moves its index one down; the earlier ones keep theirs |
| TunnelModels.SavePeers | SolardVPNCommunityCoreiOS/SOLARdVPNCommunityCoreiOS/Services/Tunnel/Model/TunnelModel.swift:76 | each pad's save result, in order, with the successes cached and the other caches kept |
| TunnelModels.CollateResults | SolardVPNCommunityCoreiOS/SOLARdVPNCommunityCoreiOS/Services/Tunnel/Model/TunnelModel.swift:78-108 | the result is the collation of the interface's and the peers' results |
| TunnelModels.CollectFirstFailure | SolardVPNCommunityCoreiOS/SOLARdVPNCommunityCoreiOS/Services/Tunnel/Model/TunnelModel.swift:86-89 | the first failing peer's error is what collecting reports |
| TunnelManagers.Port | SolardVPNCommunityCoreiOS/SOLARdVPNCommunityCoreiOS/Services/Tunnel/Manager/TunnelManager.swift:98-100 | the port is read big-endian: byte 24 is its high byte and byte 25 its low byte |
| TunnelManagers.PublicKeyFromRaw | SolardVPNCommunityCoreiOS/SOLARdVPNCommunityCoreiOS/Services/Tunnel/Manager/TunnelManager.swift:108-110 | a key comes out of the bytes exactly when there are 32 of them |
| TunnelManagers.AddressReadsBack | SolardVPNCommunityCoreiOS/SOLARdVPNCommunityCoreiOS/Services/Tunnel/Manager/TunnelManager.swift:97 | the interface address written from bytes 0-3 parses back as those bytes with prefix 32 |
| TunnelManagers.PortReadsBack | SolardVPNCommunityCoreiOS/SOLARdVPNCommunityCoreiOS/Services/Tunnel/Manager/TunnelManager.swift:98-103 | the listen port written in decimal parses back as the same 16-bit port |
| TunnelManagers.DottedQuadIsHost | SolardVPNCommunityCoreiOS/SOLARdVPNCommunityCoreiOS/Services/Tunnel/Manager/TunnelManager.swift:105 | the dotted quad of bytes 20-23 is a host an endpoint accepts |
| TunnelManagers.EndpointReadsBack | SolardVPNCommunityCoreiOS/SOLARdVPNCommunityCoreiOS/Services/Tunnel/Manager/TunnelManager.swift:105-106 | the endpoint written for the peer parses back as the node's dotted quad and the same port |
| TunnelManagers.PeerKeyReadsBack | SolardVPNCommunityCoreiOS/SOLARdVPNCommunityCoreiOS/Services/Tunnel/Manager/TunnelManager.swift:108-111 | the peer key is never the empty fallback and decodes back to bytes 26-57 |
| TunnelManagers.KeyBase64Length | SolardVPNCommunityCoreiOS/SOLARdVPNCommunityCoreiOS/Services/Tunnel/Manager/TunnelManager.swift:92-93 | a key's base64 text has the length of a key in base64 |
| TunnelManagers.ProfileInterfaceEdits | SolardVPNCommunityCoreiOS/SOLARdVPNCommunityCoreiOS/Services/Tunnel/Manager/TunnelManager.swift:92-103 | the five interface assignments, in their order, give exactly the profile's interface fields |
| TunnelManagers.ProfilePeerEdits | SolardVPNCommunityCoreiOS/SOLARdVPNCommunityCoreiOS/Services/Tunnel/Manager/TunnelManager.swift:105-111 | the endpoint and key assignments give exactly the profile's peer fields |
| TunnelManagers.ProfileInterfaceFields | SolardVPNCommunityCoreiOS/SOLARdVPNCommunityCoreiOS/Services/Tunnel/Manager/TunnelManager.swift:92-103 | the profile's interface holds both keys, the DNS servers, the address and the port, and keeps the name and MTU |
| TunnelManagers.ProfilePeerFields | SolardVPNCommunityCoreiOS/SOLARdVPNCommunityCoreiOS/Services/Tunnel/Manager/TunnelManager.swift:105-111 | the first peer holds the node's endpoint and key, and keeps every other field |
| TunnelManagers.PreparedPeerFields | SolardVPNCommunityCoreiOS/SOLARdVPNCommunityCoreiOS/Services/Tunnel/Manager/TunnelManager.swift:12-66 | a prepared peer routes everything with a 25-second keepalive, and alone it is offered the exclude-private-IPs control, off |
| TunnelManagers.AllowedIPsAlone | SolardVPNCommunityCoreiOS/SOLARdVPNCommunityCoreiOS/Services/Tunnel/Manager/TunnelManager.swift:13 | the allowed IPs "0.0.0.0/0" are a single entry |
| TunnelManagers.PrepareModel | SolardVPNCommunityCoreiOS/SOLARdVPNCommunityCoreiOS/Services/Tunnel/Manager/TunnelManager.swift:60-67 | the interface is named "dVPN tunnel", there is a first peer (a blank one added when there were none), and it is prepared |
| TunnelManagers.PrepareFirstPeer | SolardVPNCommunityCoreiOS/SOLARdVPNCommunityCoreiOS/Services/Tunnel/Manager/TunnelManager.swift:62-66 | the same peers, or one new blank peer, and the first one prepared with current flags |
| TunnelManagers.EnsurePeer | SolardVPNCommunityCoreiOS/SOLARdVPNCommunityCoreiOS/Services/Tunnel/Manager/TunnelManager.swift:62-64 | a model without peers gets one blank peer; one with peers keeps them |
| TunnelManagers.PreparePeer | SolardVPNCommunityCoreiOS/SOLARdVPNCommunityCoreiOS/Services/Tunnel/Manager/TunnelManager.swift:65-66 | the first peer takes the default route and the keepalive, with no cached configuration and current flags |
| TunnelManagers.UpsertPlan | SolardVPNCommunityCoreiOS/SOLARdVPNCommunityCoreiOS/Services/Tunnel/Manager/TunnelManager.swift:159-180 | a failed save is reported; a saved configuration is added when the service lists no tunnel and modifies the last tunnel otherwise, with the activation flag passed on |
| TunnelManagers.AfterAdd | SolardVPNCommunityCoreiOS/SOLARdVPNCommunityCoreiOS/Services/Tunnel/Manager/TunnelManager.swift:186-199 | a failure is reported, and an added tunnel is activated exactly when activation was asked for |
| TunnelManagers.AfterModify | SolardVPNCommunityCoreiOS/SOLARdVPNCommunityCoreiOS/Services/Tunnel/Manager/TunnelManager.swift:208-223 | a failure is reported; a modified tunnel is activated exactly when asked for and not restarting, and a reconnection is reported otherwise |
| TunnelManagers.FollowUpEvents | SolardVPNCommunityCoreiOS/SOLARdVPNCommunityCoreiOS/Services/Tunnel/Manager/TunnelManager.swift:191-219 | an error or a reconnection reaches the delegate, and an activation tells it nothing |
| TunnelManagers.FillInterface | SolardVPNCommunityCoreiOS/SOLARdVPNCommunityCoreiOS/Services/Tunnel/Manager/TunnelManager.swift:92-103 | the interface pad holds the profile's interface fields and has no cached configuration |
| TunnelManagers.FillPeer | SolardVPNCommunityCoreiOS/SOLARdVPNCommunityCoreiOS/Services/Tunnel/Manager/TunnelManager.swift:105-111 | the first peer pad holds the profile's peer fields and has no cached configuration |
| TunnelManagers.FillModel | SolardVPNCommunityCoreiOS/SOLARdVPNCommunityCoreiOS/Services/Tunnel/Manager/TunnelManager.swift:92-111 | the interface and first peer hold the profile's fields, and the other peers would save as before |
| TunnelManagers.LastIn | SolardVPNCommunityCoreiOS/SOLARdVPNCommunityCoreiOS/Services/Tunnel/Manager/TunnelManager.swift:52-54 | the last tunnel of the service, and nothing without a service or a tunnel |
| TunnelManagers.Upsert | SolardVPNCommunityCoreiOS/SOLARdVPNCommunityCoreiOS/Services/Tunnel/Manager/TunnelManager.swift:159-180 | the step asked of the service follows the collated save of the model, and the delegate hears the status update and any save error |
| TunnelManagers.CreateProfile | SolardVPNCommunityCoreiOS/SOLARdVPNCommunityCoreiOS/Services/Tunnel/Manager/TunnelManager.swift:86-114 | the model is filled from the connection data and upserted with activation; the delegate hears the status update twice |
| TunnelManagers.UpdateModel | SolardVPNCommunityCoreiOS/SOLARdVPNCommunityCoreiOS/Services/Tunnel/Manager/TunnelManager.swift:121-122 | the DNS field takes the new servers and the model is upserted without activation, which can only modify the last tunnel |
| TunnelManagers.LoadModel | SolardVPNCommunityCoreiOS/SOLARdVPNCommunityCoreiOS/Services/Tunnel/Manager/TunnelManager.swift:149-152 | a new model from the last tunnel's configuration, named and with its first peer prepared |
| TunnelManagers.ReloadModel | SolardVPNCommunityCoreiOS/SOLARdVPNCommunityCoreiOS/Services/Tunnel/Manager/TunnelManager.swift:148-152 | the model is reloaded from the service's last tunnel when it lists one, and prepared either way |
| TunnelManagers.TunnelManager.constructor | SolardVPNCommunityCoreiOS/SOLARdVPNCommunityCoreiOS/Services/Tunnel/Manager/TunnelManager.swift:38-46 | keeps the storage and the model, and has no service until its creation completes |
| TunnelManagers.TunnelManager.LastTunnel | SolardVPNCommunityCoreiOS/SOLARdVPNCommunityCoreiOS/Services/Tunnel/Manager/TunnelManager.swift:52-54 | the service's last tunnel, and nothing without a service or a tunnel |
| TunnelManagers.TunnelManager.IsTunnelActive | SolardVPNCommunityCoreiOS/SOLARdVPNCommunityCoreiOS/Services/Tunnel/Manager/TunnelManager.swift:56-58 | active exactly when there is a service, it lists a tunnel, and the last tunnel is connected |
| TunnelManagers.TunnelManager.PrepareTunnelModel | SolardVPNCommunityCoreiOS/SOLARdVPNCommunityCoreiOS/Services/Tunnel/Manager/TunnelManager.swift:60-67 | the model's interface is named, and its first peer exists and is prepared |
| TunnelManagers.TunnelManager.CreateNewProfile | SolardVPNCommunityCoreiOS/SOLARdVPNCommunityCoreiOS/Services/Tunnel/Manager/TunnelManager.swift:86-114 | the model takes the profile built from the connection data and the selected DNS provider, and the add or modify request follows its save |
| TunnelManagers.TunnelManager.Update | SolardVPNCommunityCoreiOS/SOLARdVPNCommunityCoreiOS/Services/Tunnel/Manager/TunnelManager.swift:116-123 | nothing unless the last tunnel is connected; then the DNS field changes and the last tunnel is modified without activation, or the save error is reported |
| TunnelManagers.TunnelManager.ServiceCreated | SolardVPNCommunityCoreiOS/SOLARdVPNCommunityCoreiOS/Services/Tunnel/Manager/TunnelManager.swift:135-157 | a failure is reported and nothing is kept; a service is kept and the model reloaded; the delegate hears of the creation either way |
| TunnelManagers.TunnelManager.AddCompleted | SolardVPNCommunityCoreiOS/SOLARdVPNCommunityCoreiOS/Services/Tunnel/Manager/TunnelManager.swift:182-201 | a failure is reported; an added tunnel is activated through the service exactly when asked for, and the list keeps its tunnels |
| TunnelManagers.TunnelManager.ModifyCompleted | SolardVPNCommunityCoreiOS/SOLARdVPNCommunityCoreiOS/Services/Tunnel/Manager/TunnelManager.swift:203-225 | a failure is reported; a modified tunnel that is not restarting is activated when asked for, and a reconnection is reported otherwise |
| WireGuardConfig.ParseRanges | SolardVPNCommunityCoreiOS/Shared/Extentions/TunnelConfiguration+WireGuardConfig.swift:165-219 | when every item parses, one range per item, in order; otherwise the first item that does not parse is reported |
| WireGuardConfig.ParseRangesAllParse | SolardVPNCommunityCoreiOS/Shared/Extentions/TunnelConfiguration+WireGuardConfig.swift:165-173 | a list whose items all parse gives exactly their ranges |
| WireGuardConfig.FirstBadRangeUnique | SolardVPNCommunityCoreiOS/Shared/Extentions/TunnelConfiguration+WireGuardConfig.swift:167-169 | the item reported is the one and only first failing item |
| WireGuardConfig.SplitDNS | SolardVPNCommunityCoreiOS/Shared/Extentions/TunnelConfiguration+WireGuardConfig.swift:175-187 | every entry becomes either a server or a search domain, and the search domains are the entries that do not parse as servers |
| WireGuardConfig.InterfaceFromAttributes | SolardVPNCommunityCoreiOS/Shared/Extentions/TunnelConfiguration+WireGuardConfig.swift:151-195 | the private key is required and must decode; the port and MTU are present exactly when their keys are |
| WireGuardConfig.PeerFromAttributes | SolardVPNCommunityCoreiOS/Shared/Extentions/TunnelConfiguration+WireGuardConfig.swift:197-234 | the public key is required and must decode; the optional fields are present exactly when their keys are; no byte counts |
| WireGuardConfig.CollateRanges | SolardVPNCommunityCoreiOS/Shared/Extentions/TunnelConfiguration+WireGuardConfig.swift:166-172 | the address loop gives what ParseRanges gives |
| WireGuardConfig.CollateDNS | SolardVPNCommunityCoreiOS/Shared/Extentions/TunnelConfiguration+WireGuardConfig.swift:176-186 | the DNS loop gives what SplitDNS gives |
| WireGuardConfig.CollateInterface | SolardVPNCommunityCoreiOS/Shared/Extentions/TunnelConfiguration+WireGuardConfig.swift:151-195 | the interface collation gives what InterfaceFromAttributes gives |
| WireGuardConfig.CollatePeer | SolardVPNCommunityCoreiOS/Shared/Extentions/TunnelConfiguration+WireGuardConfig.swift:197-234 | the peer collation gives what PeerFromAttributes gives |
| WireGuardConfig.StripComment | SolardVPNCommunityCoreiOS/Shared/Extentions/TunnelConfiguration+WireGuardConfig.swift:28-32 | the line before its first "#", which holds no "#" |
| WireGuardConfig.CloseSection | SolardVPNCommunityCoreiOS/Shared/Extentions/TunnelConfiguration+WireGuardConfig.swift:70-80 | outside a section nothing is collated; a second interface fails multipleInterfaces; a peer section adds one peer |
| WireGuardConfig.WgQuickParse | SolardVPNCommunityCoreiOS/Shared/Extentions/TunnelConfiguration+WireGuardConfig.swift:17-102 | a parsed tunnel has the name given and no two peers with one public key |
| WireGuardConfig.ReadAttribute | SolardVPNCommunityCoreiOS/Shared/Extentions/TunnelConfiguration+WireGuardConfig.swift:38-65 | the attribute half of the loop body gives what AddAttribute gives |
| WireGuardConfig.ParseWireGuardConfig | SolardVPNCommunityCoreiOS/Shared/Extentions/TunnelConfiguration+WireGuardConfig.swift:17-102 | the parser's loop gives what WgQuickParse gives |
| WireGuardConfig.AddressTexts | SolardVPNCommunityCoreiOS/Shared/Extentions/TunnelConfiguration+WireGuardConfig.swift:113-135 | one text per range, each that range's representation |
| WireGuardConfig.DNSTexts | SolardVPNCommunityCoreiOS/Shared/Extentions/TunnelConfiguration+WireGuardConfig.swift:118 | one text per server, each that server's representation |
| WireGuardConfig.AppendOptional | SolardVPNCommunityCoreiOS/Shared/Extentions/TunnelConfiguration+WireGuardConfig.swift:108-126 | an optional line is written, with its newline, only when its field is present |
| WireGuardConfig.AppendInterface | SolardVPNCommunityCoreiOS/Shared/Extentions/TunnelConfiguration+WireGuardConfig.swift:105-126 | the interface lines, in their order |
| WireGuardConfig.AppendPeer | SolardVPNCommunityCoreiOS/Shared/Extentions/TunnelConfiguration+WireGuardConfig.swift:129-143 | one peer block: a blank line, the header, the public key and the present optional lines |
| WireGuardConfig.AppendPeerOptions | SolardVPNCommunityCoreiOS/Shared/Extentions/TunnelConfiguration+WireGuardConfig.swift:131-143 | the optional lines of a peer block, in their order |
| WireGuardConfig.PeersTextStep | SolardVPNCommunityCoreiOS/Shared/Extentions/TunnelConfiguration+WireGuardConfig.swift:128-144 | the text of one more peer extends the text of the peers before it |
| WireGuardConfig.AsWireGuardConfig | SolardVPNCommunityCoreiOS/Shared/Extentions/TunnelConfiguration+WireGuardConfig.swift:104-147 | the interface section, then one block per peer in order |
| WgQuickRoundTrip.ParserSteps | SolardVPNCommunityCoreiOS/Shared/Extentions/TunnelConfiguration+WireGuardConfig.swift:37-89 | a "Key = value" line whose key the section accepts and has not seen adds the lowercased key with its value, and closes the section on the last line; a header line closes the section before it and opens its own |
| WgQuickRoundTrip.SectionStep | SolardVPNCommunityCoreiOS/Shared/Extentions/TunnelConfiguration+WireGuardConfig.swift:21-89 | a section as the serialiser writes it, after a section that closes well, leaves the parser in its own section holding exactly its entries' attributes |
| WgQuickRoundTrip.PeersStep | SolardVPNCommunityCoreiOS/Shared/Extentions/TunnelConfiguration+WireGuardConfig.swift:70-89 | peer sections whose attributes collate to peers `ps` add `ps` in order to the peers read, and leave the interface as it was |
| WgQuickRoundTrip.TextStep | SolardVPNCommunityCoreiOS/Shared/Extentions/TunnelConfiguration+WireGuardConfig.swift:17-89 | an interface section then peer sections give back the interface and the peers in order |
| WgQuickRoundTrip.InterfaceLinesAre | SolardVPNCommunityCoreiOS/Shared/Extentions/TunnelConfiguration+WireGuardConfig.swift:105-126 | the interface lines the serialiser writes are a header and the "Key = value" entries of the present fields, in the serialiser's order |
| WgQuickRoundTrip.PeerLinesAre | SolardVPNCommunityCoreiOS/Shared/Extentions/TunnelConfiguration+WireGuardConfig.swift:128-143 | a peer's lines are a blank line, a header and the entries of its present fields |
| WgQuickRoundTrip.InterfaceSectionReads | SolardVPNCommunityCoreiOS/Shared/Extentions/TunnelConfiguration+WireGuardConfig.swift:37-66 | the interface's entries all fit the interface section, and reading them gives the attributes that name each written field once |
| WgQuickRoundTrip.PeerSectionReads | SolardVPNCommunityCoreiOS/Shared/Extentions/TunnelConfiguration+WireGuardConfig.swift:37-66 | a peer's entries all fit the peer section, and reading them gives the attributes that name each written field once |
| WgQuickRoundTrip.InterfaceCollate | SolardVPNCommunityCoreiOS/Shared/Extentions/TunnelConfiguration+WireGuardConfig.swift:151-195 | `collate(interfaceAttributes:)` on the written attributes gives back the interface written |
| WgQuickRoundTrip.PeerCollate | SolardVPNCommunityCoreiOS/Shared/Extentions/TunnelConfiguration+WireGuardConfig.swift:197-234 | `collate(peerAttributes:)` on the written attributes gives back the peer written, when it has no transfer counters |
| WgQuickRoundTrip.SplitText | SolardVPNCommunityCoreiOS/Shared/Extentions/TunnelConfiguration+WireGuardConfig.swift:21 | the written text splits at line breaks into the interface's section and the peers' sections; the blank lines before the peers are dropped |
| WgQuickRoundTrip.TextReads | SolardVPNCommunityCoreiOS/Shared/Extentions/TunnelConfiguration+WireGuardConfig.swift:17-89 | the parser's loop reads the written text as the interface and the peers written, whether or not the peers' keys are distinct |
| WgQuickRoundTrip.WgQuickRoundTrip | SolardVPNCommunityCoreiOS/Shared/Extentions/TunnelConfiguration+WireGuardConfig.swift:17-147 | the text `asWireGuardConfig()` writes parses, under the same name, to the configuration written, for peers with distinct keys and no counters and for search domains the DNS line carries |
| WgQuickRoundTrip.SharedKeyRefused | SolardVPNCommunityCoreiOS/Shared/Extentions/TunnelConfiguration+WireGuardConfig.swift:91-95 | a configuration whose peers share a public key is written, but its text is refused with multiplePeersWithSamePublicKey |
| WgQuickErrors.KeyLineStep | SolardVPNCommunityCoreiOS/Shared/Extentions/TunnelConfiguration+WireGuardConfig.swift:37-89 | the state after a "Key = value" line is what adding its attribute gives: the failure, or the new attributes, closed on the last line |
| WgQuickErrors.InvalidLineStep | SolardVPNCommunityCoreiOS/Shared/Extentions/TunnelConfiguration+WireGuardConfig.swift:37-65 | a non-blank line with no "=" that is not a header is refused as invalidLine, naming the line |
| WgQuickErrors.RepeatedKeyStep | SolardVPNCommunityCoreiOS/Shared/Extentions/TunnelConfiguration+WireGuardConfig.swift:44-52 | a repeated key is refused with multipleEntriesForKey, naming the key as written, unless it is address, allowedips or dns, whose values are joined with a comma |
| WgQuickErrors.UnrecognizedKeyStep | SolardVPNCommunityCoreiOS/Shared/Extentions/TunnelConfiguration+WireGuardConfig.swift:54-62 | a key the interface section does not know is interfaceHasUnrecognizedKey, one the peer section does not know is peerHasUnrecognizedKey, and before the first header no key is checked |
| WgQuickErrors.SecondInterfaceStep | SolardVPNCommunityCoreiOS/Shared/Extentions/TunnelConfiguration+WireGuardConfig.swift:70-75 | a header after an interface section, when an interface was already read, is refused with multipleInterfaces |
| WgQuickErrors.InterfaceTwiceRefused | SolardVPNCommunityCoreiOS/Shared/Extentions/TunnelConfiguration+WireGuardConfig.swift:17-89 | the interface's lines written twice are refused with multipleInterfaces |
| WgQuickErrors.PeersOnlyRefused | SolardVPNCommunityCoreiOS/Shared/Extentions/TunnelConfiguration+WireGuardConfig.swift:91-99 | peer sections without an interface section are refused with noInterface, or with multiplePeersWithSamePublicKey first when two peers share a key |
| UapiConfig.KeyAccumulator | SolardVPNCommunityCoreiOS/SOLARdVPNCommunityCoreiOS/Common/Extensions/VPN/TunnelConfiguration+Ext.swift:136-142 | the OR of the key's bytes is zero exactly for the all-zero key |
| UapiConfig.NonZeroField | SolardVPNCommunityCoreiOS/SOLARdVPNCommunityCoreiOS/Common/Extensions/VPN/TunnelConfiguration+Ext.swift:160-183 | an absent field is unset; a present one must parse, and a zero value leaves it unset |
| UapiConfig.UapiInterfaceFromAttributes | SolardVPNCommunityCoreiOS/SOLARdVPNCommunityCoreiOS/Common/Extensions/VPN/TunnelConfiguration+Ext.swift:104-121 | a hex private key is required; a zero listen port is left unset; no addresses, DNS or MTU |
| UapiConfig.CheckHandshakeTime | SolardVPNCommunityCoreiOS/SOLARdVPNCommunityCoreiOS/Common/Extensions/VPN/TunnelConfiguration+Ext.swift:184-199 | without the seconds field nothing is checked; a failure names the malformed field's text |
| UapiConfig.UapiPeerFromAttributes | SolardVPNCommunityCoreiOS/SOLARdVPNCommunityCoreiOS/Common/Extensions/VPN/TunnelConfiguration+Ext.swift:123-201 | a hex public key is required; an all-zero pre-shared key, a zero keepalive and zero byte counts are left unset; the endpoint is set exactly when given |
| UapiConfig.UapiPeerCounters | SolardVPNCommunityCoreiOS/SOLARdVPNCommunityCoreiOS/Common/Extensions/VPN/TunnelConfiguration+Ext.swift:160-183 | the counters are set only when non-zero, and nothing else of the peer changes |
| UapiConfig.CollateUapiInterface | SolardVPNCommunityCoreiOS/SOLARdVPNCommunityCoreiOS/Common/Extensions/VPN/TunnelConfiguration+Ext.swift:104-121 | the interface collation gives what UapiInterfaceFromAttributes gives |
| UapiConfig.ReadNonZeroField | SolardVPNCommunityCoreiOS/SOLARdVPNCommunityCoreiOS/Common/Extensions/VPN/TunnelConfiguration+Ext.swift:160-183 | one counter field gives what NonZeroField gives |
| UapiConfig.CollateUapiPeer | SolardVPNCommunityCoreiOS/SOLARdVPNCommunityCoreiOS/Common/Extensions/VPN/TunnelConfiguration+Ext.swift:123-201 | the peer collation gives what UapiPeerFromAttributes gives |
| UapiConfig.CollateUapiPeerCounters | SolardVPNCommunityCoreiOS/SOLARdVPNCommunityCoreiOS/Common/Extensions/VPN/TunnelConfiguration+Ext.swift:160-183 | the counter half gives what UapiPeerCounters gives |
| UapiConfig.CheckUapiHandshakeTime | SolardVPNCommunityCoreiOS/SOLARdVPNCommunityCoreiOS/Common/Extensions/VPN/TunnelConfiguration+Ext.swift:184-199 | the handshake checks give what CheckHandshakeTime gives |
| UapiConfig.KeyValue | SolardVPNCommunityCoreiOS/SOLARdVPNCommunityCoreiOS/Common/Extensions/VPN/TunnelConfiguration+Ext.swift:37-43 | a line without "=" is invalidLine; otherwise it is its key, "=" and its value, and the key holds no "=" |
| UapiConfig.CloseUapiSection | SolardVPNCommunityCoreiOS/SOLARdVPNCommunityCoreiOS/Common/Extensions/VPN/TunnelConfiguration+Ext.swift:45-56 | closing the interface makes the interface and moves to the peer section; closing a peer adds one peer; the attributes are cleared |
| UapiConfig.AddUapiAttribute | SolardVPNCommunityCoreiOS/SOLARdVPNCommunityCoreiOS/Common/Extensions/VPN/TunnelConfiguration+Ext.swift:62-81 | a repeated key other than allowed_ip is refused; a key must belong to its section |
| UapiConfig.UapiLineStep | SolardVPNCommunityCoreiOS/SOLARdVPNCommunityCoreiOS/Common/Extensions/VPN/TunnelConfiguration+Ext.swift:33-82 | a non-empty line without "=" is invalidLine |
| UapiConfig.UapiLines | SolardVPNCommunityCoreiOS/SOLARdVPNCommunityCoreiOS/Common/Extensions/VPN/TunnelConfiguration+Ext.swift:27-28 | the non-empty lines, then one empty sentinel line |
| UapiConfig.UapiParseFrom | SolardVPNCommunityCoreiOS/SOLARdVPNCommunityCoreiOS/Common/Extensions/VPN/TunnelConfiguration+Ext.swift:30-82 | a peer read is never dropped and an interface once read is never replaced |
| UapiConfig.UapiFinish | SolardVPNCommunityCoreiOS/SOLARdVPNCommunityCoreiOS/Common/Extensions/VPN/TunnelConfiguration+Ext.swift:84-99 | shared peer keys are refused first, then a missing interface; otherwise the peers and the interface's key and listen port are those read |
| UapiConfig.UapiParse | SolardVPNCommunityCoreiOS/SOLARdVPNCommunityCoreiOS/Common/Extensions/VPN/TunnelConfiguration+Ext.swift:23-100 | a parsed tunnel has distinct peer keys and takes the name, addresses, DNS servers, search domains and MTU from the base |
| UapiConfig.CloseSection | SolardVPNCommunityCoreiOS/SOLARdVPNCommunityCoreiOS/Common/Extensions/VPN/TunnelConfiguration+Ext.swift:45-56 | the end of a section on the parser's variables gives what CloseUapiSection gives |
| UapiConfig.AddAttribute | SolardVPNCommunityCoreiOS/SOLARdVPNCommunityCoreiOS/Common/Extensions/VPN/TunnelConfiguration+Ext.swift:62-81 | recording one pair gives what AddUapiAttribute gives |
| UapiConfig.ReadLine | SolardVPNCommunityCoreiOS/SOLARdVPNCommunityCoreiOS/Common/Extensions/VPN/TunnelConfiguration+Ext.swift:34-81 | one line gives what UapiLineStep gives |
| UapiConfig.Finish | SolardVPNCommunityCoreiOS/SOLARdVPNCommunityCoreiOS/Common/Extensions/VPN/TunnelConfiguration+Ext.swift:84-99 | the checks and the merge with the base give what UapiFinish gives |
| UapiConfig.ParseUapiConfig | SolardVPNCommunityCoreiOS/SOLARdVPNCommunityCoreiOS/Common/Extensions/VPN/TunnelConfiguration+Ext.swift:23-100 | the loop, with its early exit at the empty line, gives what UapiParse gives |
| UapiConfig.KeyValueOf | SolardVPNCommunityCoreiOS/SOLARdVPNCommunityCoreiOS/Common/Extensions/VPN/TunnelConfiguration+Ext.swift:38-42 | a key=value line whose key holds no "=" splits back into that key and value |
| UapiConfig.PublicKeyOpensPeer | SolardVPNCommunityCoreiOS/SOLARdVPNCommunityCoreiOS/Common/Extensions/VPN/TunnelConfiguration+Ext.swift:45-70 | a public_key line closes the section: the first makes the interface, each later one a peer; a new peer section starts with that key |
| UapiConfig.RepeatedKey | SolardVPNCommunityCoreiOS/SOLARdVPNCommunityCoreiOS/Common/Extensions/VPN/TunnelConfiguration+Ext.swift:62-67 | a repeated key is refused unless it is allowed_ip, whose values are comma-joined |
| UapiConfig.UnrecognizedKey | SolardVPNCommunityCoreiOS/SOLARdVPNCommunityCoreiOS/Common/Extensions/VPN/TunnelConfiguration+Ext.swift:72-81 | a new key outside the section's key set is refused with the section's error |
| UapiConfig.LineStepReachable | SolardVPNCommunityCoreiOS/SOLARdVPNCommunityCoreiOS/Common/Extensions/VPN/TunnelConfiguration+Ext.swift:45-81 | from a reachable state a line leads to a reachable state and never fails multipleInterfaces or noInterface |
| UapiConfig.ParseFromReachable | SolardVPNCommunityCoreiOS/SOLARdVPNCommunityCoreiOS/Common/Extensions/VPN/TunnelConfiguration+Ext.swift:33-82 | from a reachable state the loop ends with an interface and never reports a second one |
| UapiConfig.UapiAlwaysHasInterface | SolardVPNCommunityCoreiOS/SOLARdVPNCommunityCoreiOS/Common/Extensions/VPN/TunnelConfiguration+Ext.swift:30-98 | the reply parser never fails noInterface or multipleInterfaces |
| WireGuardKit.KeyToBase64 | SolardVPNCommunityCoreiOS/Shared/Extentions/TunnelConfiguration+WireGuardConfig.swift:106-130 | a key is written as 44 base64 characters ending in one "=" |
| WireGuardKit.KeyBase64RoundTrip | SolardVPNCommunityCoreiOS/Shared/Extentions/TunnelConfiguration+WireGuardConfig.swift:106-155 | every key reads back from its own base64 text |
| WireGuardKit.KeyBase64Canonical | SolardVPNCommunityCoreiOS/Shared/Extentions/TunnelConfiguration+WireGuardConfig.swift:152-157 | a text that reads as a key is that key's own base64 text |
| WireGuardKit.HexBytesRoundTrip | SolardVPNCommunityCoreiOS/SOLARdVPNCommunityCoreiOS/Common/Extensions/VPN/TunnelConfiguration+Ext.swift:108-132 | bytes written in hex read back as the same bytes |
| WireGuardKit.KeyToHex | SolardVPNCommunityCoreiOS/SOLARdVPNCommunityCoreiOS/Common/Extensions/VPN/TunnelConfiguration+Ext.swift:108 | a key's hex text has 64 digits |
| WireGuardKit.KeyHexRoundTrip | SolardVPNCommunityCoreiOS/SOLARdVPNCommunityCoreiOS/Common/Extensions/VPN/TunnelConfiguration+Ext.swift:108-132 | every key reads back from its own hex text |
| WireGuardKit.IPv4RoundTrip | SolardVPNCommunityCoreiOS/Shared/Extentions/TunnelConfiguration+WireGuardConfig.swift:113-168 | a dotted quad reads back as the same address |
| WireGuardKit.IPv4TextChars | SolardVPNCommunityCoreiOS/Shared/Extentions/TunnelConfiguration+WireGuardConfig.swift:113 | an address is written with digits and dots only |
| WireGuardKit.AddressRangeRoundTrip | SolardVPNCommunityCoreiOS/Shared/Extentions/TunnelConfiguration+WireGuardConfig.swift:113-135 | a range reads back from its own text |
| WireGuardKit.AddressRangeTextChars | SolardVPNCommunityCoreiOS/Shared/Extentions/TunnelConfiguration+WireGuardConfig.swift:113-135 | a range's text is non-empty and holds only digits, dots and a slash |
| WireGuardKit.DNSServerRoundTrip | SolardVPNCommunityCoreiOS/Shared/Extentions/TunnelConfiguration+WireGuardConfig.swift:118-179 | a DNS server reads back from its own text |
| WireGuardKit.EndpointRoundTrip | SolardVPNCommunityCoreiOS/Shared/Extentions/TunnelConfiguration+WireGuardConfig.swift:139-222 | an endpoint reads back from its own text |
| WireGuardKit.NewInterface | SolardVPNCommunityCoreiOS/Shared/Extentions/TunnelConfiguration+WireGuardConfig.swift:158 | an interface made from a private key has that key and nothing else set |
| WireGuardKit.NewPeer | SolardVPNCommunityCoreiOS/Shared/Extentions/TunnelConfiguration+WireGuardConfig.swift:204 | a peer made from a public key has that key and nothing else set |
| ContinentDecoders.ContinentFromRaw | SolardVPNCommunityCoreiOS/SOLARdVPNCommunityCoreiOS/Services/NodesService/Models/Continent.swift:10-18 | a continent comes out exactly for the seven codes, and its raw value is the code |
| ContinentDecoders.ContinentRawRoundTrip | SolardVPNCommunityCoreiOS/SOLARdVPNCommunityCoreiOS/Services/NodesService/Models/Continent.swift:10-18 | every continent reads back from its raw value |
| ContinentDecoders.CountryTableSpec | SolardVPNCommunityCoreiOS/SOLARdVPNCommunityCoreiOS/Services/NodesService/ContinentDecoder/ContinentDecoder.swift:26-29 | the table's codes are exactly the entries' upper-cased codes, each holding the continent of the last entry with that code |
| ContinentDecoders.ContinentDecoder.constructor | SolardVPNCommunityCoreiOS/SOLARdVPNCommunityCoreiOS/Services/NodesService/ContinentDecoder/ContinentDecoder.swift:17-32 | without a readable list the table is empty; otherwise it is the table the loop builds from the list |
| ContinentDecoders.ContinentDecoder.GetContinent | SolardVPNCommunityCoreiOS/SOLARdVPNCommunityCoreiOS/Services/NodesService/ContinentDecoder/ContinentDecoder.swift:36-40 | a continent exactly when the upper-cased code is in the table with a known continent code, and it is that continent |
| ContinentDecoders.GetContinentIgnoresCase | SolardVPNCommunityCoreiOS/SOLARdVPNCommunityCoreiOS/Services/NodesService/ContinentDecoder/ContinentDecoder.swift:37 | a code and its upper-cased spelling give the same continent |
| ContinentDecoders.LookupAfterInit | SolardVPNCommunityCoreiOS/SOLARdVPNCommunityCoreiOS/Services/NodesService/ContinentDecoder/ContinentDecoder.swift:17-40 | after loading, any spelling of a country's code gives the continent of its last entry, and an unknown code gives nothing |
| SentinelNodes.SetNode | SolardVPNCommunityCoreiOS/SOLARdVPNCommunityCoreiOS/Common/Extensions/Wallet/SentinelNode+Ext.swift:11-19 | the same node with only its details replaced |
| SentinelNodes.SetFields | SolardVPNCommunityCoreiOS/SOLARdVPNCommunityCoreiOS/Common/Extensions/Wallet/SentinelNode+Ext.swift:21-29 | every field from the other node, the details kept |
| SentinelNodes.FromAddress | SolardVPNCommunityCoreiOS/SOLARdVPNCommunityCoreiOS/Common/Extensions/Wallet/SentinelNode+Ext.swift:45-47 | a node with the address and every other field empty |
| SentinelNodes.SameNodeIsEquivalence | SolardVPNCommunityCoreiOS/SOLARdVPNCommunityCoreiOS/Common/Extensions/Wallet/SentinelNode+Ext.swift:35-41 | equality by address is an equivalence, equal nodes hash alike, and a node equals the node known only by its address |
| SentinelNodes.CopiesKeepIdentity | SolardVPNCommunityCoreiOS/SOLARdVPNCommunityCoreiOS/Common/Extensions/Wallet/SentinelNode+Ext.swift:11-29 | replacing the details keeps the identity, taking the fields takes the other's identity, and the two copies compose |
| NetworkErrors.Localization | SolardVPNCommunityCoreiOS/SOLARAPI/APISupport/NetworkError.swift:14-16 | the localization is present exactly when the message is, and is the message |
| NetworkErrors.ClassesPartition | SolardVPNCommunityCoreiOS/SOLARAPI/APISupport/NetworkError.swift:18-36 | no code is in two classes, unauthorized is exactly 401 and 402, and codes outside 400-404 and 500-511 are in none |
| NetworkErrors.SingleInner | SolardVPNCommunityCoreiOS/SOLARAPI/APISupport/NetworkError.swift:50-52 | the body wraps an inner error with the same code and message |
| SessionServiceErrors.AllCasesHaveCodes | SolardVPNCommunityCoreiOS/SOLARdVPNCommunityCoreiOS/Services/SessionsService/SessionServiceError.swift:22-37 | the listed cases are exactly the three with inner codes |
| SessionServiceErrors.InnerCodesPartition | SolardVPNCommunityCoreiOS/SOLARdVPNCommunityCoreiOS/Services/SessionsService/SessionServiceError.swift:26-37 | the inner codes of the listed cases are disjoint and together are exactly 3 to 10 |
| WalletServiceErrors.BodyCodes | SolardVPNCommunityCoreiOS/SOLARdVPNCommunityCoreiOS/Common/Extensions/Wallet/WalletServiceError+Ext.swift:30-47 | the body's message is the description; its code makes the credential and token cases unauthorized, the matching destination access denied and saving a server error |
| WalletServiceErrors.DescriptionsDistinct | SolardVPNCommunityCoreiOS/SOLARdVPNCommunityCoreiOS/Common/Extensions/Wallet/WalletServiceError+Ext.swift:11-27 | no two cases share a description |
| KeyValueStores.TextIn | SolardVPNCommunityCoreiOS/SOLARdVPNCommunityCoreiOS/Services/Storage/StorageStrategy/UserDefaultsStorageStrategy.swift:17-23 | a text comes back exactly when the key holds a value written as text, and it is that text |
| KeyValueStores.IntIn | SolardVPNCommunityCoreiOS/SOLARdVPNCommunityCoreiOS/Services/Storage/StorageStrategy/UserDefaultsStorageStrategy.swift:17-23 | a number comes back exactly when the key holds a value written as a number |
| KeyValueStores.DateIn | SolardVPNCommunityCoreiOS/SOLARdVPNCommunityCoreiOS/Services/Storage/StorageStrategy/UserDefaultsStorageStrategy.swift:17-23 | a date comes back exactly when the key holds a value written as a date |
| KeyValueStores.KeyValueStore.constructor | SolardVPNCommunityCoreiOS/SOLARdVPNCommunityCoreiOS/Services/Storage/StorageStrategy/KeychainStorageStrategy.swift:16-18 | a new store is empty |
| KeyValueStores.KeyValueStore.SetObject | SolardVPNCommunityCoreiOS/SOLARdVPNCommunityCoreiOS/Services/Storage/StorageStrategy/KeychainStorageStrategy.swift:30-40 | the value is stored under the key exactly when the store accepts writes, which is what it reports |
| KeyValueStores.KeyValueStore.RemoveObject | SolardVPNCommunityCoreiOS/SOLARdVPNCommunityCoreiOS/Services/Storage/StorageStrategy/KeychainStorageStrategy.swift:46-53 | the key is removed exactly when the store accepts removals, which is what it reports |
| KeyValueStores.KeyValueStore.ExistsObject | SolardVPNCommunityCoreiOS/SOLARdVPNCommunityCoreiOS/Services/Storage/StorageStrategy/UserDefaultsStorageStrategy.swift:33-35 | a key exists exactly when a read of some type gives a value for it; a stored key exists and a removed one does not |
| GeneralSettings.KeyNamesDistinct | SolardVPNCommunityCoreiOS/SOLARdVPNCommunityCoreiOS/Services/Storage/GeneralSettingsStorage/GeneralSettingsStorage.swift:11-18 | no two settings share a key |
| GeneralSettings.WalletRoundTrip | SolardVPNCommunityCoreiOS/SOLARdVPNCommunityCoreiOS/Services/Storage/GeneralSettingsStorage/GeneralSettingsStorage.swift:33-39 | the wallet address is "" when unset and the last one set otherwise, and other settings leave it alone |
| GeneralSettings.DNSRoundTrip | SolardVPNCommunityCoreiOS/SOLARdVPNCommunityCoreiOS/Services/Storage/GeneralSettingsStorage/GeneralSettingsStorage.swift:45-59 | the DNS choice is the default when unset or unrecognised, reads back as the one set, and other settings leave it alone |
| GeneralSettings.ConnectInfoRoundTrip | SolardVPNCommunityCoreiOS/SOLARdVPNCommunityCoreiOS/Services/Storage/GeneralSettingsStorage/GeneralSettingsStorage.swift:65-87 | the last node, session id and session start each read back as what was last set, and setting one leaves the others |
| GeneralSettings.GeneralSettingsStorage.constructor | SolardVPNCommunityCoreiOS/SOLARdVPNCommunityCoreiOS/Services/Storage/GeneralSettingsStorage/GeneralSettingsStorage.swift:25-27 | keeps the store it is given |
| GeneralSettings.GeneralSettingsStorage.Put | SolardVPNCommunityCoreiOS/SOLARdVPNCommunityCoreiOS/Services/Storage/GeneralSettingsStorage/GeneralSettingsStorage.swift:34-82 | one setting is written under its own key, when the store accepts it |
| GeneralSettings.GeneralSettingsStorage.SetWallet | SolardVPNCommunityCoreiOS/SOLARdVPNCommunityCoreiOS/Services/Storage/GeneralSettingsStorage/GeneralSettingsStorage.swift:33-35 | the wallet reads back as set and the DNS choice is unchanged |
| GeneralSettings.GeneralSettingsStorage.WalletAddress | SolardVPNCommunityCoreiOS/SOLARdVPNCommunityCoreiOS/Services/Storage/GeneralSettingsStorage/GeneralSettingsStorage.swift:37-39 | the stored text, or "" when the key is unset or holds another type |
| GeneralSettings.GeneralSettingsStorage.SetDNS | SolardVPNCommunityCoreiOS/SOLARdVPNCommunityCoreiOS/Services/Storage/GeneralSettingsStorage/GeneralSettingsStorage.swift:45-47 | the DNS choice reads back as set and the wallet is unchanged |
| GeneralSettings.GeneralSettingsStorage.SelectedDNS | SolardVPNCommunityCoreiOS/SOLARdVPNCommunityCoreiOS/Services/Storage/GeneralSettingsStorage/GeneralSettingsStorage.swift:49-59 | an unset key reads as the default, and any other choice was stored by its raw value |
| GeneralSettings.GeneralSettingsStorage.SetLastSelectedNode | SolardVPNCommunityCoreiOS/SOLARdVPNCommunityCoreiOS/Services/Storage/GeneralSettingsStorage/GeneralSettingsStorage.swift:65-71 | the last node reads back as set |
| GeneralSettings.GeneralSettingsStorage.LastSelectedNode | SolardVPNCommunityCoreiOS/SOLARdVPNCommunityCoreiOS/Services/Storage/GeneralSettingsStorage/GeneralSettingsStorage.swift:69-71 | the node comes back exactly when the key holds text, and it is that text |
| GeneralSettings.GeneralSettingsStorage.SetSessionId | SolardVPNCommunityCoreiOS/SOLARdVPNCommunityCoreiOS/Services/Storage/GeneralSettingsStorage/GeneralSettingsStorage.swift:73-75 | the session id reads back as set |
| GeneralSettings.GeneralSettingsStorage.LastSessionId | SolardVPNCommunityCoreiOS/SOLARdVPNCommunityCoreiOS/Services/Storage/GeneralSettingsStorage/GeneralSettingsStorage.swift:77-79 | the id comes back exactly when the key holds a number, and it is that number |
| GeneralSettings.GeneralSettingsStorage.SetSessionStart | SolardVPNCommunityCoreiOS/SOLARdVPNCommunityCoreiOS/Services/Storage/GeneralSettingsStorage/GeneralSettingsStorage.swift:81-83 | the session start reads back as set |
| GeneralSettings.GeneralSettingsStorage.LastSessionStart | SolardVPNCommunityCoreiOS/SOLARdVPNCommunityCoreiOS/Services/Storage/GeneralSettingsStorage/GeneralSettingsStorage.swift:85-87 | the start comes back exactly when the key holds a date, and it is that date |
| StorageRoutes.ValueIn | SolardVPNCommunityCoreiOS/SOLARdVPNCommunityCoreiOS/Root/RouteCollections/Storage/StorageRouteCollection.swift:76-86 | the safe store's value wins, then the common store's; notFound exactly when neither has the key |
| StorageRoutes.StorageRouteCollection.GetValueFor | SolardVPNCommunityCoreiOS/SOLARdVPNCommunityCoreiOS/Root/RouteCollections/Storage/StorageRouteCollection.swift:76-86 | the secure store's text wins over the common store's, and the key is notFound only when neither holds text |
| StorageRoutes.StorageRouteCollection.constructor | SolardVPNCommunityCoreiOS/SOLARdVPNCommunityCoreiOS/Root/RouteCollections/Storage/StorageRouteCollection.swift:16-17 | keeps the two stores |
| StorageRoutes.StorageRouteCollection.DeleteValueFor | SolardVPNCommunityCoreiOS/SOLARdVPNCommunityCoreiOS/Root/RouteCollections/Storage/StorageRouteCollection.swift:88-90 | both stores are asked to remove the key, and the result is true exactly when both succeed |
| StorageRoutes.StorageRouteCollection.GetValue | SolardVPNCommunityCoreiOS/SOLARdVPNCommunityCoreiOS/Root/RouteCollections/Storage/StorageRouteCollection.swift:27-40 | a missing key is a bad request; otherwise the lookup's answer |
| StorageRoutes.StorageRouteCollection.DeleteValue | SolardVPNCommunityCoreiOS/SOLARdVPNCommunityCoreiOS/Root/RouteCollections/Storage/StorageRouteCollection.swift:59-64 | a missing key is a bad request; a failed removal is unauthorized; after success the key is found nowhere |
| StorageRoutes.StorageRouteCollection.PostValue | SolardVPNCommunityCoreiOS/SOLARdVPNCommunityCoreiOS/Root/RouteCollections/Storage/StorageRouteCollection.swift:42-57 | the key is removed from both stores and written to the chosen one; afterwards the lookup gives exactly the posted value |
| SecurityServices.Restore | SolardVPNCommunityCoreiOS/SOLARdVPNCommunityCoreiOS/Services/SecurityService/SecurityService.swift:60-76 | the empty list is emptyInput; success exactly for 24 listed words whose address derives; every other refusal is invalidInput |
| SecurityServices.WordsRoundTrip | SolardVPNCommunityCoreiOS/SOLARdVPNCommunityCoreiOS/Services/SecurityService/SecurityService.swift:41-54 | non-empty words without whitespace, joined by spaces, load back as the same words |
| SecurityServices.JoinEnds | SolardVPNCommunityCoreiOS/SOLARdVPNCommunityCoreiOS/Services/SecurityService/SecurityService.swift:41 | the joined text starts with the first word and ends with the last |
| SecurityServices.SavedWordsLoad | SolardVPNCommunityCoreiOS/SOLARdVPNCommunityCoreiOS/Services/SecurityService/SecurityService.swift:40-54 | words saved under a key load back from it |
| SecurityServices.SecurityService.constructor | SolardVPNCommunityCoreiOS/SOLARdVPNCommunityCoreiOS/Services/SecurityService/SecurityService.swift:31-38 | keeps the keychain |
| SecurityServices.SecurityService.Save | SolardVPNCommunityCoreiOS/SOLARdVPNCommunityCoreiOS/Services/SecurityService/SecurityService.swift:40-47 | the joined words are stored under the account's hash exactly when the keychain accepts them |
| SecurityServices.SecurityService.LoadMnemonics | SolardVPNCommunityCoreiOS/SOLARdVPNCommunityCoreiOS/Services/SecurityService/SecurityService.swift:49-54 | words come back exactly when the keychain holds text under the account's hash |
| SecurityServices.SecurityService.MnemonicsExists | SolardVPNCommunityCoreiOS/SOLARdVPNCommunityCoreiOS/Services/SecurityService/SecurityService.swift:56-58 | words that load exist; saved words exist and load back |
| SubscriptionsServices.RawValuesDistinct | SolardVPNCommunityCoreiOS/SOLARdVPNCommunityCoreiOS/Services/SubscriptionsService/SubscriptionsService.swift:12-20 | no two errors share a raw value, so the description names the error |
| SubscriptionsServices.FirstInDenom | SolardVPNCommunityCoreiOS/SOLARdVPNCommunityCoreiOS/Services/SubscriptionsService/SubscriptionsService.swift:64-65 | nothing exactly when no balance has the deposit's denomination; otherwise the first that has it |
| SubscriptionsServices.Subscribe | SolardVPNCommunityCoreiOS/SOLARdVPNCommunityCoreiOS/Services/SubscriptionsService/SubscriptionsService.swift:122-141 | without a sender missingMnemonic; a provider failure passes on; a failed transaction is paymentFailed; otherwise true |
| SubscriptionsServices.CheckBalanceOutcomes | SolardVPNCommunityCoreiOS/SOLARdVPNCommunityCoreiOS/Services/SubscriptionsService/SubscriptionsService.swift:53-76 | a failed balance fetch passes on; without a balance in the denomination, or below the threshold, false and no purchase; otherwise the subscription's outcome |
| SubscriptionsServices.CheckBalanceAndSubscribe | SolardVPNCommunityCoreiOS/SOLARdVPNCommunityCoreiOS/Services/SubscriptionsService/SubscriptionsService.swift:53-76 | a failed balance fetch is passed on; the answer is true exactly when the first balance in the deposit's denomination reaches the threshold as written and the subscription succeeds; any other failure is the subscription's |
| SubscriptionsServices.ThresholdIgnoresFee | SolardVPNCommunityCoreiOS/SOLARdVPNCommunityCoreiOS/Services/SubscriptionsService/SubscriptionsService.swift:68 | the threshold is the deposit amount whenever it parses, whatever the fee; the fee counts only when the amount does not parse |
| SubscriptionsServices.Cancel | SolardVPNCommunityCoreiOS/SOLARdVPNCommunityCoreiOS/Services/SubscriptionsService/SubscriptionsService.swift:78-102 | without a sender missingMnemonic; a provider failure passes on; success gives success; a failure is activeSession exactly when the log says "can not cancel", and faliToCancelSubscription otherwise |
| SubscriptionsServices.CancelActiveSession | SolardVPNCommunityCoreiOS/SOLARdVPNCommunityCoreiOS/Services/SubscriptionsService/SubscriptionsService.swift:93-97 | a failed cancel whose log contains "can not cancel" anywhere is activeSession |
| SessionsServices.WithSender | SolardVPNCommunityCoreiOS/SOLARdVPNCommunityCoreiOS/Services/SessionsService/SessionsService.swift:37-53 | without a sender the answer is missingMnemonic; otherwise it is the provider's answer |
| SessionsServices.RemoteURL | SolardVPNCommunityCoreiOS/SOLARdVPNCommunityCoreiOS/Services/SessionsService/SessionsService.swift:62-71 | invalidURL exactly when the text does not parse or the http form is not a URL; otherwise the http form |
| SessionsServices.ConnectionResponse | SolardVPNCommunityCoreiOS/SOLARdVPNCommunityCoreiOS/Services/SessionsService/SessionsService.swift:79-93 | a transport failure passes on; success exactly for a successful answer whose result decodes to 58 bytes, with the key of the request; connectionParsingFailed otherwise |
| SessionsServices.FetchConnectionData | SolardVPNCommunityCoreiOS/SOLARdVPNCommunityCoreiOS/Services/SessionsService/SessionsService.swift:55-95 | no request for a bad URL; otherwise one request with the public key of the fresh key and the id in decimal, and its answer validated; a success carries the key whose public half was sent |
| SessionsServices.SessionIdText | SolardVPNCommunityCoreiOS/SOLARdVPNCommunityCoreiOS/Services/SessionsService/SessionsService.swift:77 | the session id sent in decimal reads back as the same id |
| ConnectionNodeModels.LastFor | SolardVPNCommunityCoreiOS/SOLARdVPNCommunityCoreiOS/Root/RouteCollections/Tunnel/Connection/ConnectionNodeModel.swift:63 | none exactly when no subscription is on the node; otherwise the position of one on the node with none after it |
| ConnectionNodeModels.BandwidthLeft | SolardVPNCommunityCoreiOS/SOLARdVPNCommunityCoreiOS/Root/RouteCollections/Tunnel/Connection/ConnectionNodeModel.swift:102-106 | allocated minus consumed, each 0 when it does not parse as Int64; none exactly when the 64-bit subtraction overflows (a Swift trap) |
| ConnectionNodeModels.QuotaGate | SolardVPNCommunityCoreiOS/SOLARdVPNCommunityCoreiOS/Root/RouteCollections/Tunnel/Connection/ConnectionNodeModel.swift:102-119 | the node is requested exactly when the remainder is non-zero and the subscription active; otherwise noQuotaLeft is shown and loading stops; an overflow traps |
| ConnectionNodeModels.TunnelCountsActive | SolardVPNCommunityCoreiOS/SOLARdVPNCommunityCoreiOS/Root/RouteCollections/Tunnel/Connection/ConnectionNodeModel.swift:201-211 | the tunnel counts as active exactly when there is a last tunnel and, when its status is considered, it is connected or connecting |
| ConnectionNodeModels.HandleTable | SolardVPNCommunityCoreiOS/SOLARdVPNCommunityCoreiOS/Root/RouteCollections/Tunnel/Connection/ConnectionNodeModel.swift:164-192 | active tunnel and session: tunnelIsAlreadyActive, and only then; active session alone: re-activate the last tunnel, else connect when asked, else stop loading; inactive session: connect; failed detection: connect only when asked |
| ConnectionNodeModels.BigEndianBytes | SolardVPNCommunityCoreiOS/SOLARdVPNCommunityCoreiOS/Root/RouteCollections/Tunnel/Connection/ConnectionNodeModel.swift:239-240 | the id as a fixed number of bytes |
| ConnectionNodeModels.Pow256 | SolardVPNCommunityCoreiOS/SOLARdVPNCommunityCoreiOS/Root/RouteCollections/Tunnel/Connection/ConnectionNodeModel.swift:239-240 | powers of 256 are positive |
| ConnectionNodeModels.SessionIdBytes | SolardVPNCommunityCoreiOS/SOLARdVPNCommunityCoreiOS/Root/RouteCollections/Tunnel/Connection/ConnectionNodeModel.swift:239-240 | the signed data is exactly 8 bytes |
| ConnectionNodeModels.BigEndianRoundTrip | SolardVPNCommunityCoreiOS/SOLARdVPNCommunityCoreiOS/Root/RouteCollections/Tunnel/Connection/ConnectionNodeModel.swift:239-240 | a number below 256^count reads back from its big-endian bytes |
| ConnectionNodeModels.SessionIdBytesRoundTrip | SolardVPNCommunityCoreiOS/SOLARdVPNCommunityCoreiOS/Root/RouteCollections/Tunnel/Connection/ConnectionNodeModel.swift:239-240 | the 8 signed bytes are the session id, most significant first |
| ConnectionNodeModels.Connect | SolardVPNCommunityCoreiOS/SOLARdVPNCommunityCoreiOS/Root/RouteCollections/Tunnel/Connection/ConnectionNodeModel.swift:47-58 | refused exactly while the tunnel is active; otherwise loading starts and the subscriptions are requested |
| ConnectionNodeModels.Handled | SolardVPNCommunityCoreiOS/SOLARdVPNCommunityCoreiOS/Root/RouteCollections/Tunnel/Connection/ConnectionNodeModel.swift:164-192 | the quota is queried exactly when the decision is to connect, the last tunnel activated exactly when the decision is to activate it; otherwise the chain ends |
| ConnectionNodeModels.SessionsLoaded | SolardVPNCommunityCoreiOS/SOLARdVPNCommunityCoreiOS/Root/RouteCollections/Tunnel/Connection/ConnectionNodeModel.swift:218-231 | a failed session load is a failed detection; otherwise the session is active exactly when one with the stored id is on the node |
| ConnectionNodeModels.QuotaAnswered | SolardVPNCommunityCoreiOS/SOLARdVPNCommunityCoreiOS/Root/RouteCollections/Tunnel/Connection/ConnectionNodeModel.swift:78-88 | a failed query shows the error and ends; otherwise the quota gate decides |
| ConnectionNodeModels.NodeAnswered | SolardVPNCommunityCoreiOS/SOLARdVPNCommunityCoreiOS/Root/RouteCollections/Tunnel/Connection/ConnectionNodeModel.swift:90-96 | a failed node request shows the error; otherwise the balance is fetched for the node's remote URL |
| ConnectionNodeModels.ConnectionNodeModel.constructor | SolardVPNCommunityCoreiOS/SOLARdVPNCommunityCoreiOS/Root/RouteCollections/Tunnel/Connection/ConnectionNodeModel.swift:37-40 | the model keeps the connection storage it is given |
| ConnectionNodeModels.ConnectionNodeModel.SubscriptionsLoaded | SolardVPNCommunityCoreiOS/SOLARdVPNCommunityCoreiOS/Root/RouteCollections/Tunnel/Connection/ConnectionNodeModel.swift:60-73 | a failed load shows the error; no subscription on the node shows noSubscription; otherwise the last one is used, with an inactive session at once when no session id is stored and a session load otherwise |
| ConnectionNodeModels.ConnectionNodeModel.BalanceAnswered | SolardVPNCommunityCoreiOS/SOLARdVPNCommunityCoreiOS/Root/RouteCollections/Tunnel/Connection/ConnectionNodeModel.swift:121-146 | a fetched list without enough udvpn for the fee shows notEnoughTokens and stops loading; otherwise, a failed fetch included, a session is started for the last selected node, and nothing happens without one |
| ConnectionNodeModels.ConnectionNodeModel.SessionStarted | SolardVPNCommunityCoreiOS/SOLARdVPNCommunityCoreiOS/Root/RouteCollections/Tunnel/Connection/ConnectionNodeModel.swift:148-157 | a failure is shown; a started session's 8 id bytes are signed, a missing signature shows signatureGenerationFailed, the connection data is requested otherwise, and the node becomes the last selected node in both cases |
| ConnectionNodeModels.ConnectionNodeModel.ConnectionDataFetched | SolardVPNCommunityCoreiOS/SOLARdVPNCommunityCoreiOS/Root/RouteCollections/Tunnel/Connection/ConnectionNodeModel.swift:252-263 | a failure is shown and nothing stored; an id above Int64 traps; otherwise the id is stored as the last session and the profile is created from the data and key |
| ConnectionNodeModels.QuotaGateOutcomes | SolardVPNCommunityCoreiOS/SOLARdVPNCommunityCoreiOS/Root/RouteCollections/Tunnel/Connection/ConnectionNodeModel.swift:106-119 | only an active subscription with a non-zero remainder reaches the node request; a zero remainder never does, a negative one does |
| ConnectionNodeModels.NoTrapOnCounters | SolardVPNCommunityCoreiOS/SOLARdVPNCommunityCoreiOS/Root/RouteCollections/Tunnel/Connection/ConnectionNodeModel.swift:106 | two non-negative amounts never make the subtraction trap |
| ConnectionNodeModels.SessionNeedsBalance | SolardVPNCommunityCoreiOS/SOLARdVPNCommunityCoreiOS/Root/RouteCollections/Tunnel/Connection/ConnectionNodeModel.swift:129-146 | a session starts only after a failed balance fetch or with a udvpn balance covering the fee, and for the last selected node; with no udvpn balance nothing starts |
| ConnectionNodeModels.ChosenSubscriptionIsLast | SolardVPNCommunityCoreiOS/SOLARdVPNCommunityCoreiOS/Root/RouteCollections/Tunnel/Connection/ConnectionNodeModel.swift:63-68 | the chosen subscription is on the node asked for and no later one is |
| ConnectionModels.IdsOnSpec | SolardVPNCommunityCoreiOS/SOLARdVPNCommunityCoreiOS/Root/RouteCollections/Tunnel/Connection/ConnectionModel.swift:104 | an id is among those cancelled exactly when some subscription on the node has it |
| ConnectionModels.IdsOnAppend | SolardVPNCommunityCoreiOS/SOLARdVPNCommunityCoreiOS/Root/RouteCollections/Tunnel/Connection/ConnectionModel.swift:104 | the ids of two lists together are the ids of each, in order |
| ConnectionModels.AuthorizationError | SolardVPNCommunityCoreiOS/SOLARdVPNCommunityCoreiOS/Root/RouteCollections/Tunnel/Connection/ConnectionModel.swift:172-178 | an error is shown exactly when there is one and it is not the GRPC notFound status; it is that error |
| ConnectionModels.TunnelToDeactivate | SolardVPNCommunityCoreiOS/SOLARdVPNCommunityCoreiOS/Root/RouteCollections/Tunnel/Connection/ConnectionModel.swift:92 | nothing is deactivated exactly when there is no last tunnel or it is disconnected; otherwise the last tunnel is |
| ConnectionModels.ConnectionModel.constructor | SolardVPNCommunityCoreiOS/SOLARdVPNCommunityCoreiOS/Root/RouteCollections/Tunnel/Connection/ConnectionModel.swift:44-51 | the model starts with nothing published and nothing asked |
| ConnectionModels.ConnectionModel.StopLoading | SolardVPNCommunityCoreiOS/SOLARdVPNCommunityCoreiOS/Root/RouteCollections/Tunnel/Connection/ConnectionModel.swift:139-141 | publishes whether the tunnel is active |
| ConnectionModels.ConnectionModel.ShowError | SolardVPNCommunityCoreiOS/SOLARdVPNCommunityCoreiOS/Root/RouteCollections/Tunnel/Connection/ConnectionModel.swift:127-133 | publishes the tunnel's activity twice (once through stopLoading), then the error |
| ConnectionModels.ConnectionModel.ShowWarning | SolardVPNCommunityCoreiOS/SOLARdVPNCommunityCoreiOS/Root/RouteCollections/Tunnel/Connection/ConnectionModel.swift:135-137 | publishes the warning alone |
| ConnectionModels.ConnectionModel.SetLoading | SolardVPNCommunityCoreiOS/SOLARdVPNCommunityCoreiOS/Root/RouteCollections/Tunnel/Connection/ConnectionModel.swift:57-59 | publishes the tunnel's activity only when loading ends |
| ConnectionModels.ConnectionModel.Deliver | SolardVPNCommunityCoreiOS/SOLARdVPNCommunityCoreiOS/Root/RouteCollections/Tunnel/Connection/ConnectionModel.swift:56-59 | each call of the connection chain publishes what set(isLoading:), show(error:) or show(warning:) publishes |
| ConnectionModels.ConnectionModel.SuggestUnsubscribe | SolardVPNCommunityCoreiOS/SOLARdVPNCommunityCoreiOS/Root/RouteCollections/Tunnel/Connection/ConnectionModel.swift:65-67 | publishes the nodeMisconfigured error |
| ConnectionModels.ConnectionModel.OpenPlans | SolardVPNCommunityCoreiOS/SOLARdVPNCommunityCoreiOS/Root/RouteCollections/Tunnel/Connection/ConnectionModel.swift:69-71 | publishes noQuotaLeft when resubscribing, noSubscription otherwise |
| ConnectionModels.ConnectionModel.Connect | SolardVPNCommunityCoreiOS/SOLARdVPNCommunityCoreiOS/Root/RouteCollections/Tunnel/Connection/ConnectionModel.swift:86-88 | asks the delegate to connect |
| ConnectionModels.ConnectionModel.Disconnect | SolardVPNCommunityCoreiOS/SOLARdVPNCommunityCoreiOS/Root/RouteCollections/Tunnel/Connection/ConnectionModel.swift:91-98 | deactivates the last tunnel unless there is none or it is disconnected, in which case only the tunnel's activity is published |
| ConnectionModels.ConnectionModel.CancelSubscriptionsFor | SolardVPNCommunityCoreiOS/SOLARdVPNCommunityCoreiOS/Root/RouteCollections/Tunnel/Connection/ConnectionModel.swift:100-148 | a failed load shows the error; otherwise the ids on the node are cancelled, a failure is shown, and a success publishes the info and the activity and asks for the node to be refreshed |
| ConnectionModels.ConnectionModel.HandleCancellation | SolardVPNCommunityCoreiOS/SOLARdVPNCommunityCoreiOS/Root/RouteCollections/Tunnel/Connection/ConnectionModel.swift:143-148 | publishes subscriptionCanceled and the tunnel's activity, and asks for the node to be refreshed |
| ConnectionModels.ConnectionModel.UpdateConnectionType | SolardVPNCommunityCoreiOS/SOLARdVPNCommunityCoreiOS/Root/RouteCollections/Tunnel/Connection/ConnectionModel.swift:154-165 | without a forced update only the node is refreshed; a forced update disconnects only when asked to |
| ConnectionModels.ConnectionModel.SetInitData | SolardVPNCommunityCoreiOS/SOLARdVPNCommunityCoreiOS/Root/RouteCollections/Tunnel/Connection/ConnectionModel.swift:77-79 | a forced update without disconnecting changes nothing |
| ConnectionModels.ConnectionModel.Refresh | SolardVPNCommunityCoreiOS/SOLARdVPNCommunityCoreiOS/Root/RouteCollections/Tunnel/Connection/ConnectionModel.swift:81-83 | only the node is refreshed |
| ConnectionModels.ConnectionModel.AuthorizationFetched | SolardVPNCommunityCoreiOS/SOLARdVPNCommunityCoreiOS/Root/RouteCollections/Tunnel/Connection/ConnectionModel.swift:172-179 | nothing for no error or GRPC notFound; any other error is shown |
| ConnectionModels.ConnectionModel.NodeInfoFetched | SolardVPNCommunityCoreiOS/SOLARdVPNCommunityCoreiOS/Root/RouteCollections/Tunnel/Connection/ConnectionModel.swift:181-188 | nothing on success; a failure is shown |
| ConnectionModels.ConnectionModel.HandleManagerEvent | SolardVPNCommunityCoreiOS/SOLARdVPNCommunityCoreiOS/Root/RouteCollections/Tunnel/Connection/ConnectionModel.swift:202-212 | only handleError publishes anything, and it shows the error |
| ConnectionModels.ConnectionModel.ActivationFailed | SolardVPNCommunityCoreiOS/SOLARdVPNCommunityCoreiOS/Root/RouteCollections/Tunnel/Connection/ConnectionModel.swift:217-231 | the activation error is shown |
| ConnectionModels.ConnectionModel.ActivationSettled | SolardVPNCommunityCoreiOS/SOLARdVPNCommunityCoreiOS/Root/RouteCollections/Tunnel/Connection/ConnectionModel.swift:221-247 | the tunnel's activity is published |
| SubscriptionsServices.FeeNotCovered | SolardVPNCommunityCoreiOS/SOLARdVPNCommunityCoreiOS/Services/SubscriptionsService/SubscriptionsService.swift:64-73 | as written, a balance of 100 udvpn buys a subscription with a deposit of 100 and a fee of 10 |
| SubscriptionsServices.IntendedCoversFee | SolardVPNCommunityCoreiOS/SOLARdVPNCommunityCoreiOS/Services/SubscriptionsService/SubscriptionsService.swift:64-73 | with the threshold parenthesised, a subscription is bought only when the first balance in the denomination covers the deposit plus the fee, and the input above is refused |
| SubscriptionsServices.CheckBalanceAndSubscribeIntended | SolardVPNCommunityCoreiOS/SOLARdVPNCommunityCoreiOS/Services/SubscriptionsService/SubscriptionsService.swift:64-73 | the same outcomes with the deposit plus the fee as the threshold |

## Left out

- Connecting to the system. The system's VPN calls are not modelled: saving, loading and removing profiles, and starting and stopping tunnels. Each operation takes the system's answer as a parameter, and an asynchronous completion becomes the rest of the method.
- The network and the wallet library. The chain provider, the node's HTTP endpoint, the wallet's balance, signature and transaction sender, and key generation are not modelled. Their answers are parameters.
- Foundation and system functions. These are parameters of the operations that use them: URL parsing, `Data(base64Encoded:)`, SHA-1 of the account key, the English word list, mnemonic-to-address derivation, and curve25519 public-key derivation.
- `TunnelsService.create` / `createWireGuard` are not modelled: the start-up load of all profiles, their migration, the removal of profiles whose keychain item does not verify, and `Keychain.deleteReferences(except:)`. The registry model starts from the profile list they hand to `init(tunnelProviders:)`.
- TunnelsServices.TunnelsService.Reload: profiles added outside the app are not migrated when they join the list.
- TunnelsServices.TunnelsService.AwaitedStatusChanged: KVO fires inside the status write in Swift. The model receives it as a separate event after the write.
- TunnelContainers: the 5-second timer that clears `isAttemptingActivation` is not modelled.
- ConnectionModels: the 2-second `asyncAfter` delays run at once.
- ConnectionModels: the model's `address` property only forwards the wallet storage and is not modelled.
- ConnectionModels: `fetchWalletInfo` is split into its two completions, `AuthorizationFetched` and `NodeInfoFetched`.
- ConnectionModels.ConnectionModel.Connect: in the repository `ConnectionModel.connect()` calls a `connect()` that the connection chain does not implement (it has `connect(to:)`). The model records the request and does not invent the glue.
- `ConnectionModelError` lacks `tunnelIsAlreadyActive` in Root/RouteCollections/Tunnel/Connection/Models/ConnectionModelError.swift, yet the connection chain reports it. The model's error type includes the case.
- Pass-through calls are not modelled on their own: `loadActiveSubscriptions`, `queryQuota`, `loadActiveSessions`, `fetchBalance` and `getNode`. They forward to the chain provider. What they answer is a parameter of the step that receives it.
- TunnelManager's `startActivation(of:)`, `startDeactivation(of:)` and `startDeactivationOfActiveTunnel()` are not modelled on their own. They forward to the tunnels service, whose operations are modelled. `resetVPNConfiguration` and `removeMultiple` are not modelled: they remove every stored profile through the system.
- TunnelManagers.TunnelManager.ServiceCreated states which service and model the manager keeps; the reloaded model's contents are stated by `ReloadModel`. The status refresh after creation and the `statusDelegate` assignment are not modelled.
- TunnelManagers.FillModel requires a non-empty peer list, because `createNewProfile` writes the first peer's fields.
- TunnelManagers.TunnelManager.CreateNewProfile requires a non-empty peer list and 58 bytes of connection data. `createNewProfile(from:with:)` indexes the first peer and the data bytes without checking them, so Swift traps when either is missing. The peer list becomes non-empty only when `prepareTunnelModel()` runs, after the tunnels service is created (TunnelManager.swift:152). A call before that, or a shorter handshake reply, crashes the app. The model leaves that crash out.
- TunnelManagers.Port: the port is read as a native `UInt16` and then `.bigEndian`. The model assumes a little-endian host, which gives `b[24]*256 + b[25]`.
- Floating point is not modelled. In the userspace-API reply the last-handshake time is checked for well-formed numbers only, and the `Double` time built from it is not modelled.
- WireGuardKit is not modelled itself:
  - `IPAddressRange` is a structured IPv4 value: four octets and a prefix length of at most 32, a missing prefix reading as 32. `DNSServer` is four octets. Their `stringRepresentation` is canonical text, not the text they were read from: dotted decimal octets, and for a range always followed by "/" and the prefix, so "10.0.0.1" is written back as "10.0.0.1/32";
  - `Endpoint` keeps its host as text, limited to the URL host characters, with a 16-bit port, and is written as host ":" port;
  - IPv6 addresses and hosts outside those characters are not covered.
- NameOrder: `nameIsLess` compares with the `.caseInsensitive`, `.diacriticInsensitive`, `.widthInsensitive` and `.numeric` options. The model orders names lexicographically with ASCII letters lowercased. Digit runs are compared character by character rather than by value, so "tunnel10" sorts before "tunnel9" in the model but not in Swift. Accented and full-width letters are not folded. Swift's unstable sort is modelled as one particular sorted permutation.
- UapiConfig.UapiLines: Swift's `split(separator: "\n")` compares `Character`s, and "\r\n" is a single `Character`, so a reply with CRLF line ends is not split there. The model splits at every '\n' character. The userspace API's replies end their lines with a bare '\n'.
- Case-insensitive comparisons and `lowercased()` / `uppercased()` cover ASCII letters only.
- Settings: a nil setting is stored as the key's removal. It reads back as nil, as in the source.
- Notification and KVO observation tokens, weak captures and logging are not modelled.
- WgQuickRoundTrip.WgQuickRoundTrip: the round trip covers configurations the text can carry. Peers have no transfer counters, because the format has no line for them. DNS search domains are list items that do not read as servers and hold no comment sign or line break. Peers with a shared public key are covered by `SharedKeyRefused`.

## Findings

| source | as written | input that shows it | evidently intended | confidence | as-written member | corrected member |
|---|---|---|---|---|---|---|
| SolardVPNCommunityCoreiOS/SOLARdVPNCommunityCoreiOS/Services/SubscriptionsService/SubscriptionsService.swift:68 | `Int(deposit.amount) ?? 0 + fee` parses as `Int(deposit.amount) ?? (0 + fee)`, so the fee is ignored whenever the deposit amount is a number | a balance of 100 udvpn, a deposit of 100 udvpn, a fee of 10: the subscription is bought | `(Int(deposit.amount) ?? 0) + fee`: the balance must cover deposit and fee | high, from Swift's operator precedence; not executed | SubscriptionsServices.FeeNotCovered | SubscriptionsServices.IntendedCoversFee |
