/** The system's stored VPN profiles and the app's extensions on them:
    the keychain that holds each profile's wg-quick text
    (Shared/Keychain.swift), the tunnel-provider protocol
    (Shared/Extentions/NETunnelProviderProtocol+Extension.swift) and the
    provider manager with its configuration cache
    (Common/Extensions/VPN/NETunnelProviderManager+Ext.swift). */
module TunnelProviders {
  import opened Wrappers
  import opened WireGuardKit
  import opened ConfigurationParsing
  import opened WireGuardConfig
  import opened WgQuickRoundTrip
  import V = VPNStatuses

  /** The key under which profiles stored before the keychain was used keep
      their wg-quick text in `providerConfiguration`. */
  function LegacyConfigKey(): string { "WireGuardConfig" }

  /** The suffix of the network extension's bundle identifier. */
  function ExtensionSuffix(): string { ".network-extension" }

  // ---------------------------------------------------------------- keychain

  /** The generic-password items of the app group, by persistent reference.
      A new item gets a reference no existing item has. */
  class Keychain {
    var items: map<nat, string>
    var nextReference: nat

    ghost predicate Valid()
      reads this
    {
      forall r :: r in items ==> r < nextReference
    }

    constructor ()
      ensures Valid() && items == map[]
    {
      items := map[];
      nextReference := 0;
    }

    /** `openReference(with:)`: the stored text, if the item exists. */
    function OpenReference(reference: nat): (r: Option<string>)
      reads this
      ensures r.Some? <==> reference in items
      ensures r.Some? ==> r.value == items[reference]
    {
      if reference in items then Some(items[reference]) else None
    }

    /** `verifyReference(called:)`: the item exists. */
    predicate VerifyReference(reference: nat)
      reads this
    {
      reference in items
    }

    /** `deleteReference(with:)`. */
    method DeleteReference(reference: nat)
      modifies this
      ensures items == old(items) - {reference}
      ensures nextReference == old(nextReference)
      ensures old(Valid()) ==> Valid()
    {
      items := items - {reference};
    }

    /** `makeReference(containing:with:previouslyReferencedBy:)`. Without a
        bundle identifier, or when the system refuses the new item
        (`addSucceeds` false), nothing is stored and the result is nil.
        Otherwise the text is stored under a new reference, and the old
        reference, if any, is deleted after the new item exists. */
    method MakeReference(value: string, oldReference: Option<nat>, bundleKnown: bool, addSucceeds: bool)
      returns (reference: Option<nat>)
      requires Valid()
      modifies this
      ensures Valid()
      ensures reference.Some? <==> bundleKnown && addSucceeds
      ensures reference.None? ==> items == old(items) && nextReference == old(nextReference)
      ensures reference.Some? ==>
        reference.value == old(nextReference) && reference.value !in old(items)
        && items == old(items)[reference.value := value] - (if oldReference.Some? && oldReference.value != reference.value then {oldReference.value} else {})
    {
      if !bundleKnown || !addSucceeds {
        return None;
      }
      var r := nextReference;
      items := items[r := value];
      nextReference := nextReference + 1;
      if oldReference.Some? && oldReference.value != r {
        items := items - {oldReference.value};
      }
      reference := Some(r);
    }
  }

  // ---------------------------------------------------------------- protocol

  /** The endpoints of the peers that have one, in peer order
      (`peers.compactMap { $0.endpoint }`). */
  function Endpoints(peers: seq<PeerConfiguration>): (r: seq<Endpoint>)
    ensures |r| <= |peers|
    ensures r == [] <==> forall i :: 0 <= i < |peers| ==> peers[i].endpoint.None?
    ensures forall e :: e in r <==> exists i :: 0 <= i < |peers| && peers[i].endpoint == Some(e)
  {
    if peers == [] then []
    else
      var rest := Endpoints(peers[1..]);
      assert forall i :: 1 <= i < |peers| ==> peers[i] == peers[1..][i - 1];
      if peers[0].endpoint.Some? then [peers[0].endpoint.value] + rest else rest
  }

  /** The `serverAddress` a new protocol shows for a configuration. */
  function ServerAddress(peers: seq<PeerConfiguration>): (r: string)
  {
    var endpoints := Endpoints(peers);
    if endpoints == [] then "Unspecified"
    else if |endpoints| == 1 then EndpointText(endpoints[0])
    else "Multiple endpoints"
  }

  /** An endpoint's text always holds the ':' before the port. */
  lemma EndpointTextHasColon(e: Endpoint)
    ensures |EndpointText(e)| > |e.host| && EndpointText(e)[|e.host|] == ':'
  {
  }

  /** The server address tells the three cases apart: "Unspecified" exactly
      when no peer has an endpoint, the single endpoint's text when exactly
      one has, and "Multiple endpoints" exactly when several have. */
  lemma ServerAddressCases(peers: seq<PeerConfiguration>)
    ensures ServerAddress(peers) == "Unspecified" <==> forall i :: 0 <= i < |peers| ==> peers[i].endpoint.None?
    ensures ServerAddress(peers) == "Multiple endpoints" <==> |Endpoints(peers)| >= 2
    ensures |Endpoints(peers)| == 1 ==>
      exists i :: 0 <= i < |peers| && peers[i].endpoint.Some? && ServerAddress(peers) == EndpointText(peers[i].endpoint.value)
  {
    var endpoints := Endpoints(peers);
    if |endpoints| == 1 {
      var e := endpoints[0];
      assert e in endpoints;
      EndpointTextHasColon(e);
      var t := EndpointText(e);
      assert ':' in t by { assert t[|e.host|] == ':'; }
      assert ':' !in "Unspecified" && ':' !in "Multiple endpoints";
    }
  }

  /** The provider's configuration dictionary, holding at most the legacy
      wg-quick text. */
  type ProviderConfiguration = map<string, string>

  /** `NETunnelProviderProtocol` with the fields the app sets. */
  class ProviderProtocol {
    var providerBundleIdentifier: string
    var passwordReference: Option<nat>
    var providerConfiguration: Option<ProviderConfiguration>
    var serverAddress: string

    /** A protocol as a profile loaded from the system presents it. */
    constructor (providerBundleIdentifier: string, passwordReference: Option<nat>,
                 providerConfiguration: Option<ProviderConfiguration>, serverAddress: string)
      ensures this.providerBundleIdentifier == providerBundleIdentifier
      ensures this.passwordReference == passwordReference
      ensures this.providerConfiguration == providerConfiguration
      ensures this.serverAddress == serverAddress
    {
      this.providerBundleIdentifier := providerBundleIdentifier;
      this.passwordReference := passwordReference;
      this.providerConfiguration := providerConfiguration;
      this.serverAddress := serverAddress;
    }

    /** `providerConfiguration?["WireGuardConfig"] as? String`. */
    function LegacyConfig(): (r: Option<string>)
      reads this
      ensures r.Some? <==> providerConfiguration.Some? && LegacyConfigKey() in providerConfiguration.value
    {
      if providerConfiguration.Some? && LegacyConfigKey() in providerConfiguration.value
      then Some(providerConfiguration.value[LegacyConfigKey()])
      else None
    }

    /** `asTunnelConfiguration(with:)`: the keychain text when the reference
        opens, else the legacy text, parsed with `name`; nil when neither
        exists or the text does not parse. */
    function AsTunnelConfiguration(keychain: Keychain, name: Option<string>): (r: Option<TunnelConfiguration>)
      reads this, keychain
      ensures r.Some? ==> r.value.name == name
      ensures passwordReference.Some? && keychain.OpenReference(passwordReference.value).Some? ==>
        (r.Some? <==> WgQuickParse(keychain.items[passwordReference.value], name).Success?)
      ensures (passwordReference.None? || passwordReference.value !in keychain.items) ==>
        (r.Some? <==> LegacyConfig().Some? && WgQuickParse(LegacyConfig().value, name).Success?)
    {
      var text :=
        if passwordReference.Some? && keychain.OpenReference(passwordReference.value).Some?
        then keychain.OpenReference(passwordReference.value)
        else LegacyConfig();
      match text
      case None => None
      case Some(t) =>
        match WgQuickParse(t, name)
        case Success(c) => Some(c)
        case Failure(_) => None
    }

    /** `verifyConfigurationReference()`: false without a reference,
        otherwise whether the keychain still holds the item. */
    predicate VerifyConfigurationReference(keychain: Keychain)
      reads this, keychain
      ensures VerifyConfigurationReference(keychain)
        <==> passwordReference.Some? && keychain.OpenReference(passwordReference.value).Some?
    {
      passwordReference.Some? && keychain.VerifyReference(passwordReference.value)
    }

    /** `destroyConfigurationReference()`: deletes the referenced item; a
        no-op without a reference. The protocol itself keeps the reference. */
    method DestroyConfigurationReference(keychain: Keychain)
      modifies keychain
      ensures passwordReference.None? ==> keychain.items == old(keychain.items)
      ensures passwordReference.Some? ==> keychain.items == old(keychain.items) - {passwordReference.value}
      ensures keychain.nextReference == old(keychain.nextReference)
      ensures !VerifyConfigurationReference(keychain)
    {
      if passwordReference.Some? {
        keychain.DeleteReference(passwordReference.value);
      }
    }

    /** `migrateConfigurationIfNeeded(with:)`: without legacy text, nothing
        happens and the answer is false. Otherwise the provider configuration
        is cleared, a keychain item holding the legacy text is made only when
        there was no reference yet, and the answer is true. */
    method MigrateConfigurationIfNeeded(keychain: Keychain, bundleKnown: bool, addSucceeds: bool)
      returns (migrated: bool)
      requires keychain.Valid()
      modifies this, keychain
      ensures keychain.Valid()
      ensures migrated <==> old(LegacyConfig()).Some?
      ensures !migrated ==>
        providerConfiguration == old(providerConfiguration)
        && passwordReference == old(passwordReference) && keychain.items == old(keychain.items)
      ensures migrated ==> providerConfiguration.None?
      ensures migrated && old(passwordReference).Some? ==>
        passwordReference == old(passwordReference) && keychain.items == old(keychain.items)
      ensures migrated && old(passwordReference).None? && bundleKnown && addSucceeds ==>
        passwordReference.Some? && keychain.OpenReference(passwordReference.value) == old(LegacyConfig())
      ensures providerBundleIdentifier == old(providerBundleIdentifier) && serverAddress == old(serverAddress)
    {
      var legacy := LegacyConfig();
      if legacy.None? {
        return false;
      }
      providerConfiguration := None;
      if passwordReference.Some? {
        return true;
      }
      passwordReference := keychain.MakeReference(legacy.value, None, bundleKnown, addSucceeds);
      return true;
    }
  }

  /** `NETunnelProviderProtocol(tunnelConfiguration:previouslyFrom:)`. It
      fails, storing nothing, when the configuration has no name or there is
      no bundle identifier; it fails when the keychain refuses the item.
      Otherwise the protocol names the network extension, references a
      keychain item holding the configuration's wg-quick text (deleting the
      previous item), and shows the server address. */
  method NewProviderProtocol(c: TunnelConfiguration, previousReference: Option<nat>,
                             bundleIdentifier: Option<string>, keychain: Keychain, addSucceeds: bool)
    returns (p: ProviderProtocol?)
    requires keychain.Valid()
    modifies keychain
    ensures keychain.Valid()
    ensures (c.name.None? || bundleIdentifier.None?) ==> p == null && keychain.items == old(keychain.items)
    ensures p != null <==> c.name.Some? && bundleIdentifier.Some? && addSucceeds
    ensures p != null ==>
      fresh(p) && p.providerBundleIdentifier == bundleIdentifier.value + ExtensionSuffix()
      && p.passwordReference.Some? && p.passwordReference.value !in old(keychain.items)
      && keychain.OpenReference(p.passwordReference.value) == Some(WgQuickText(c))
      && p.providerConfiguration.None? && p.serverAddress == ServerAddress(c.peers)
  {
    if c.name.None? || bundleIdentifier.None? {
      return null;
    }
    var text := AsWireGuardConfig(c);
    var reference := keychain.MakeReference(text, previousReference, true, addSucceeds);
    if reference.None? {
      return null;
    }
    var endpoints := Endpoints(c.peers);
    var address;
    if endpoints == [] {
      address := "Unspecified";
    } else if |endpoints| == 1 {
      address := EndpointText(endpoints[0]);
    } else {
      address := "Multiple endpoints";
    }
    p := new ProviderProtocol(bundleIdentifier.value + ExtensionSuffix(), reference, None, address);
  }

  // ---------------------------------------------------------------- manager

  /** `NETunnelProviderManager` with the fields the app reads and writes,
      including the associated configuration cache. The connection status
      and the two flags are what the system last reported or saved. */
  class ProviderManager {
    var localizedDescription: Option<string>
    var protocolConfiguration: ProviderProtocol?
    var isEnabled: bool
    var isOnDemandEnabled: bool
    var connectionStatus: V.VPNStatus
    var cachedConfiguration: Option<TunnelConfiguration>
    /** The number of `stopTunnel` requests made on the session. */
    var stopRequests: nat

    /** A profile as the system hands it over. */
    constructor (localizedDescription: Option<string>, protocolConfiguration: ProviderProtocol?,
                 isEnabled: bool, isOnDemandEnabled: bool, connectionStatus: V.VPNStatus)
      ensures this.localizedDescription == localizedDescription
      ensures this.protocolConfiguration == protocolConfiguration
      ensures this.isEnabled == isEnabled && this.isOnDemandEnabled == isOnDemandEnabled
      ensures this.connectionStatus == connectionStatus
      ensures cachedConfiguration.None? && stopRequests == 0
    {
      this.localizedDescription := localizedDescription;
      this.protocolConfiguration := protocolConfiguration;
      this.isEnabled := isEnabled;
      this.isOnDemandEnabled := isOnDemandEnabled;
      this.connectionStatus := connectionStatus;
      cachedConfiguration := None;
      stopRequests := 0;
    }

    /** What the `tunnelConfiguration` getter answers: the cached value if
        there is one, otherwise the protocol's configuration parsed with the
        profile's name, or nil when there is no tunnel-provider protocol. */
    function LoadedConfiguration(keychain: Keychain): (r: Option<TunnelConfiguration>)
      reads this, protocolConfiguration, keychain
      ensures cachedConfiguration.Some? ==> r == cachedConfiguration
      ensures cachedConfiguration.None? && protocolConfiguration == null ==> r.None?
      ensures cachedConfiguration.None? && r.Some? ==> r.value.name == localizedDescription
    {
      if cachedConfiguration.Some? then cachedConfiguration
      else if protocolConfiguration == null then None
      else protocolConfiguration.AsTunnelConfiguration(keychain, localizedDescription)
    }

    /** The `tunnelConfiguration` getter: answers `LoadedConfiguration` and
        caches a freshly parsed configuration; with a cached value, nothing
        is parsed and nothing changes. */
    method TunnelConfiguration(keychain: Keychain) returns (c: Option<TunnelConfiguration>)
      modifies this`cachedConfiguration
      ensures c == old(LoadedConfiguration(keychain))
      ensures old(cachedConfiguration).Some? ==> cachedConfiguration == old(cachedConfiguration)
      ensures old(cachedConfiguration).None? ==> cachedConfiguration == c
      ensures LoadedConfiguration(keychain) == c
    {
      if cachedConfiguration.Some? {
        return cachedConfiguration;
      }
      if protocolConfiguration == null {
        return None;
      }
      c := protocolConfiguration.AsTunnelConfiguration(keychain, localizedDescription);
      if c.Some? {
        cachedConfiguration := c;
      }
    }

    /** `set(tunnelConfiguration:)`: a new protocol for the configuration
        (nil when it cannot be made), the configuration's name as the
        profile's name, and the configuration itself in the cache, so the
        getter answers it from now on. */
    method SetTunnelConfiguration(c: TunnelConfiguration, bundleIdentifier: Option<string>,
                                  keychain: Keychain, addSucceeds: bool)
      requires keychain.Valid()
      modifies this, keychain
      ensures keychain.Valid()
      ensures localizedDescription == c.name
      ensures cachedConfiguration == Some(c)
      ensures LoadedConfiguration(keychain) == Some(c)
      ensures protocolConfiguration == null <==> !(c.name.Some? && bundleIdentifier.Some? && addSucceeds)
      ensures protocolConfiguration != null ==>
        fresh(protocolConfiguration) && protocolConfiguration.passwordReference.Some?
        && keychain.OpenReference(protocolConfiguration.passwordReference.value) == Some(WgQuickText(c))
      ensures isEnabled == old(isEnabled) && isOnDemandEnabled == old(isOnDemandEnabled)
      ensures connectionStatus == old(connectionStatus) && stopRequests == old(stopRequests)
    {
      var previous := if protocolConfiguration == null then None else protocolConfiguration.passwordReference;
      protocolConfiguration := NewProviderProtocol(c, previous, bundleIdentifier, keychain, addSucceeds);
      localizedDescription := c.name;
      cachedConfiguration := Some(c);
    }
  }

  /** `isEquivalent(to:)` between a manager and the manager of a tunnel named
      `tunnelName`: the profile carries that name and both answer the same
      configuration. */
  predicate IsEquivalent(manager: ProviderManager, tunnelName: string, tunnelManager: ProviderManager, keychain: Keychain)
    reads manager, manager.protocolConfiguration, tunnelManager, tunnelManager.protocolConfiguration, keychain
  {
    manager.localizedDescription == Some(tunnelName)
    && manager.LoadedConfiguration(keychain) == tunnelManager.LoadedConfiguration(keychain)
  }

  /** A manager is equivalent to its own tunnel exactly when the profile's
      name is the tunnel's name. */
  lemma EquivalentToOwnTunnel(manager: ProviderManager, tunnelName: string, keychain: Keychain)
    ensures IsEquivalent(manager, tunnelName, manager, keychain) <==> manager.localizedDescription == Some(tunnelName)
  {
  }

  /** A profile saved with a configuration, once reloaded from the system
      without its cache, answers the same configuration, because the
      wg-quick text in the keychain reads back. The saved manager is then
      equivalent to the reloaded one under the configuration's name. */
  lemma ReloadedProfileEquivalent(saved: ProviderManager, reloaded: ProviderManager, keychain: Keychain, c: TunnelConfiguration)
    requires WellFormed(c) && c.name.Some?
    requires saved.localizedDescription == c.name && saved.cachedConfiguration == Some(c)
    requires reloaded.localizedDescription == c.name && reloaded.cachedConfiguration.None?
    requires reloaded.protocolConfiguration != null && reloaded.protocolConfiguration.passwordReference.Some?
    requires keychain.OpenReference(reloaded.protocolConfiguration.passwordReference.value) == Some(WgQuickText(c))
    ensures reloaded.LoadedConfiguration(keychain) == Some(c)
    ensures IsEquivalent(saved, c.name.value, reloaded, keychain)
  {
    WgQuickRoundTrip.WgQuickRoundTrip(c);
  }
}
