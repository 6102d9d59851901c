/** `ConnectionModel` (Root/RouteCollections/Tunnel/Connection/ConnectionModel.swift):
    the event emitter between the connection chain, the tunnel manager and
    the route collection. What it publishes is the appended log `events`;
    what it asks of its delegate and of the tunnel manager is the appended
    log `requests`. Answers of the services are parameters. */
module ConnectionModels {
  import opened Wrappers
  import opened TunnelStatuses
  import opened TunnelErrors
  import opened NetworkErrors
  import opened SessionServiceErrors
  import opened SubscriptionsServices
  import N = ConnectionNodeModels
  import M = TunnelManagers
  import C = TunnelContainers

  /** The `Error` values it publishes, by where they come from. */
  datatype ModelError =
    | ConnectionError(connectionError: N.ConnectionModelError)
    | SessionsError(sessionsError: SessionsServiceError)
    | ServiceFailure(serviceError: AppError)
    | NodeModelError(shown: N.ShownError)
    | NodeModelWarning(body: SingleInnerError)
    | ActivationError(activationError: TunnelActivationError)
    | ManagerFailure(managerError: M.ManagerError)
    | WalletQueryFailure(queryError: WalletQueryError)

  /** An error of the wallet's chain queries: a GRPC status with its code,
      or anything else. */
  datatype WalletQueryError = GRPCStatus(code: nat) | OtherFailure(description: string)

  /** The GRPC status code `notFound`. */
  const NotFoundCode: nat := 5

  /** `TunnelRouteEvent.subscriptionCanceled.rawValue`. */
  const SubscriptionCanceled: string := "subscriptionCanceled"

  datatype ConnectionModelEvent =
    | Error(error: ModelError)
    | Warning(warning: ModelError)
    | Info(text: string)
    | UpdateTunnelActivity(isActive: bool)

  /** What it asks of others: its `ConnectionModelType` delegate to connect
      or refresh the node, the tunnel manager to deactivate a tunnel, the
      subscriptions service to cancel subscriptions on a node. */
  datatype Request =
    | StartConnect
    | RefreshNode
    | Deactivate(tunnel: C.TunnelContainer)
    | CancelSubscriptions(ids: seq<N.UInt64>, nodeAddress: string)

  /** `subscriptions.filter { $0.node == nodeAddress }.map { $0.id }`. */
  function IdsOn(subscriptions: seq<N.Subscription>, nodeAddress: string): (r: seq<N.UInt64>)
    ensures |r| <= |subscriptions|
  {
    if subscriptions == [] then []
    else (if subscriptions[0].node == nodeAddress then [subscriptions[0].id] else []) + IdsOn(subscriptions[1..], nodeAddress)
  }

  /** The ids cancelled are exactly those of the subscriptions on the node,
      in list order: the ids of a concatenation are the concatenation of
      the ids. */
  lemma {:induction false} IdsOnSpec(subscriptions: seq<N.Subscription>, nodeAddress: string)
    ensures forall id :: id in IdsOn(subscriptions, nodeAddress) <==>
      exists i :: 0 <= i < |subscriptions| && subscriptions[i].node == nodeAddress && subscriptions[i].id == id
  {
    if subscriptions != [] {
      var rest := subscriptions[1..];
      IdsOnSpec(rest, nodeAddress);
      forall id ensures id in IdsOn(subscriptions, nodeAddress) <==>
        exists i :: 0 <= i < |subscriptions| && subscriptions[i].node == nodeAddress && subscriptions[i].id == id
      {
        if id in IdsOn(rest, nodeAddress) {
          var i :| 0 <= i < |rest| && rest[i].node == nodeAddress && rest[i].id == id;
          assert subscriptions[i + 1] == rest[i];
        }
        if exists i :: 0 <= i < |subscriptions| && subscriptions[i].node == nodeAddress && subscriptions[i].id == id {
          var i :| 0 <= i < |subscriptions| && subscriptions[i].node == nodeAddress && subscriptions[i].id == id;
          if i > 0 {
            assert rest[i - 1] == subscriptions[i];
          }
        }
      }
    }
  }

  lemma {:induction false} IdsOnAppend(a: seq<N.Subscription>, b: seq<N.Subscription>, nodeAddress: string)
    ensures IdsOn(a + b, nodeAddress) == IdsOn(a, nodeAddress) + IdsOn(b, nodeAddress)
  {
    if a != [] {
      assert (a + b)[1..] == a[1..] + b;
      IdsOnAppend(a[1..], b, nodeAddress);
    } else {
      assert a + b == b;
    }
  }

  /** The error `fetchAuthorization` reports, if any is shown: none for a
      GRPC `notFound` (an account the chain does not know yet). */
  function AuthorizationError(error: Option<WalletQueryError>): (r: Option<ModelError>)
    ensures r.Some? <==> error.Some? && error.value != GRPCStatus(NotFoundCode)
    ensures r.Some? ==> r.value == WalletQueryFailure(error.value)
  {
    match error
    case None => None
    case Some(e) => if e.GRPCStatus? && e.code == NotFoundCode then None else Some(WalletQueryFailure(e))
  }

  /** The tunnel `disconnect()` deactivates: the last one, unless there is
      none or it is already disconnected. */
  function TunnelToDeactivate(lastTunnel: C.TunnelContainer?): (r: C.TunnelContainer?)
    reads lastTunnel
    ensures r == null <==> lastTunnel == null || lastTunnel.status == Disconnected
    ensures r != null ==> r == lastTunnel
  {
    if lastTunnel == null || lastTunnel.status == Disconnected then null else lastTunnel
  }

  class ConnectionModel {
    const tunnelManager: M.TunnelManager
    var events: seq<ConnectionModelEvent>
    var requests: seq<Request>

    /** `init(context:)`, before the wallet queries it starts come back
        (`AuthorizationFetched`, `NodeInfoFetched`). */
    constructor (tunnelManager: M.TunnelManager)
      ensures this.tunnelManager == tunnelManager && events == [] && requests == []
    {
      this.tunnelManager := tunnelManager;
      events := [];
      requests := [];
    }

    /** `stopLoading()`: publishes whether the tunnel is active. */
    method StopLoading()
      modifies this`events
      ensures events == old(events) + [UpdateTunnelActivity(tunnelManager.IsTunnelActive())]
    {
      events := events + [UpdateTunnelActivity(tunnelManager.IsTunnelActive())];
    }

    /** `show(error:)`: `stopLoading()`, which publishes the tunnel's
        activity, then the activity once more, then the error. */
    method ShowError(error: ModelError)
      modifies this`events
      ensures events == old(events) + [UpdateTunnelActivity(tunnelManager.IsTunnelActive()), UpdateTunnelActivity(tunnelManager.IsTunnelActive()), Error(error)]
    {
      StopLoading();
      events := events + [UpdateTunnelActivity(tunnelManager.IsTunnelActive()), Error(error)];
    }

    /** `show(warning:)`. */
    method ShowWarning(warning: ModelError)
      modifies this`events
      ensures events == old(events) + [Warning(warning)]
    {
      events := events + [Warning(warning)];
    }

    /** `set(isLoading:)`: only the end of loading is published. */
    method SetLoading(isLoading: bool)
      modifies this`events
      ensures isLoading ==> events == old(events)
      ensures !isLoading ==> events == old(events) + [UpdateTunnelActivity(tunnelManager.IsTunnelActive())]
    {
      if !isLoading {
        StopLoading();
      }
    }

    /** One call of the connection chain on its `ConnectionModelDelegate`. */
    method Deliver(call: N.DelegateCall)
      modifies this`events
      ensures call.SetLoading? ==> events == old(events) + (if call.isLoading then [] else [UpdateTunnelActivity(tunnelManager.IsTunnelActive())])
      ensures call.ShowError? ==> events == old(events) + [UpdateTunnelActivity(tunnelManager.IsTunnelActive()), UpdateTunnelActivity(tunnelManager.IsTunnelActive()), Error(NodeModelError(call.error))]
      ensures call.ShowWarning? ==> events == old(events) + [Warning(NodeModelWarning(call.warning))]
    {
      match call
      case SetLoading(isLoading) => SetLoading(isLoading);
      case ShowError(error) => ShowError(NodeModelError(error));
      case ShowWarning(warning) => ShowWarning(NodeModelWarning(warning));
    }

    /** `suggestUnsubscribe(from:)`. */
    method SuggestUnsubscribe()
      modifies this`events
      ensures events == old(events) + [Error(SessionsError(NodeMisconfigured))]
    {
      events := events + [Error(SessionsError(NodeMisconfigured))];
    }

    /** `openPlans(node:resubscribe:)`. */
    method OpenPlans(resubscribe: bool)
      modifies this`events
      ensures events == old(events) + [Error(ConnectionError(if resubscribe then N.NoQuotaLeft else N.NoSubscription))]
    {
      events := events + [Error(ConnectionError(if resubscribe then N.NoQuotaLeft else N.NoSubscription))];
    }

    /** `connect()`: handed to the delegate. */
    method Connect()
      modifies this`requests
      ensures requests == old(requests) + [StartConnect]
    {
      requests := requests + [StartConnect];
    }

    /** `disconnect()`: deactivates the last tunnel unless there is none or
        it is already disconnected, in which case only loading stops. */
    method Disconnect()
      modifies this`events, this`requests
      ensures var tunnel := old(TunnelToDeactivate(tunnelManager.LastTunnel()));
        if tunnel == null then
          events == old(events) + [UpdateTunnelActivity(tunnelManager.IsTunnelActive())] && requests == old(requests)
        else
          events == old(events) && requests == old(requests) + [Deactivate(tunnel)]
    {
      var tunnel := tunnelManager.LastTunnel();
      if tunnel == null || tunnel.status == Disconnected {
        StopLoading();
        return;
      }
      requests := requests + [Deactivate(tunnel)];
    }

    /** `cancelSubscriptions(for:)` on the loaded subscriptions and the
        cancellation's answer (`cancelled` is the service's answer for the
        ids asked for). A success publishes the info and the tunnel's
        activity, and asks for the node to be refreshed. */
    method CancelSubscriptionsFor(nodeAddress: string, loaded: Result<seq<N.Subscription>, AppError>,
                                  cancelled: seq<N.UInt64> -> Result<(), AppError>)
      modifies this`events, this`requests
      ensures loaded.Failure? ==>
        requests == old(requests)
        && events == old(events) + [UpdateTunnelActivity(tunnelManager.IsTunnelActive()), UpdateTunnelActivity(tunnelManager.IsTunnelActive()), Error(ServiceFailure(loaded.error))]
      ensures loaded.Success? ==>
        var ids := IdsOn(loaded.value, nodeAddress);
        match cancelled(ids)
        case Failure(e) =>
          requests == old(requests) + [CancelSubscriptions(ids, nodeAddress)]
          && events == old(events) + [UpdateTunnelActivity(tunnelManager.IsTunnelActive()), UpdateTunnelActivity(tunnelManager.IsTunnelActive()), Error(ServiceFailure(e))]
        case Success(_) =>
          requests == old(requests) + [CancelSubscriptions(ids, nodeAddress), RefreshNode]
          && events == old(events) + [Info(SubscriptionCanceled), UpdateTunnelActivity(tunnelManager.IsTunnelActive())]
    {
      match loaded
      case Failure(e) =>
        ShowError(ServiceFailure(e));
      case Success(subscriptions) =>
        var subscriptionsToCancel := IdsOn(subscriptions, nodeAddress);
        requests := requests + [CancelSubscriptions(subscriptionsToCancel, nodeAddress)];
        match cancelled(subscriptionsToCancel)
        case Failure(e) =>
          ShowError(ServiceFailure(e));
        case Success(_) =>
          HandleCancellation();
    }

    /** `handleCancellation(address:)`. */
    method HandleCancellation()
      modifies this`events, this`requests
      ensures events == old(events) + [Info(SubscriptionCanceled), UpdateTunnelActivity(tunnelManager.IsTunnelActive())]
      ensures requests == old(requests) + [RefreshNode]
    {
      events := events + [Info(SubscriptionCanceled)];
      StopLoading();
      requests := requests + [RefreshNode];
    }

    /** `updateConnectionType(forceUpdate:disconnect:)`: without a forced
        update only the node is refreshed; a forced one disconnects when
        asked to (two seconds later in the app, at once here). */
    method UpdateConnectionType(forceUpdate: bool, disconnect: bool)
      modifies this`events, this`requests
      ensures !forceUpdate ==> events == old(events) && requests == old(requests) + [RefreshNode]
      ensures forceUpdate && !disconnect ==> events == old(events) && requests == old(requests)
      ensures forceUpdate && disconnect ==>
        var tunnel := old(TunnelToDeactivate(tunnelManager.LastTunnel()));
        if tunnel == null then
          events == old(events) + [UpdateTunnelActivity(tunnelManager.IsTunnelActive())] && requests == old(requests)
        else
          events == old(events) && requests == old(requests) + [Deactivate(tunnel)]
    {
      if !forceUpdate {
        requests := requests + [RefreshNode];
        return;
      }
      if disconnect {
        Disconnect();
      }
    }

    /** `setInitData()`: a forced update that does not disconnect, so
        nothing happens. */
    method SetInitData()
      modifies this`events, this`requests
      ensures events == old(events) && requests == old(requests)
    {
      UpdateConnectionType(true, false);
    }

    /** `refresh()`: only the node is refreshed. */
    method Refresh()
      modifies this`events, this`requests
      ensures events == old(events) && requests == old(requests) + [RefreshNode]
    {
      UpdateConnectionType(false, true);
    }

    /** The completion of `fetchAuthorization` started by `init`. */
    method AuthorizationFetched(error: Option<WalletQueryError>)
      modifies this`events
      ensures AuthorizationError(error).None? ==> events == old(events)
      ensures AuthorizationError(error).Some? ==>
        events == old(events) + [UpdateTunnelActivity(tunnelManager.IsTunnelActive()), UpdateTunnelActivity(tunnelManager.IsTunnelActive()), Error(AuthorizationError(error).value)]
    {
      if error.Some? {
        if error.value.GRPCStatus? && error.value.code == NotFoundCode {
          return;
        }
        ShowError(WalletQueryFailure(error.value));
      }
    }

    /** The completion of `fetchTendermintNodeInfo` started by `init`; the
        info itself is only logged. */
    method NodeInfoFetched(result: Result<string, WalletQueryError>)
      modifies this`events
      ensures result.Success? ==> events == old(events)
      ensures result.Failure? ==>
        events == old(events) + [UpdateTunnelActivity(tunnelManager.IsTunnelActive()), UpdateTunnelActivity(tunnelManager.IsTunnelActive()), Error(WalletQueryFailure(result.error))]
    {
      if result.Failure? {
        ShowError(WalletQueryFailure(result.error));
      }
    }

    /** The `TunnelManagerDelegate` calls: only `handleError` shows
        anything. */
    method HandleManagerEvent(event: M.ManagerEvent)
      modifies this`events
      ensures !event.HandledError? ==> events == old(events)
      ensures event.HandledError? ==>
        events == old(events) + [UpdateTunnelActivity(tunnelManager.IsTunnelActive()), UpdateTunnelActivity(tunnelManager.IsTunnelActive()), Error(ManagerFailure(event.error))]
    {
      if event.HandledError? {
        ShowError(ManagerFailure(event.error));
      }
    }

    /** `activationAttemptFailed(for:with:)` and `activationFailed(for:with:)`. */
    method ActivationFailed(error: TunnelActivationError)
      modifies this`events
      ensures events == old(events) + [UpdateTunnelActivity(tunnelManager.IsTunnelActive()), UpdateTunnelActivity(tunnelManager.IsTunnelActive()), Error(ActivationError(error))]
    {
      ShowError(ActivationError(error));
    }

    /** `activationAttemptSucceeded(for:)`, `activationSucceeded(for:)` and
        `deactivationSucceeded(for:)`: loading stops (two seconds later in
        the app, at once here). */
    method ActivationSettled()
      modifies this`events
      ensures events == old(events) + [UpdateTunnelActivity(tunnelManager.IsTunnelActive())]
    {
      StopLoading();
    }
  }
}
