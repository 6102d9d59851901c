/** `ConnectionNodeModel`
    (Root/RouteCollections/Tunnel/Connection/ConnectionNodeModel.swift): the
    chain of checks between switching the VPN on and creating the tunnel
    profile. Each network request of the chain is a value of `Next`; each
    completion is a step that takes the answer and gives the delegate calls
    it makes, in order, and the next request. The decisions inside the
    steps (the subscription choice, the quota and balance gates, the
    detection table, the session-id encoding) are functions of their own. */
module ConnectionNodeModels {
  import opened Wrappers
  import opened Text
  import opened WireGuardKit
  import opened TunnelStatuses
  import opened NetworkErrors
  import opened WalletServiceErrors
  import opened SubscriptionsServices
  import G = GeneralSettings

  type UInt64 = n: nat | n <= 0xFFFF_FFFF_FFFF_FFFF

  /** The only denomination the balance gate looks at. */
  const Denom: string := "udvpn"

  /** `ConnectionModelError`, with the `tunnelIsAlreadyActive` case the
      detection table reports. */
  datatype ConnectionModelError =
    | SignatureGenerationFailed
    | NodeIsOffline
    | BalanceUpdateFailed
    | NoSelectedNode
    | NoSubscription
    | NoQuotaLeft
    | TunnelIsAlreadyActive

  /** What `show(error:)` is given: a connection error's body, or a failure
      of a request wrapped as `.init(code: 500, message: error.localizedDescription)`. */
  datatype ShownError = ConnectionFailure(connectionError: ConnectionModelError) | ServerFailure(error: AppError)

  /** The delegate's `ConnectionModelDelegate` methods. */
  datatype DelegateCall =
    | SetLoading(isLoading: bool)
    | ShowError(error: ShownError)
    | ShowWarning(warning: SingleInnerError)

  datatype Subscription = Subscription(id: UInt64, node: string, isActive: bool)

  datatype Quota = Quota(allocatedAmount: string, consumedAmount: string)

  datatype Session = Session(id: UInt64, node: string)

  /** The request the chain waits on next, or how it ended. */
  datatype Next =
    | LoadSubscriptions(address: string)
    | LoadSessions(subscription: Subscription, connect: bool, isTunnelActive: bool, sessionId: int)
    | QueryQuota(subscription: Subscription)
    | GetNode(subscription: Subscription)
    | FetchBalance(subscription: Subscription, nodeURL: string)
    | StartSession(subscription: Subscription, nodeURL: string, nodeAddress: string)
    | FetchConnectionData(remoteURLString: string, id: UInt64, accountAddress: string, signature: string)
    | CreateProfile(data: seq<Byte>, key: Key)
    | ActivateLastTunnel
    | Stop
    | Trap

  datatype Step = Step(calls: seq<DelegateCall>, next: Next)

  // ---------------------------------------------------------------- decisions

  /** `subscriptions.last(where: { $0.node == address })`, as a position. */
  function LastFor(subscriptions: seq<Subscription>, address: string): (r: Option<nat>)
    ensures r.None? <==> forall i :: 0 <= i < |subscriptions| ==> subscriptions[i].node != address
    ensures r.Some? ==> r.value < |subscriptions| && subscriptions[r.value].node == address
                        && forall j :: r.value < j < |subscriptions| ==> subscriptions[j].node != address
  {
    if subscriptions == [] then None
    else if subscriptions[|subscriptions| - 1].node == address then Some(|subscriptions| - 1)
    else LastFor(subscriptions[..|subscriptions| - 1], address)
  }

  /** `(Int64(allocated) ?? 0) - (Int64(consumed) ?? 0)`; `None` where the
      64-bit subtraction overflows, which traps in Swift. */
  function BandwidthLeft(quota: Quota): (r: Option<int>)
    ensures var a, c := ParseInt(quota.allocatedAmount).GetOr(0), ParseInt(quota.consumedAmount).GetOr(0);
      (r.Some? <==> Int64Min <= a - c <= Int64Max) && (r.Some? ==> r.value == a - c)
  {
    var left := ParseInt(quota.allocatedAmount).GetOr(0) - ParseInt(quota.consumedAmount).GetOr(0);
    if Int64Min <= left <= Int64Max then Some(left) else None
  }

  /** `update(quota:askForResubscription: true, subscription:)` and
      `checkQuotaAndSubscription`: the chain goes on only with quota left
      (any non-zero remainder, a negative one included) on an active
      subscription; otherwise it reports `noQuotaLeft` and stops loading. */
  function QuotaGate(quota: Quota, subscription: Subscription): (r: Step)
    ensures BandwidthLeft(quota).None? <==> r.next == Trap
    ensures r.next != Trap ==>
      (r.next == GetNode(subscription) <==> BandwidthLeft(quota).value != 0 && subscription.isActive)
    ensures r.next == GetNode(subscription) || r.next == Trap ==> r.calls == []
    ensures r.next != GetNode(subscription) && r.next != Trap ==>
      r == Step([ShowError(ConnectionFailure(NoQuotaLeft)), SetLoading(false)], Stop)
  {
    var left := BandwidthLeft(quota);
    if left.None? then Step([], Trap)
    else if left.value != 0 && subscription.isActive then Step([], GetNode(subscription))
    else Step([ShowError(ConnectionFailure(NoQuotaLeft)), SetLoading(false)], Stop)
  }

  /** The balance check of `createNewSession`: some balance in "udvpn" whose
      amount (0 when it does not parse) covers the fee. */
  predicate EnoughBalance(balances: seq<CoinToken>, fee: int) {
    exists i :: 0 <= i < |balances| && balances[i].denom == Denom && ParseInt(balances[i].amount).GetOr(0) >= fee
  }

  /** The tunnel half of `detectConnection`: there is a last tunnel and,
      when its status is considered, it is connected or connecting. */
  function TunnelCountsActive(lastTunnel: Option<TunnelStatus>, considerStatus: bool): (r: bool)
    ensures r <==> lastTunnel.Some? && (considerStatus ==> lastTunnel.value in {Connected, Connecting})
  {
    match lastTunnel
    case None => false
    case Some(status) => if considerStatus then status == Connected || status == Connecting else true
  }

  /** The session half of `detectConnection`: the stored session is among
      the active ones, on the same node. */
  predicate SessionCountsActive(sessionId: int, sessions: seq<Session>, node: string) {
    exists i :: 0 <= i < |sessions| && sessions[i].id == sessionId && sessions[i].node == node
  }

  /** What `detectConnectionAndHandle` does with the detection. */
  datatype Handling = ConnectToSubscription | ReportAlreadyActive | ActivateTunnel | StopLoading | Nothing

  function Handle(detected: Result<(bool, bool), AppError>, connect: bool, hasLastTunnel: bool): Handling {
    match detected
    case Failure(_) => if connect then ConnectToSubscription else Nothing
    case Success((isTunnelActive, isSessionActive)) =>
      if isTunnelActive && isSessionActive then ReportAlreadyActive
      else if isSessionActive then
        (if hasLastTunnel then ActivateTunnel else if connect then ConnectToSubscription else StopLoading)
      else ConnectToSubscription
  }

  /** The decision table: an active tunnel on an active session is reported;
      an active session without a running tunnel re-activates the last
      tunnel when there is one; without an active session the full connect
      runs, whether or not a connect was asked for; a failed detection
      connects only when asked to. */
  lemma HandleTable(detected: Result<(bool, bool), AppError>, connect: bool, hasLastTunnel: bool)
    ensures detected == Success((true, true)) ==> Handle(detected, connect, hasLastTunnel) == ReportAlreadyActive
    ensures detected == Success((false, true)) ==>
      Handle(detected, connect, hasLastTunnel) == (if hasLastTunnel then ActivateTunnel else if connect then ConnectToSubscription else StopLoading)
    ensures detected.Success? && !detected.value.1 ==> Handle(detected, connect, hasLastTunnel) == ConnectToSubscription
    ensures detected.Failure? ==> Handle(detected, connect, hasLastTunnel) == (if connect then ConnectToSubscription else Nothing)
    ensures Handle(detected, connect, hasLastTunnel) == ReportAlreadyActive <==> detected == Success((true, true))
  {
  }

  // ---------------------------------------------------------------- the session id

  /** `count` bytes of `n`, most significant first. */
  function BigEndianBytes(n: nat, count: nat): (r: seq<Byte>)
    ensures |r| == count
  {
    if count == 0 then [] else BigEndianBytes(n / 256, count - 1) + [n % 256]
  }

  /** The number bytes stand for, most significant first. */
  function BigEndianValue(bs: seq<Byte>): nat {
    if bs == [] then 0 else BigEndianValue(bs[..|bs| - 1]) * 256 + bs[|bs| - 1]
  }

  function Pow256(count: nat): (r: nat)
    ensures r > 0
  {
    if count == 0 then 1 else 256 * Pow256(count - 1)
  }

  /** `Data(bytes: &id.bigEndian, count: 8)`: the bytes that are signed. */
  function SessionIdBytes(id: UInt64): (r: seq<Byte>)
    ensures |r| == 8
  {
    BigEndianBytes(id, 8)
  }

  lemma {:induction false} BigEndianRoundTrip(n: nat, count: nat)
    requires n < Pow256(count)
    ensures BigEndianValue(BigEndianBytes(n, count)) == n
  {
    if count > 0 {
      var bs := BigEndianBytes(n, count);
      assert bs[..|bs| - 1] == BigEndianBytes(n / 256, count - 1);
      assert n / 256 < Pow256(count - 1);
      BigEndianRoundTrip(n / 256, count - 1);
    }
  }

  /** The eight signed bytes are the id, most significant byte first. */
  lemma SessionIdBytesRoundTrip(id: UInt64)
    ensures BigEndianValue(SessionIdBytes(id)) == id
  {
    assert Pow256(8) == 0x1_0000_0000_0000_0000;
    BigEndianRoundTrip(id, 8);
  }

  // ---------------------------------------------------------------- the chain

  /** `connect(to:)`: refused while the tunnel is active; otherwise loading
      starts and the subscriptions are requested. */
  function Connect(node: string, isTunnelActive: bool): (r: (bool, Step))
    ensures r.0 <==> !isTunnelActive
    ensures !r.0 ==> r.1 == Step([], Stop)
    ensures r.0 ==> r.1 == Step([SetLoading(true)], LoadSubscriptions(node))
  {
    if isTunnelActive then (false, Step([], Stop))
    else (true, Step([SetLoading(true)], LoadSubscriptions(node)))
  }

  /** The last steps of `detectConnectionAndHandle` on a detection. */
  function Handled(detected: Result<(bool, bool), AppError>, connect: bool, subscription: Subscription,
                   hasLastTunnel: bool): (r: Step)
    ensures r.next in {QueryQuota(subscription), ActivateLastTunnel, Stop}
    ensures r.next == QueryQuota(subscription) <==> Handle(detected, connect, hasLastTunnel) == ConnectToSubscription
    ensures r.next == ActivateLastTunnel <==> Handle(detected, connect, hasLastTunnel) == ActivateTunnel
  {
    match Handle(detected, connect, hasLastTunnel)
    case ConnectToSubscription => Step([], QueryQuota(subscription))
    case ReportAlreadyActive => Step([ShowError(ConnectionFailure(TunnelIsAlreadyActive))], Stop)
    case ActivateTunnel => Step([], ActivateLastTunnel)
    case StopLoading => Step([SetLoading(false)], Stop)
    case Nothing => Step([], Stop)
  }

  /** The completion of `loadActiveSessions` inside `detectConnection`. */
  function SessionsLoaded(pending: Next, sessions: Result<seq<Session>, AppError>, hasLastTunnel: bool): (r: Step)
    requires pending.LoadSessions?
    ensures var detected := if sessions.Failure? then Failure(sessions.error)
      else Success((pending.isTunnelActive, SessionCountsActive(pending.sessionId, sessions.value, pending.subscription.node)));
      r == Handled(detected, pending.connect, pending.subscription, hasLastTunnel)
  {
    match sessions
    case Failure(e) => Handled(Failure(e), pending.connect, pending.subscription, hasLastTunnel)
    case Success(list) =>
      Handled(Success((pending.isTunnelActive, SessionCountsActive(pending.sessionId, list, pending.subscription.node))),
              pending.connect, pending.subscription, hasLastTunnel)
  }

  /** The completion of `queryQuota(for:)`. */
  function QuotaAnswered(subscription: Subscription, quota: Result<Quota, AppError>): (r: Step)
    ensures quota.Failure? ==> r == Step([ShowError(ServerFailure(quota.error))], Stop)
    ensures quota.Success? ==> r == QuotaGate(quota.value, subscription)
  {
    match quota
    case Failure(e) => Step([ShowError(ServerFailure(e))], Stop)
    case Success(q) => QuotaGate(q, subscription)
  }

  /** The completion of `getNode(by:)`: the node's remote URL is what the
      session is started for. */
  function NodeAnswered(subscription: Subscription, remoteURL: Result<string, AppError>): (r: Step)
    ensures remoteURL.Failure? ==> r == Step([ShowError(ServerFailure(remoteURL.error))], Stop)
    ensures remoteURL.Success? ==> r == Step([], FetchBalance(subscription, remoteURL.value))
  {
    match remoteURL
    case Failure(e) => Step([ShowError(ServerFailure(e))], Stop)
    case Success(url) => Step([], FetchBalance(subscription, url))
  }

  class ConnectionNodeModel {
    /** `connectionInfoStorage`. */
    const storage: G.GeneralSettingsStorage

    constructor (storage: G.GeneralSettingsStorage)
      ensures this.storage == storage
    {
      this.storage := storage;
    }

    /** The completion of `loadActiveSubscriptions` in `loadSubscriptions`:
        the last subscription on the node is the one used; without one,
        `noSubscription` is shown and the chain ends. The detection then
        reads the last tunnel's status and the stored session id; with no
        stored id the session counts as inactive at once. */
    function SubscriptionsLoaded(address: string, subscriptions: Result<seq<Subscription>, AppError>,
                                 lastTunnel: Option<TunnelStatus>): (r: Step)
      reads storage, storage.strategy`objects
      ensures subscriptions.Failure? ==> r == Step([ShowError(ServerFailure(subscriptions.error))], Stop)
      ensures subscriptions.Success? && LastFor(subscriptions.value, address).None? ==>
        r == Step([ShowError(ConnectionFailure(NoSubscription))], Stop)
      ensures subscriptions.Success? && LastFor(subscriptions.value, address).Some? ==>
        var subscription := subscriptions.value[LastFor(subscriptions.value, address).value];
        var isTunnelActive := TunnelCountsActive(lastTunnel, true);
        match storage.LastSessionId()
        case None => r == Handled(Success((isTunnelActive, false)), true, subscription, lastTunnel.Some?)
        case Some(id) => r == Step([], LoadSessions(subscription, true, isTunnelActive, id))
    {
      match subscriptions
      case Failure(e) => Step([ShowError(ServerFailure(e))], Stop)
      case Success(list) =>
        match LastFor(list, address)
        case None => Step([ShowError(ConnectionFailure(NoSubscription))], Stop)
        case Some(i) =>
          var isTunnelActive := TunnelCountsActive(lastTunnel, true);
          match storage.LastSessionId()
          case None => Handled(Success((isTunnelActive, false)), true, list[i], lastTunnel.Some?)
          case Some(id) => Step([], LoadSessions(list[i], true, isTunnelActive, id))
    }

    /** The completion of `fetchBalance` in `createNewSession`: a failed fetch
        starts the session anyway; a fetched list without enough "udvpn"
        shows the `notEnoughTokens` warning and stops loading. Starting a
        session needs the last selected node; without one the chain ends
        silently. */
    function BalanceAnswered(subscription: Subscription, nodeURL: string, balances: Result<seq<CoinToken>, AppError>,
                             fee: int): (r: Step)
      reads storage, storage.strategy`objects
      ensures balances.Success? && !EnoughBalance(balances.value, fee) ==>
        r == Step([ShowWarning(Body(NotEnoughTokens)), SetLoading(false)], Stop)
      ensures balances.Failure? || EnoughBalance(balances.value, fee) ==>
        r == (if storage.LastSelectedNode().None? then Step([], Stop)
              else Step([], StartSession(subscription, nodeURL, storage.LastSelectedNode().value)))
    {
      if balances.Success? && !EnoughBalance(balances.value, fee) then
        Step([ShowWarning(Body(NotEnoughTokens)), SetLoading(false)], Stop)
      else
        match storage.LastSelectedNode()
        case None => Step([], Stop)
        case Some(nodeAddress) => Step([], StartSession(subscription, nodeURL, nodeAddress))
    }

    /** The completion of `startSession(on:node:)`. On success the session
        id is signed as its eight big-endian bytes (`sign` is the wallet's
        `generateSignature`), the connection data is requested, and the
        subscription's node becomes the last selected node, even when the
        signature could not be made. `accountAddress` is the wallet
        storage's address. */
    method SessionStarted(subscription: Subscription, nodeURL: string, started: Result<UInt64, AppError>,
                          accountAddress: string, sign: seq<Byte> -> Option<string>) returns (step: Step)
      modifies storage.strategy`objects
      ensures started.Failure? ==>
        step == Step([ShowError(ServerFailure(started.error))], Stop) && storage.strategy.objects == old(storage.strategy.objects)
      ensures started.Success? ==>
        var signature := sign(SessionIdBytes(started.value));
        step == (if signature.None? then Step([ShowError(ConnectionFailure(SignatureGenerationFailed))], Stop)
                 else Step([], FetchConnectionData(nodeURL, started.value, accountAddress, signature.value)))
        && (storage.strategy.available ==> storage.LastSelectedNode() == Some(subscription.node))
        && storage.strategy.objects == if storage.strategy.available
           then G.WithSetting(old(storage.strategy.objects), G.LastSelectedNodeKey, G.NodeValue(Some(subscription.node)))
           else old(storage.strategy.objects)
    {
      match started
      case Failure(e) =>
        step := Step([ShowError(ServerFailure(e))], Stop);
      case Success(id) =>
        var sessionIdData := SessionIdBytes(id);
        var signature := sign(sessionIdData);
        if signature.None? {
          step := Step([ShowError(ConnectionFailure(SignatureGenerationFailed))], Stop);
        } else {
          step := Step([], FetchConnectionData(nodeURL, id, accountAddress, signature.value));
        }
        storage.SetLastSelectedNode(Some(subscription.node));
    }

    /** The completion of `fetchConnectionData`: the session id is stored
        (`Int(id)`, which traps above the 64-bit signed range) and the
        profile is created from the data and key. */
    method ConnectionDataFetched(id: UInt64, fetched: Result<(seq<Byte>, Key), AppError>) returns (step: Step)
      modifies storage.strategy`objects
      ensures fetched.Failure? ==> step == Step([ShowError(ServerFailure(fetched.error))], Stop)
      ensures fetched.Success? && id > Int64Max ==> step == Step([], Trap)
      ensures fetched.Failure? || id > Int64Max ==> storage.strategy.objects == old(storage.strategy.objects)
      ensures fetched.Success? && id <= Int64Max ==>
        step == Step([], CreateProfile(fetched.value.0, fetched.value.1))
        && (storage.strategy.available ==> storage.LastSessionId() == Some(id))
        && storage.strategy.objects == if storage.strategy.available
           then G.WithSetting(old(storage.strategy.objects), G.LastSessionKey, G.SessionIdValue(Some(id)))
           else old(storage.strategy.objects)
    {
      match fetched
      case Failure(e) =>
        step := Step([ShowError(ServerFailure(e))], Stop);
      case Success((data, wgKey)) =>
        if id > Int64Max {
          return Step([], Trap);
        }
        storage.SetSessionId(Some(id));
        step := Step([], CreateProfile(data, wgKey));
    }
  }

  // ---------------------------------------------------------------- properties of the chain

  /** Only an active subscription with quota left reaches the node request,
      and a zero remainder never does; a negative remainder does. */
  lemma QuotaGateOutcomes(quota: Quota, subscription: Subscription)
    ensures QuotaGate(quota, subscription).next == GetNode(subscription) ==>
      subscription.isActive && BandwidthLeft(quota).Some? && BandwidthLeft(quota).value != 0
    ensures BandwidthLeft(quota) == Some(0) ==> QuotaGate(quota, subscription).next == Stop
    ensures subscription.isActive && BandwidthLeft(quota).Some? && BandwidthLeft(quota).value < 0 ==>
      QuotaGate(quota, subscription).next == GetNode(subscription)
  {
  }

  /** The subtraction traps only on numbers near the 64-bit limits: two
      non-negative parsed amounts never overflow. */
  lemma NoTrapOnCounters(quota: Quota)
    requires ParseInt(quota.allocatedAmount).GetOr(0) >= 0 && ParseInt(quota.consumedAmount).GetOr(0) >= 0
    ensures BandwidthLeft(quota).Some?
  {
  }

  /** A session is started only when the balance fetch failed or some
      "udvpn" balance covers the fee, and then for the last selected node. */
  lemma SessionNeedsBalance(model: ConnectionNodeModel, subscription: Subscription, nodeURL: string,
                            balances: Result<seq<CoinToken>, AppError>, fee: int)
    ensures model.BalanceAnswered(subscription, nodeURL, balances, fee).next.StartSession? ==>
      (balances.Failure? || EnoughBalance(balances.value, fee))
      && model.storage.LastSelectedNode() == Some(model.BalanceAnswered(subscription, nodeURL, balances, fee).next.nodeAddress)
    ensures balances.Success? && (forall i :: 0 <= i < |balances.value| ==> balances.value[i].denom != Denom) ==>
      model.BalanceAnswered(subscription, nodeURL, balances, fee).next == Stop
  {
  }

  /** The chosen subscription is on the node asked for, and no later
      subscription in the list is. */
  lemma ChosenSubscriptionIsLast(model: ConnectionNodeModel, address: string, subscriptions: seq<Subscription>,
                                 lastTunnel: Option<TunnelStatus>)
    ensures var r := model.SubscriptionsLoaded(address, Success(subscriptions), lastTunnel);
      (r.next.LoadSessions? || r.next.QueryQuota?) ==>
        var s := if r.next.LoadSessions? then r.next.subscription else r.next.subscription;
        exists i :: 0 <= i < |subscriptions| && subscriptions[i] == s && s.node == address
          && forall j :: i < j < |subscriptions| ==> subscriptions[j].node != address
  {
    var r := model.SubscriptionsLoaded(address, Success(subscriptions), lastTunnel);
    var k := LastFor(subscriptions, address);
    if k.Some? && (r.next.LoadSessions? || r.next.QueryQuota?) {
      assert subscriptions[k.value].node == address;
    }
  }
}
