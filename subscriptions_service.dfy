/** `SubscriptionsService` (Services/SubscriptionsService/SubscriptionsService.swift):
    the decisions it makes on the wallet's and the chain provider's answers.
    The provider and the wallet are not modelled; what they answer is a
    parameter of each decision, and `hasSender` says whether the wallet
    could build a transaction sender (it cannot without a mnemonic). */
module SubscriptionsServices {
  import opened Wrappers
  import opened Text
  import opened SessionServiceErrors
  import opened WalletServiceErrors

  datatype SubscriptionsServiceError = MissingMnemonic | PaymentFailed | FaliToCancelSubscription | ActiveSession

  /** The `String` raw values, which `errorDescription` returns. */
  function RawValue(e: SubscriptionsServiceError): string {
    match e
    case MissingMnemonic => "missing_mnemonic"
    case PaymentFailed => "payment_failed"
    case FaliToCancelSubscription => "fali_to_cancel_subscription"
    case ActiveSession => "active_session"
  }

  /** No two cases share a raw value. */
  lemma RawValuesDistinct(e1: SubscriptionsServiceError, e2: SubscriptionsServiceError)
    ensures RawValue(e1) == RawValue(e2) ==> e1 == e2
  {
    if e1 != e2 {
      var d1, d2 := RawValue(e1), RawValue(e2);
      if |d1| == |d2| {
        assert d1[0] != d2[0];
      }
    }
  }

  /** The errors the services hand to their callers: their own, and any
      error of the wallet library or the network, passed on unchanged. */
  datatype AppError =
    | SubscriptionsFailure(subscriptionsError: SubscriptionsServiceError)
    | SessionsFailure(sessionsError: SessionsServiceError)
    | WalletFailure(walletError: WalletServiceError)
    | External(description: string)

  /** A coin amount as the wallet library spells it. */
  datatype CoinToken = CoinToken(denom: string, amount: string)

  /** A broadcast transaction's answer. */
  datatype TxResult = TxResult(isSuccess: bool, rawLog: string)

  /** `Int(text)` on a 64-bit platform. */
  function ParseInt(s: string): Option<int> {
    ParseSigned(s, Int64Min, Int64Max)
  }

  /** Where `first(where: { $0.denom == denom })` finds its balance. */
  function FirstInDenom(balances: seq<CoinToken>, denom: string): (r: Option<nat>)
    ensures r.None? <==> forall i :: 0 <= i < |balances| ==> balances[i].denom != denom
    ensures r.Some? ==> r.value < |balances| && balances[r.value].denom == denom
                        && forall j :: 0 <= j < r.value ==> balances[j].denom != denom
  {
    if balances == [] then None
    else if balances[0].denom == denom then Some(0)
    else
      var r := FirstInDenom(balances[1..], denom);
      if r.None? then None else Some(r.value + 1)
  }

  /** The right-hand side of the balance check as Swift parses it:
      `Int(deposit.amount) ?? 0 + fee` is `Int(deposit.amount) ?? (0 + fee)`,
      so the fee only counts when the deposit amount is not a number. */
  function Threshold(deposit: CoinToken, fee: int): int {
    ParseInt(deposit.amount).GetOr(0 + fee)
  }

  /** The private `subscribe(to:with:)` on the provider's answer. */
  function Subscribe(hasSender: bool, reply: Result<TxResult, AppError>): (r: Result<bool, AppError>)
    ensures !hasSender ==> r == Failure(SubscriptionsFailure(MissingMnemonic))
    ensures hasSender && reply.Failure? ==> r == Failure(reply.error)
    ensures hasSender && reply.Success? ==>
      r == (if reply.value.isSuccess then Success(true) else Failure(SubscriptionsFailure(PaymentFailed)))
  {
    if !hasSender then Failure(SubscriptionsFailure(MissingMnemonic))
    else match reply
      case Failure(e) => Failure(e)
      case Success(response) => if response.isSuccess then Success(true) else Failure(SubscriptionsFailure(PaymentFailed))
  }

  /** `checkBalanceAndSubscribe(to:deposit:)` on the wallet's balances and,
      when it gets that far, the subscription's answer. */
  function CheckBalanceAndSubscribe(balances: Result<seq<CoinToken>, AppError>, deposit: CoinToken, fee: int,
                                    hasSender: bool, subscribed: Result<TxResult, AppError>): (r: Result<bool, AppError>)
    ensures balances.Failure? ==> r == Failure(balances.error)
    ensures r == Success(true) <==>
      balances.Success? && FirstInDenom(balances.value, deposit.denom).Some?
      && ParseInt(balances.value[FirstInDenom(balances.value, deposit.denom).value].amount).GetOr(0) >= Threshold(deposit, fee)
      && hasSender && subscribed.Success? && subscribed.value.isSuccess
    ensures balances.Success? && r.Failure? ==> r == Subscribe(hasSender, subscribed)
  {
    match balances
    case Failure(e) => Failure(e)
    case Success(bs) =>
      var balance := FirstInDenom(bs, deposit.denom);
      if balance.None? || !(ParseInt(bs[balance.value].amount).GetOr(0) >= Threshold(deposit, fee)) then Success(false)
      else Subscribe(hasSender, subscribed)
  }

  /** Without a balance in the deposit's denomination, or with the first
      such balance below the threshold, the answer is `false` and nothing
      is bought; with enough, the subscription's own outcome is the answer.
      A failed balance fetch is passed on. */
  lemma CheckBalanceOutcomes(balances: Result<seq<CoinToken>, AppError>, deposit: CoinToken, fee: int,
                             hasSender: bool, subscribed: Result<TxResult, AppError>)
    ensures balances.Failure? ==> CheckBalanceAndSubscribe(balances, deposit, fee, hasSender, subscribed) == Failure(balances.error)
    ensures balances.Success? && (forall i :: 0 <= i < |balances.value| ==> balances.value[i].denom != deposit.denom) ==>
      CheckBalanceAndSubscribe(balances, deposit, fee, hasSender, subscribed) == Success(false)
    ensures balances.Success? ==> forall i ::
      (0 <= i < |balances.value| && balances.value[i].denom == deposit.denom
       && forall j :: 0 <= j < i ==> balances.value[j].denom != deposit.denom) ==>
      CheckBalanceAndSubscribe(balances, deposit, fee, hasSender, subscribed)
      == if ParseInt(balances.value[i].amount).GetOr(0) >= Threshold(deposit, fee) then Subscribe(hasSender, subscribed)
         else Success(false)
  {
    if balances.Success? {
      var bs := balances.value;
      var b := FirstInDenom(bs, deposit.denom);
      if b.Some? {
        var k := b.value;
        forall i | 0 <= i < |bs| && bs[i].denom == deposit.denom && (forall j :: 0 <= j < i ==> bs[j].denom != deposit.denom)
          ensures i == k
        {
        }
      }
    }
  }

  /** A deposit amount that parses sets the threshold alone, whatever the
      fee; only an unparsable amount makes the threshold the fee. */
  lemma ThresholdIgnoresFee(deposit: CoinToken, fee1: int, fee2: int)
    ensures ParseInt(deposit.amount).Some? ==> Threshold(deposit, fee1) == Threshold(deposit, fee2) == ParseInt(deposit.amount).value
    ensures ParseInt(deposit.amount).None? ==> Threshold(deposit, fee1) == fee1
  {
  }

  /** As written, a balance that covers the deposit alone buys the
      subscription: 100 "udvpn" against a deposit of 100 and a fee of 10. */
  lemma FeeNotCovered()
    ensures var balances := Success([CoinToken("udvpn", "100")]);
      CheckBalanceAndSubscribe(balances, CoinToken("udvpn", "100"), 10, true, Success(TxResult(true, ""))) == Success(true)
  {
    ParseSignedDecimal(100, Int64Min, Int64Max);
    assert NatToDecimal(100) == "100" by {
      assert NatToDecimal(10) == "10";
    }
  }

  /** The threshold the check evidently means: the deposit amount plus the fee. */
  function IntendedThreshold(deposit: CoinToken, fee: int): int {
    ParseInt(deposit.amount).GetOr(0) + fee
  }

  /** `checkBalanceAndSubscribe(to:deposit:)` with the parenthesised threshold
      `(Int(deposit.amount) ?? 0) + fee`. */
  function CheckBalanceAndSubscribeIntended(balances: Result<seq<CoinToken>, AppError>, deposit: CoinToken, fee: int,
                                            hasSender: bool, subscribed: Result<TxResult, AppError>): (r: Result<bool, AppError>)
    ensures balances.Failure? ==> r == Failure(balances.error)
    ensures r == Success(true) <==>
      balances.Success? && FirstInDenom(balances.value, deposit.denom).Some?
      && ParseInt(balances.value[FirstInDenom(balances.value, deposit.denom).value].amount).GetOr(0) >= IntendedThreshold(deposit, fee)
      && hasSender && subscribed.Success? && subscribed.value.isSuccess
    ensures balances.Success? && r.Failure? ==> r == Subscribe(hasSender, subscribed)
  {
    match balances
    case Failure(e) => Failure(e)
    case Success(bs) =>
      var balance := FirstInDenom(bs, deposit.denom);
      if balance.None? || !(ParseInt(bs[balance.value].amount).GetOr(0) >= IntendedThreshold(deposit, fee)) then Success(false)
      else Subscribe(hasSender, subscribed)
  }

  /** With the intended threshold nothing is bought unless the first balance
      in the deposit's denomination covers the deposit and the fee together;
      the input that shows the as-written check wrong is refused. */
  lemma IntendedCoversFee(balances: Result<seq<CoinToken>, AppError>, deposit: CoinToken, fee: int,
                          hasSender: bool, subscribed: Result<TxResult, AppError>)
    ensures CheckBalanceAndSubscribeIntended(balances, deposit, fee, hasSender, subscribed) == Success(true) ==>
      balances.Success? && FirstInDenom(balances.value, deposit.denom).Some?
      && ParseInt(balances.value[FirstInDenom(balances.value, deposit.denom).value].amount).GetOr(0)
         >= ParseInt(deposit.amount).GetOr(0) + fee
    ensures CheckBalanceAndSubscribeIntended(Success([CoinToken("udvpn", "100")]), CoinToken("udvpn", "100"), 10,
                                             hasSender, subscribed) == Success(false)
  {
    ParseSignedDecimal(100, Int64Min, Int64Max);
    assert NatToDecimal(100) == "100" by {
      assert NatToDecimal(10) == "10";
    }
  }

  /** `cancel(subscriptions:with:)` on the provider's answer. */
  function Cancel(hasSender: bool, reply: Result<TxResult, AppError>): (r: Result<(), AppError>)
    ensures !hasSender ==> r == Failure(SubscriptionsFailure(MissingMnemonic))
    ensures hasSender && reply.Failure? ==> r == Failure(reply.error)
    ensures hasSender && reply.Success? && reply.value.isSuccess ==> r == Success(())
    ensures hasSender && reply.Success? && !reply.value.isSuccess ==>
      r == Failure(SubscriptionsFailure(if ContainsSubstring(reply.value.rawLog, "can not cancel") then ActiveSession else FaliToCancelSubscription))
  {
    if !hasSender then Failure(SubscriptionsFailure(MissingMnemonic))
    else match reply
      case Failure(e) => Failure(e)
      case Success(result) =>
        if result.isSuccess then Success(())
        // A subscription cannot be cancelled while it has active sessions.
        else if ContainsSubstring(result.rawLog, "can not cancel") then Failure(SubscriptionsFailure(ActiveSession))
        else Failure(SubscriptionsFailure(FaliToCancelSubscription))
  }

  /** A failed cancel is reported as an active session exactly when its log
      says so, whatever else the log holds around those words. */
  lemma CancelActiveSession(before: string, after: string)
    ensures Cancel(true, Success(TxResult(false, before + "can not cancel" + after)))
      == Failure(SubscriptionsFailure(ActiveSession))
  {
    var log := before + "can not cancel" + after;
    assert log[|before|..|before| + |"can not cancel"|] == "can not cancel";
    assert OccursAt(log, "can not cancel", |before|);
  }
}
