/** One tunnel as the app tracks it: its name, its local status and the
    activation procedure with its bounded retry
    (Services/Tunnel/Service/TunnelContainer.swift). */
module TunnelContainers {
  import opened Wrappers
  import opened TunnelStatuses
  import V = VPNStatuses
  import opened TunnelErrors
  import opened TunnelProviders

  /** `maxRecursionCount`: activation gives up after this many attempts. */
  function MaxRecursionCount(): nat { 8 }

  /** The system's answers during one activation attempt: the outcome of
      saving a re-enabled profile, the error `startTunnel` throws, the
      outcome of reloading the profile, the reloaded `isEnabled`, and the
      UUID generated for the attempt. */
  datatype Attempt = Attempt(
    saveError: Option<SystemError>,
    startError: Option<SystemError>,
    loadError: Option<SystemError>,
    enabledAfterLoad: bool,
    attemptId: string)

  /** The part of a container and its profile that activation and
      deactivation read and write; `stopRequests` counts the requests made
      to stop the profile's session. */
  datatype ContainerState = ContainerState(
    status: TunnelStatus,
    isActivateOnDemandEnabled: bool,
    isAttemptingActivation: bool,
    activationAttemptId: Option<string>,
    providerEnabled: bool,
    stopRequests: nat)

  /** The end of an activation: the final state, the delegate reports in
      order, and the number of attempts (each one a save or a start). */
  datatype Run = Run(state: ContainerState, reports: seq<Report>, attempts: nat)

  function Shift(r: Run, k: nat): Run {
    r.(attempts := r.attempts + k)
  }

  /** The start errors after which the profile is reloaded and activation
      retried: `configurationInvalid` and `configurationStale`. */
  predicate Retries(e: SystemError) {
    e.VPNError? && (e.code == ConfigurationInvalid || e.code == ConfigurationStale)
  }

  /** `startActivation(recursionCount:lastError:)` followed through
      `reActivateProvider` and `startTunnel` and their completions, with the
      system's answer for attempt `k` given by `answer(k)`. */
  function Activate(s: ContainerState, count: nat, lastError: Option<SystemError>, answer: nat -> Attempt): Run
    decreases MaxRecursionCount() - count
  {
    if count >= MaxRecursionCount() then
      Run(s, if lastError.Some? then [AttemptFailed(RetryLimitReached(lastError.value))] else [], 0)
    else
      var a := answer(count);
      var connecting := s.(status := Connecting);
      if !s.providerEnabled then
        var enabled := connecting.(providerEnabled := true);
        if a.saveError.None? then Shift(Activate(enabled, count + 1, Some(VPNError(ConfigurationUnknown)), answer), 1)
        else Run(enabled, [AttemptFailed(SavingFailed(a.saveError.value))], 1)
      else
        var attempting := connecting.(isAttemptingActivation := true, activationAttemptId := Some(a.attemptId));
        if a.startError.None? then Run(attempting, [AttemptSucceeded], 1)
        else
          var e := a.startError.value;
          var failed := attempting.(isAttemptingActivation := false);
          if !Retries(e) then Run(failed.(status := Disconnected), [AttemptFailed(StartingFailed(e))], 1)
          else if a.loadError.Some? then Run(failed.(status := Disconnected), [AttemptFailed(LoadingFailed(a.loadError.value))], 1)
          else Shift(Activate(failed.(providerEnabled := a.enabledAfterLoad), count + 1, Some(e), answer), 1)
  }

  /** The reports that end an activation by giving up on the tunnel. */
  predicate GaveUp(reports: seq<Report>) {
    |reports| == 1 && reports[0].AttemptFailed?
    && (reports[0].error.StartingFailed? || reports[0].error.LoadingFailed?)
  }

  /** The report that ends an activation at the retry bound. */
  predicate ReachedRetryLimit(reports: seq<Report>) {
    |reports| == 1 && reports[0].AttemptFailed? && reports[0].error.RetryLimitReached?
  }

  /** At the bound nothing is attempted and nothing changes; the retry limit
      is reported only when there is a last error to report. */
  lemma ActivationAtBound(s: ContainerState, count: nat, lastError: Option<SystemError>, answer: nat -> Attempt)
    requires count >= MaxRecursionCount()
    ensures Activate(s, count, lastError, answer).state == s
    ensures Activate(s, count, lastError, answer).attempts == 0
    ensures lastError.None? ==> Activate(s, count, lastError, answer).reports == []
    ensures lastError.Some? ==> Activate(s, count, lastError, answer).reports == [AttemptFailed(RetryLimitReached(lastError.value))]
  {
  }

  /** Below the bound: at least one and at most `8 - count` attempts and
      exactly one report. */
  lemma {:induction false} ActivationAttempts(s: ContainerState, count: nat, lastError: Option<SystemError>, answer: nat -> Attempt)
    requires count < MaxRecursionCount()
    ensures 1 <= Activate(s, count, lastError, answer).attempts <= MaxRecursionCount() - count
    ensures |Activate(s, count, lastError, answer).reports| == 1
    decreases MaxRecursionCount() - count
  {
    var a := answer(count);
    var connecting := s.(status := Connecting);
    if !s.providerEnabled {
      var enabled := connecting.(providerEnabled := true);
      if a.saveError.None? {
        var next := Some(VPNError(ConfigurationUnknown));
        if count + 1 < MaxRecursionCount() {
          ActivationAttempts(enabled, count + 1, next, answer);
        } else {
          ActivationAtBound(enabled, count + 1, next, answer);
        }
      }
    } else {
      var attempting := connecting.(isAttemptingActivation := true, activationAttemptId := Some(a.attemptId));
      if a.startError.Some? && Retries(a.startError.value) && a.loadError.None? {
        var failed := attempting.(isAttemptingActivation := false, providerEnabled := a.enabledAfterLoad);
        if count + 1 < MaxRecursionCount() {
          ActivationAttempts(failed, count + 1, a.startError, answer);
        } else {
          ActivationAtBound(failed, count + 1, a.startError, answer);
        }
      }
    }
  }

  /** The retry limit is reached only after every remaining attempt was
      made. */
  lemma {:induction false} ActivationRetryLimit(s: ContainerState, count: nat, lastError: Option<SystemError>, answer: nat -> Attempt)
    requires count < MaxRecursionCount()
    ensures ReachedRetryLimit(Activate(s, count, lastError, answer).reports) ==>
      Activate(s, count, lastError, answer).attempts == MaxRecursionCount() - count
    decreases MaxRecursionCount() - count
  {
    var a := answer(count);
    var connecting := s.(status := Connecting);
    if !s.providerEnabled {
      var enabled := connecting.(providerEnabled := true);
      if a.saveError.None? {
        var next := Some(VPNError(ConfigurationUnknown));
        if count + 1 < MaxRecursionCount() {
          ActivationRetryLimit(enabled, count + 1, next, answer);
        } else {
          ActivationAtBound(enabled, count + 1, next, answer);
        }
      }
    } else {
      var attempting := connecting.(isAttemptingActivation := true, activationAttemptId := Some(a.attemptId));
      if a.startError.Some? && Retries(a.startError.value) && a.loadError.None? {
        var failed := attempting.(isAttemptingActivation := false, providerEnabled := a.enabledAfterLoad);
        if count + 1 < MaxRecursionCount() {
          ActivationRetryLimit(failed, count + 1, a.startError, answer);
        } else {
          ActivationAtBound(failed, count + 1, a.startError, answer);
        }
      }
    }
  }

  /** Below the bound the tunnel ends `connecting` or `disconnected`;
      `disconnected` exactly when starting or reloading failed; a success
      leaves the tunnel attempting activation. */
  lemma {:induction false} ActivationEnds(s: ContainerState, count: nat, lastError: Option<SystemError>, answer: nat -> Attempt)
    requires count < MaxRecursionCount()
    ensures Activate(s, count, lastError, answer).state.status in {TunnelStatus.Connecting, TunnelStatus.Disconnected}
    ensures Activate(s, count, lastError, answer).state.status == TunnelStatus.Disconnected <==> GaveUp(Activate(s, count, lastError, answer).reports)
    ensures Activate(s, count, lastError, answer).reports == [AttemptSucceeded] ==>
      Activate(s, count, lastError, answer).state.isAttemptingActivation
    decreases MaxRecursionCount() - count
  {
    var a := answer(count);
    var connecting := s.(status := Connecting);
    if !s.providerEnabled {
      var enabled := connecting.(providerEnabled := true);
      if a.saveError.None? {
        var next := Some(VPNError(ConfigurationUnknown));
        if count + 1 < MaxRecursionCount() {
          ActivationEnds(enabled, count + 1, next, answer);
        } else {
          ActivationAtBound(enabled, count + 1, next, answer);
        }
      }
    } else {
      var attempting := connecting.(isAttemptingActivation := true, activationAttemptId := Some(a.attemptId));
      if a.startError.Some? && Retries(a.startError.value) && a.loadError.None? {
        var failed := attempting.(isAttemptingActivation := false, providerEnabled := a.enabledAfterLoad);
        if count + 1 < MaxRecursionCount() {
          ActivationEnds(failed, count + 1, a.startError, answer);
        } else {
          ActivationAtBound(failed, count + 1, a.startError, answer);
        }
      }
    }
  }

  /** `TunnelContainer`. The activation timer that polls the status every
      five seconds is not modelled. */
  class TunnelContainer {
    var name: string
    var status: TunnelStatus
    var isActivateOnDemandEnabled: bool
    var isAttemptingActivation: bool
    var activationAttemptId: Option<string>
    var tunnelProvider: ProviderManager

    /** `init(tunnel:)`. */
    constructor (tunnel: ProviderManager)
      ensures name == tunnel.localizedDescription.GetOr("Unnamed")
      ensures status == FromVPNStatus(tunnel.connectionStatus)
      ensures isActivateOnDemandEnabled == tunnel.isOnDemandEnabled
      ensures tunnelProvider == tunnel && !isAttemptingActivation && activationAttemptId.None?
    {
      name := tunnel.localizedDescription.GetOr("Unnamed");
      status := FromVPNStatus(tunnel.connectionStatus);
      isActivateOnDemandEnabled := tunnel.isOnDemandEnabled;
      isAttemptingActivation := false;
      activationAttemptId := None;
      tunnelProvider := tunnel;
    }

    function State(): ContainerState
      reads this, tunnelProvider
    {
      ContainerState(status, isActivateOnDemandEnabled, isAttemptingActivation, activationAttemptId,
        tunnelProvider.isEnabled, tunnelProvider.stopRequests)
    }

    /** `refreshStatus()`: a restarting tunnel is left alone; otherwise the
        status follows the system's and so does the on-demand flag. */
    method RefreshStatus()
      modifies this`status, this`isActivateOnDemandEnabled
      ensures old(status) == Restarting ==> status == Restarting && isActivateOnDemandEnabled == old(isActivateOnDemandEnabled)
      ensures old(status) != Restarting ==>
        status == FromVPNStatus(tunnelProvider.connectionStatus)
        && isActivateOnDemandEnabled == tunnelProvider.isOnDemandEnabled
    {
      if status == Restarting {
        return;
      }
      status := FromVPNStatus(tunnelProvider.connectionStatus);
      isActivateOnDemandEnabled := tunnelProvider.isOnDemandEnabled;
    }

    /** `startActivation(recursionCount:lastError:statusDelegate:)`: the
        recursion through the completions of `saveToPreferences` and
        `loadFromPreferences` becomes a loop over the attempt count. The
        reports are what the status delegate receives. */
    method StartActivation(recursionCount: nat, lastError: Option<SystemError>, answer: nat -> Attempt)
      returns (reports: seq<Report>, attempts: nat)
      modifies this`status, this`isAttemptingActivation, this`activationAttemptId, tunnelProvider`isEnabled
      ensures Run(State(), reports, attempts) == Activate(old(State()), recursionCount, lastError, answer)
    {
      ghost var target := Activate(State(), recursionCount, lastError, answer);
      var count, lastErr := recursionCount, lastError;
      attempts := 0;
      while count < MaxRecursionCount()
        invariant Activate(State(), count, lastErr, answer).state == target.state
        invariant Activate(State(), count, lastErr, answer).reports == target.reports
        invariant attempts + Activate(State(), count, lastErr, answer).attempts == target.attempts
        decreases MaxRecursionCount() - count
      {
        var done, rs, nextErr := AttemptActivation(count, lastErr, answer);
        attempts := attempts + 1;
        if done {
          reports := rs;
          return;
        }
        count, lastErr := count + 1, nextErr;
      }
      ActivationAtBound(State(), count, lastErr, answer);
      reports := if lastErr.Some? then [AttemptFailed(RetryLimitReached(lastErr.value))] else [];
    }

    /** One attempt: re-enabling and saving a disabled profile, or starting
        the tunnel and, on a retryable error, reloading the profile. `done`
        when the attempt ends the activation with `reports`; otherwise the
        activation goes on with the next attempt and `nextErr`. */
    method AttemptActivation(count: nat, lastError: Option<SystemError>, answer: nat -> Attempt)
      returns (done: bool, reports: seq<Report>, nextErr: Option<SystemError>)
      requires count < MaxRecursionCount()
      modifies this`status, this`isAttemptingActivation, this`activationAttemptId, tunnelProvider`isEnabled
      ensures done ==> Activate(old(State()), count, lastError, answer) == Run(State(), reports, 1)
      ensures !done ==> Activate(old(State()), count, lastError, answer) == Shift(Activate(State(), count + 1, nextErr, answer), 1)
    {
      var a := answer(count);
      status := Connecting;
      if !tunnelProvider.isEnabled {
        tunnelProvider.isEnabled := true;
        if a.saveError.Some? {
          return true, [AttemptFailed(SavingFailed(a.saveError.value))], None;
        }
        return false, [], Some(VPNError(ConfigurationUnknown));
      }
      isAttemptingActivation := true;
      activationAttemptId := Some(a.attemptId);
      if a.startError.None? {
        return true, [AttemptSucceeded], None;
      }
      var e := a.startError.value;
      isAttemptingActivation := false;
      if !Retries(e) {
        status := Disconnected;
        return true, [AttemptFailed(StartingFailed(e))], None;
      }
      if a.loadError.Some? {
        status := Disconnected;
        return true, [AttemptFailed(LoadingFailed(a.loadError.value))], None;
      }
      tunnelProvider.isEnabled := a.enabledAfterLoad;
      return false, [], Some(e);
    }

    /** `startDeactivation(statusDelegate:)`: asks the session to stop, sets
        `disconnected` and reports the deactivation. */
    method StartDeactivation() returns (reports: seq<Report>)
      modifies this`status, tunnelProvider`stopRequests
      ensures reports == [DeactivationSucceeded]
      ensures State() == old(State()).(status := Disconnected, stopRequests := old(tunnelProvider.stopRequests) + 1)
    {
      tunnelProvider.stopRequests := tunnelProvider.stopRequests + 1;
      status := Disconnected;
      reports := [DeactivationSucceeded];
    }
  }
}
