/** The tunnel registry: the list of tunnels, sorted by name, and the
    operations that add, change, activate, deactivate, remove and reload
    them (Tunnel/Service/TunnelsService.swift). */
module TunnelsServices {
  import opened Wrappers
  import opened TunnelStatuses
  import V = VPNStatuses
  import opened TunnelErrors
  import opened WireGuardKit
  import opened TunnelProviders
  import opened TunnelContainers
  import opened NameOrder

  // ---------------------------------------------------------------- arbitration

  /** `firstIndex(where: { $0 == s })` over the statuses. */
  function FirstIndexOf(ss: seq<TunnelStatus>, s: TunnelStatus): (r: Option<nat>)
    ensures r.Some? ==> r.value < |ss| && ss[r.value] == s && forall j :: 0 <= j < r.value ==> ss[j] != s
    ensures r.None? ==> forall j :: 0 <= j < |ss| ==> ss[j] != s
  {
    if ss == [] then None
    else if ss[0] == s then Some(0)
    else match FirstIndexOf(ss[1..], s)
      case None => None
      case Some(i) => Some(i + 1)
  }

  /** `firstIndex(where: { $0 != s })` over the statuses. */
  function FirstIndexNotOf(ss: seq<TunnelStatus>, s: TunnelStatus): (r: Option<nat>)
    ensures r.Some? ==> r.value < |ss| && ss[r.value] != s && forall j :: 0 <= j < r.value ==> ss[j] == s
    ensures r.None? ==> forall j :: 0 <= j < |ss| ==> ss[j] == s
  {
    if ss == [] then None
    else if ss[0] != s then Some(0)
    else match FirstIndexNotOf(ss[1..], s)
      case None => None
      case Some(i) => Some(i + 1)
  }

  /** At most one tunnel is waiting for another to go down. */
  predicate AtMostOneWaiting(ss: seq<TunnelStatus>) {
    forall i, j :: 0 <= i < |ss| && 0 <= j < |ss| && ss[i] == Waiting && ss[j] == Waiting ==> i == j
  }

  /** The first waiting tunnel, if any, goes back to `disconnected`. */
  function ResetWaiting(ss: seq<TunnelStatus>): (r: seq<TunnelStatus>)
    ensures |r| == |ss|
    ensures forall i :: 0 <= i < |ss| ==> r[i] == ss[i] || (ss[i] == Waiting && r[i] == Disconnected)
  {
    match FirstIndexOf(ss, Waiting)
    case None => ss
    case Some(w) => ss[w := Disconnected]
  }

  /** What `startActivation(of:)` decides for the tunnel at index `k`. It is
      refused unless it is disconnected. Otherwise, once a waiting tunnel has
      been reset, the first tunnel in operation (`other`) is waited for: when
      it is already disconnecting the tunnel only waits; otherwise `other`
      is deactivated at once, and the observer of its status then activates
      the first waiting tunnel (`next`). With no tunnel in operation the
      tunnel is activated. The statuses are those at the moment of the
      decision, before any activation runs. */
  datatype Arbitration =
    | Refuse
    | Wait(statuses: seq<TunnelStatus>, other: nat)
    | Handover(statuses: seq<TunnelStatus>, other: nat, next: nat)
    | Proceed(statuses: seq<TunnelStatus>)

  function Arbitrate(ss: seq<TunnelStatus>, k: nat): (r: Arbitration)
    requires k < |ss|
    ensures r.Wait? ==> |r.statuses| == |ss| && r.other < |ss|
    ensures r.Handover? ==> |r.statuses| == |ss| && r.other < |ss| && r.next < |ss|
    ensures r.Proceed? ==> |r.statuses| == |ss|
  {
    if ss[k] != Disconnected then Refuse
    else
      var reset := ResetWaiting(ss);
      match FirstIndexNotOf(reset, Disconnected)
      case Some(o) =>
        if reset[o] == Disconnecting then Wait(reset[k := Waiting], o)
        else
          var ns := reset[k := Waiting][o := Disconnected];
          (match FirstIndexOf(ns, Waiting)
           case Some(w) => Handover(ns, o, w)
           case None => assert ns[k] == Waiting; Proceed(reset))
      case None => Proceed(reset)
  }

  /** A tunnel that is not disconnected is refused. Otherwise it activates
      only when every other tunnel is disconnected or waiting; it waits when
      the first tunnel in operation is disconnecting; and when that tunnel
      is in any other operation, it is deactivated and a waiting tunnel
      activated in its place. A list with at most one waiting tunnel keeps
      at most one, and the tunnel activated in a handover is then the
      requested one. */
  lemma ArbitrationOutcome(ss: seq<TunnelStatus>, k: nat)
    requires k < |ss|
    ensures Arbitrate(ss, k).Refuse? <==> ss[k] != Disconnected
    ensures Arbitrate(ss, k).Proceed? ==>
      (forall i :: 0 <= i < |ss| ==> Arbitrate(ss, k).statuses[i] == Disconnected)
      && (forall i :: 0 <= i < |ss| && ss[i] != Waiting ==> ss[i] == Disconnected)
    ensures Arbitrate(ss, k).Wait? ==>
      var ns, o := Arbitrate(ss, k).statuses, Arbitrate(ss, k).other;
      o != k && ss[o] == Disconnecting && ns[k] == Waiting && ns[o] == Disconnecting
      && (forall i :: 0 <= i < o ==> ss[i] == Disconnected || ss[i] == Waiting)
      && (forall i :: 0 <= i < |ss| && i != k && ss[i] != Waiting ==> ns[i] == ss[i])
    ensures Arbitrate(ss, k).Handover? ==>
      var ns, o, w := Arbitrate(ss, k).statuses, Arbitrate(ss, k).other, Arbitrate(ss, k).next;
      o != k && ss[o] != Disconnected && ss[o] != Disconnecting
      && ns[o] == Disconnected && ns[k] == Waiting && ns[w] == Waiting
      && (forall i :: 0 <= i < o ==> ss[i] == Disconnected || ss[i] == Waiting)
      && (forall i :: 0 <= i < |ss| && i != k && i != o && ss[i] != Waiting ==> ns[i] == ss[i])
    ensures Arbitrate(ss, k).Wait? && AtMostOneWaiting(ss) ==>
      forall i :: 0 <= i < |ss| && Arbitrate(ss, k).statuses[i] == Waiting ==> i == k
    ensures Arbitrate(ss, k).Handover? && AtMostOneWaiting(ss) ==>
      Arbitrate(ss, k).next == k
      && forall i :: 0 <= i < |ss| && Arbitrate(ss, k).statuses[i] == Waiting ==> i == k
  {
    if ss[k] == Disconnected {
      var reset := ResetWaiting(ss);
      assert AtMostOneWaiting(ss) ==> forall i :: 0 <= i < |ss| ==> reset[i] != Waiting;
      assert reset[k] == Disconnected;
      match FirstIndexNotOf(reset, Disconnected)
      case Some(o) =>
        if reset[o] != Disconnecting {
          var ns := reset[k := Waiting][o := Disconnected];
          assert ns[k] == Waiting;
        }
      case None =>
    }
  }

  /** `Arbitrate` when no tunnel is in operation once the waiting one is
      reset. */
  lemma ArbitrateProceeds(ss: seq<TunnelStatus>, k: nat)
    requires k < |ss| && ss[k] == Disconnected
    requires FirstIndexNotOf(ResetWaiting(ss), Disconnected).None?
    ensures Arbitrate(ss, k) == Proceed(ResetWaiting(ss))
  {
  }

  /** `Arbitrate` when the first tunnel in operation is disconnecting. */
  lemma ArbitrateWaits(ss: seq<TunnelStatus>, k: nat, o: nat)
    requires k < |ss| && ss[k] == Disconnected
    requires FirstIndexNotOf(ResetWaiting(ss), Disconnected) == Some(o)
    requires ResetWaiting(ss)[o] == Disconnecting
    ensures Arbitrate(ss, k) == Wait(ResetWaiting(ss)[k := Waiting], o)
  {
  }

  /** `Arbitrate` when the first tunnel in operation is deactivated. */
  lemma ArbitrateHandsOver(ss: seq<TunnelStatus>, k: nat, o: nat)
    requires k < |ss| && ss[k] == Disconnected
    requires FirstIndexNotOf(ResetWaiting(ss), Disconnected) == Some(o)
    requires ResetWaiting(ss)[o] != Disconnecting
    ensures
      var ns := ResetWaiting(ss)[k := Waiting][o := Disconnected];
      FirstIndexOf(ns, Waiting).Some?
      && Arbitrate(ss, k) == Handover(ns, o, FirstIndexOf(ns, Waiting).value)
  {
    assert ResetWaiting(ss)[k] == Disconnected;
    var ns := ResetWaiting(ss)[k := Waiting][o := Disconnected];
    assert ns[k] == Waiting;
  }

  // ---------------------------------------------------------------- sorting

  /** The containers at `i` and `j` are different objects. */
  predicate DifferentAt(ts: seq<TunnelContainer>, i: int, j: int)
    requires 0 <= i < |ts| && 0 <= j < |ts|
  {
    ts[i] != ts[j]
  }

  /** No container appears twice in the list. */
  predicate Distinct(ts: seq<TunnelContainer>) {
    forall i, j :: 0 <= i < j < |ts| ==> DifferentAt(ts, i, j)
  }

  /** No tunnel's name is less than that of a tunnel before it. */
  ghost predicate SortedByName(ts: seq<TunnelContainer>)
    reads (set t | t in ts)`name
  {
    forall i, j :: 0 <= i < j < |ts| ==> !NameIsLess(ts[j].name, ts[i].name)
  }

  /** In a sorted list, every tunnel from the first one whose name is
      above `t`'s on is not below `t`. */
  lemma SortedTailAbove(ts: seq<TunnelContainer>, t: TunnelContainer, p: nat)
    requires SortedByName(ts) && p <= |ts|
    requires p < |ts| ==> NameIsLess(t.name, ts[p].name)
    ensures forall j :: p <= j < |ts| ==> !NameIsLess(ts[j].name, t.name)
  {
    forall j | p <= j < |ts|
      ensures NameIsLess(t.name, ts[j].name)
    {
      NameIsLessNegativelyTransitive(t.name, ts[j].name, ts[p].name);
    }
    forall j | p <= j < |ts|
      ensures !NameIsLess(ts[j].name, t.name)
    {
      NameIsLessAsymmetric(t.name, ts[j].name);
    }
  }

  /** Putting `t` at `p`, after every tunnel whose name it is not less
      than and before the first whose name is above it, keeps the list
      sorted. */
  lemma InsertedAt(ts: seq<TunnelContainer>, t: TunnelContainer, p: nat)
    requires SortedByName(ts) && p <= |ts|
    requires forall i :: 0 <= i < p ==> !NameIsLess(t.name, ts[i].name)
    requires p < |ts| ==> NameIsLess(t.name, ts[p].name)
    ensures SortedByName(ts[..p] + [t] + ts[p..])
  {
    SortedTailAbove(ts, t, p);
    var r := ts[..p] + [t] + ts[p..];
    forall i, j | 0 <= i < j < |r|
      ensures !NameIsLess(r[j].name, r[i].name)
    {
      if j < p {
        assert r[i] == ts[i] && r[j] == ts[j];
      } else if j == p {
        assert r[i] == ts[i] && r[j] == t;
      } else if i < p {
        assert r[i] == ts[i] && r[j] == ts[j - 1];
      } else if i == p {
        assert r[i] == t && r[j] == ts[j - 1];
      } else {
        assert r[i] == ts[i - 1] && r[j] == ts[j - 1];
      }
    }
  }

  /** Putting `t` anywhere adds exactly `t`, and keeps a list without it
      free of repeats. */
  lemma InsertedContents(ts: seq<TunnelContainer>, t: TunnelContainer, p: nat)
    requires p <= |ts|
    ensures multiset(ts[..p] + [t] + ts[p..]) == multiset(ts) + multiset{t}
    ensures Distinct(ts) && t !in ts ==> Distinct(ts[..p] + [t] + ts[p..])
  {
    var r := ts[..p] + [t] + ts[p..];
    assert ts == ts[..p] + ts[p..];
    if Distinct(ts) && t !in ts {
      forall i, j | 0 <= i < j < |r|
        ensures DifferentAt(r, i, j)
      {
        if i != p && j != p {
          var a, b := if i < p then i else i - 1, if j < p then j else j - 1;
          assert r[i] == ts[a] && r[j] == ts[b] && DifferentAt(ts, a, b);
        }
      }
    }
  }

  /** Inserts `t` after every tunnel whose name it is not less than. */
  method InsertByName(ts: seq<TunnelContainer>, t: TunnelContainer) returns (r: seq<TunnelContainer>)
    requires SortedByName(ts)
    ensures SortedByName(r) && multiset(r) == multiset(ts) + multiset{t}
    ensures Distinct(ts) && t !in ts ==> Distinct(r)
  {
    var p := 0;
    while p < |ts| && !NameIsLess(t.name, ts[p].name)
      invariant p <= |ts|
      invariant forall i :: 0 <= i < p ==> !NameIsLess(t.name, ts[i].name)
    {
      p := p + 1;
    }
    InsertedAt(ts, t, p);
    InsertedContents(ts, t, p);
    r := ts[..p] + [t] + ts[p..];
  }

  /** `sort { nameIsLess(lhs: $0.name, than: $1.name) }`: a permutation of
      the tunnels in which no name is less than an earlier one. The order
      of tunnels with equivalent names is not specified. */
  method SortByName(ts: seq<TunnelContainer>) returns (r: seq<TunnelContainer>)
    ensures SortedByName(r) && multiset(r) == multiset(ts)
    ensures Distinct(ts) ==> Distinct(r)
  {
    r := [];
    for i := 0 to |ts|
      invariant SortedByName(r) && multiset(r) == multiset(ts[..i])
      invariant Distinct(ts) ==> Distinct(r)
    {
      if Distinct(ts) {
        forall j | 0 <= j < i
          ensures ts[j] != ts[i]
        {
          assert DifferentAt(ts, j, i);
        }
        assert ts[i] !in ts[..i];
        assert ts[i] !in multiset(r);
      }
      r := InsertByName(r, ts[i]);
      assert ts[..i + 1] == ts[..i] + [ts[i]];
    }
    assert ts[..|ts|] == ts;
  }

  /** The list with the first occurrence of `t` taken out (`firstIndex(of:)`
      followed by `remove(at:)`), or the list itself when `t` is not in it. */
  function Without(ts: seq<TunnelContainer>, t: TunnelContainer): seq<TunnelContainer> {
    if t in ts then ts[..IndexOf(ts, t)] + ts[IndexOf(ts, t) + 1..] else ts
  }

  /** Taking the tunnel at `k` out of a list keeps the order of the others,
      so the list stays free of repeats, its profiles stay distinct and it
      stays sorted. */
  lemma RemovedAt(ts: seq<TunnelContainer>, k: nat)
    requires k < |ts|
    ensures Distinct(ts) ==> Distinct(ts[..k] + ts[k + 1..])
    ensures ProvidersDistinct(ts) ==> ProvidersDistinct(ts[..k] + ts[k + 1..])
    ensures SortedByName(ts) ==> SortedByName(ts[..k] + ts[k + 1..])
  {
    var r := ts[..k] + ts[k + 1..];
    forall i | 0 <= i < |r|
      ensures r[i] == ts[if i < k then i else i + 1]
    {
    }
    if Distinct(ts) {
      forall i, j | 0 <= i < j < |r|
        ensures DifferentAt(r, i, j)
      {
        assert DifferentAt(ts, if i < k then i else i + 1, if j < k then j else j + 1);
      }
    }
    if ProvidersDistinct(ts) {
      forall i, j | 0 <= i < j < |r|
        ensures ProvidersDifferAt(r, i, j)
      {
        assert ProvidersDifferAt(ts, if i < k then i else i + 1, if j < k then j else j + 1);
      }
    }
  }

  /** Removing a tunnel keeps a list free of repeats, with distinct profiles
      and sorted. */
  lemma WithoutKeeps(ts: seq<TunnelContainer>, t: TunnelContainer)
    ensures Distinct(ts) ==> Distinct(Without(ts, t))
    ensures ProvidersDistinct(ts) ==> ProvidersDistinct(Without(ts, t))
    ensures SortedByName(ts) ==> SortedByName(Without(ts, t))
  {
    if t in ts {
      var k := IndexOf(ts, t);
      RemovedAt(ts, k);
      assert Without(ts, t) == ts[..k] + ts[k + 1..];
    }
  }

  /** Removing `t` takes out exactly one `t` if there is one, and leaves no
      `t` behind in a list without repeats. */
  lemma WithoutContents(ts: seq<TunnelContainer>, t: TunnelContainer)
    ensures multiset(Without(ts, t)) == multiset(ts) - multiset{t}
    ensures Distinct(ts) ==> t !in Without(ts, t)
    ensures |Without(ts, t)| == if t in ts then |ts| - 1 else |ts|
  {
    if t !in ts {
      assert t !in multiset(ts);
      return;
    }
    var k := IndexOf(ts, t);
    var r := ts[..k] + ts[k + 1..];
    assert Without(ts, t) == r;
    assert ts == ts[..k] + [t] + ts[k + 1..];
    assert multiset(ts) == multiset(ts[..k]) + multiset{t} + multiset(ts[k + 1..]);
    if Distinct(ts) {
      forall i | 0 <= i < |r|
        ensures r[i] != t
      {
        var j := if i < k then i else i + 1;
        assert r[i] == ts[j];
        if j < k { assert DifferentAt(ts, j, k); } else { assert DifferentAt(ts, k, j); }
      }
    }
  }

  // ---------------------------------------------------------------- status notifications

  /** `refreshStatus()` on the part of a container it touches, given the
      system's status and on-demand flag for its profile. */
  function Refreshed(s: ContainerState, system: V.VPNStatus, onDemand: bool): ContainerState {
    if s.status == Restarting then s
    else s.(status := FromVPNStatus(system), isActivateOnDemandEnabled := onDemand)
  }

  /** The `NEVPNStatusDidChange` handler for one tunnel whose profile now
      reports `system`: it closes a pending activation attempt, reports an
      invalidated profile as deactivated, then either refreshes the status
      or, for a restarting tunnel, activates it again once the old session
      is down and reports success once the new one is up. */
  function OnStatusChange(s: ContainerState, system: V.VPNStatus, onDemand: bool, answer: nat -> Attempt): Run
  {
    var first :=
      if !s.isAttemptingActivation then Run(s, [], 0)
      else if system == V.Disconnected then
        Run(s.(isAttemptingActivation := false), [ActivationFailed(ActivationAttemptFailed(onDemand))], 0)
      else if system == V.Connected then Run(s.(isAttemptingActivation := false), [ActivationSucceeded], 0)
      else Run(Refreshed(s, system, onDemand), [], 0);
    var second :=
      if system == V.Invalid then
        Run(first.state.(isAttemptingActivation := false), first.reports + [DeactivationSucceeded], 0)
      else first;
    var t := second.state;
    if t.status != Restarting then Run(Refreshed(t, system, onDemand), second.reports, 0)
    else if system == V.Disconnected then
      var run := Activate(t, 0, None, answer);
      Run(run.state, second.reports + run.reports, run.attempts)
    else if system == V.Connected then Run(t.(status := Connected), second.reports + [ActivationSucceeded], 0)
    else second
  }

  /** After a notification no tunnel is left waiting. A tunnel that was not
      restarting takes the system's status; a restarting one stays so only
      while its session is neither up nor down, is reactivated (ending
      `connecting` or `disconnected`) when it went down, and becomes
      `connected` with a success report when it came up. An invalidated
      profile is always reported deactivated and ends any pending attempt. */
  lemma {:induction false} StatusChangeOutcome(s: ContainerState, system: V.VPNStatus, onDemand: bool, answer: nat -> Attempt)
    ensures OnStatusChange(s, system, onDemand, answer).state.status != Waiting
    ensures s.status != Restarting ==>
      OnStatusChange(s, system, onDemand, answer).state.status == FromVPNStatus(system)
      && OnStatusChange(s, system, onDemand, answer).attempts == 0
    ensures OnStatusChange(s, system, onDemand, answer).state.status == Restarting <==>
      s.status == Restarting && system != V.Connected && system != V.Disconnected
    ensures s.status == Restarting && system == V.Disconnected ==>
      OnStatusChange(s, system, onDemand, answer).state.status in {TunnelStatus.Connecting, TunnelStatus.Disconnected}
      && OnStatusChange(s, system, onDemand, answer).attempts >= 1
    ensures s.status == Restarting && system == V.Connected ==>
      OnStatusChange(s, system, onDemand, answer).state.status == Connected
      && ActivationSucceeded in OnStatusChange(s, system, onDemand, answer).reports
    ensures system == V.Invalid ==>
      DeactivationSucceeded in OnStatusChange(s, system, onDemand, answer).reports
      && !OnStatusChange(s, system, onDemand, answer).state.isAttemptingActivation
  {
    if s.status == Restarting && system == V.Disconnected {
      var t := if s.isAttemptingActivation then s.(isAttemptingActivation := false) else s;
      ActivationAttempts(t, 0, None, answer);
      ActivationEnds(t, 0, None, answer);
    }
  }

  /** Activation overwrites the status it starts from, so it does not
      depend on it. */
  lemma ActivateIgnoresStatus(s: ContainerState, status: TunnelStatus, answer: nat -> Attempt)
    ensures Activate(s.(status := status), 0, None, answer) == Activate(s, 0, None, answer)
  {
    assert s.(status := status).(status := Connecting) == s.(status := Connecting);
  }

  // ---------------------------------------------------------------- states

  /** The statuses in a list of container states. */
  function Statuses(sn: seq<ContainerState>): (ss: seq<TunnelStatus>)
    ensures |ss| == |sn| && forall i :: 0 <= i < |sn| ==> ss[i] == sn[i].status
  {
    if sn == [] then [] else [sn[0].status] + Statuses(sn[1..])
  }

  /** The states with their statuses replaced. */
  function WithStatuses(sn: seq<ContainerState>, ss: seq<TunnelStatus>): (r: seq<ContainerState>)
    requires |ss| == |sn|
    ensures |r| == |sn| && forall i :: 0 <= i < |sn| ==> r[i] == sn[i].(status := ss[i])
  {
    if sn == [] then [] else [sn[0].(status := ss[0])] + WithStatuses(sn[1..], ss[1..])
  }

  /** Replacing the statuses by their own values changes nothing, and the
      replaced statuses are the ones read back. */
  lemma WithOwnStatuses(sn: seq<ContainerState>, ss: seq<TunnelStatus>)
    requires |ss| == |sn|
    ensures WithStatuses(sn, Statuses(sn)) == sn
    ensures Statuses(WithStatuses(sn, ss)) == ss
  {
    assert forall i :: 0 <= i < |sn| ==> sn[i].(status := sn[i].status) == sn[i];
  }

  /** Changing one status after the replacement is replacing with the
      changed statuses. */
  lemma WithStatusesUpdate(sn: seq<ContainerState>, ss: seq<TunnelStatus>, k: nat, s: TunnelStatus)
    requires |ss| == |sn| && k < |sn|
    ensures WithStatuses(sn, ss)[k := WithStatuses(sn, ss)[k].(status := s)] == WithStatuses(sn, ss[k := s])
  {
  }

  /** A container's state after `startDeactivation(of:)`: no activation
      attempt pending and, unless it was already disconnected or
      disconnecting, disconnected, with one more request to stop its
      session. */
  function Deactivated(s: ContainerState): ContainerState {
    if s.status == Disconnected || s.status == Disconnecting then s.(isAttemptingActivation := false)
    else s.(isAttemptingActivation := false, status := Disconnected, stopRequests := s.stopRequests + 1)
  }

  /** A deactivation leaves the tunnel disconnected or disconnecting and
      not attempting activation, asks for a stop exactly when the tunnel
      was in operation, and touches nothing else. */
  lemma DeactivatedOutcome(s: ContainerState)
    ensures Deactivated(s).status in {TunnelStatus.Disconnected, TunnelStatus.Disconnecting}
    ensures !Deactivated(s).isAttemptingActivation
    ensures Deactivated(s).stopRequests == s.stopRequests + (if s.status in {TunnelStatus.Disconnected, TunnelStatus.Disconnecting} then 0 else 1)
    ensures Deactivated(s).(status := s.status, isAttemptingActivation := s.isAttemptingActivation, stopRequests := s.stopRequests) == s
    ensures Deactivated(Deactivated(s)) == Deactivated(s)
  {
  }

  /** The states a handover passes through: deactivating the tunnel in
      operation in place is deactivating it in the list whose status for
      it is already `disconnected`, and leaves exactly those statuses. */
  lemma HandoverStates(sn: seq<ContainerState>, ss: seq<TunnelStatus>, o: nat)
    requires |ss| == |sn| && o < |sn|
    requires ss[o] == sn[o].status && ss[o] != Disconnected && ss[o] != Disconnecting
    ensures WithStatuses(sn, ss)[o := Deactivated(WithStatuses(sn, ss)[o])]
      == WithStatuses(sn, ss[o := Disconnected])[o := Deactivated(sn[o])]
    ensures Statuses(WithStatuses(sn, ss[o := Disconnected])[o := Deactivated(sn[o])]) == ss[o := Disconnected]
  {
    assert sn[o].(status := ss[o]) == sn[o];
    var mid := WithStatuses(sn, ss[o := Disconnected])[o := Deactivated(sn[o])];
    assert forall i :: 0 <= i < |sn| ==> Statuses(mid)[i] == ss[o := Disconnected][i];
  }

  // ---------------------------------------------------------------- the tunnel list

  /** One call of the status delegate: the tunnel and what it was told. */
  datatype StatusEvent = StatusEvent(tunnel: TunnelContainer, report: Report)

  /** The delegate calls that tell `t` the given reports, in order. */
  function EventsFor(t: TunnelContainer, reports: seq<Report>): (r: seq<StatusEvent>)
    ensures |r| == |reports| && forall i :: 0 <= i < |r| ==> r[i].tunnel == t && r[i].report == reports[i]
  {
    if reports == [] then [] else [StatusEvent(t, reports[0])] + EventsFor(t, reports[1..])
  }

  /** The tunnels' states, in list order. */
  function StatesOf(ts: seq<TunnelContainer>): (sn: seq<ContainerState>)
    reads set t | t in ts, set t | t in ts :: t.tunnelProvider
    ensures |sn| == |ts| && forall i {:trigger sn[i]} :: 0 <= i < |ts| ==> sn[i] == ts[i].State()
  {
    if ts == [] then [] else [ts[0].State()] + StatesOf(ts[1..])
  }

  /** In a list of distinct tunnels with distinct profiles, a tunnel other
      than the one at `k` is a different object with a different profile. */
  lemma Apart(ts: seq<TunnelContainer>, k: nat)
    requires k < |ts| && Distinct(ts) && ProvidersDistinct(ts)
    ensures forall i :: 0 <= i < |ts| && i != k ==> ts[i] != ts[k] && ts[i].tunnelProvider != ts[k].tunnelProvider
  {
    forall i | 0 <= i < |ts| && i != k
      ensures ts[i] != ts[k] && ts[i].tunnelProvider != ts[k].tunnelProvider
    {
      if i < k {
        assert DifferentAt(ts, i, k) && ProvidersDifferAt(ts, i, k);
      } else {
        assert DifferentAt(ts, k, i) && ProvidersDifferAt(ts, k, i);
      }
    }
  }

  /** The list's states are read one tunnel at a time. */
  lemma StatesAre(ts: seq<TunnelContainer>, sn: seq<ContainerState>)
    requires |sn| == |ts| && forall i :: 0 <= i < |ts| ==> ts[i].State() == sn[i]
    ensures StatesOf(ts) == sn
  {
  }

  /** `firstIndex(of:)`, for a tunnel in the list. */
  function IndexOf(ts: seq<TunnelContainer>, t: TunnelContainer): (k: nat)
    requires t in ts
    ensures k < |ts| && ts[k] == t && forall j :: 0 <= j < k ==> ts[j] != t
  {
    if ts[0] == t then 0 else 1 + IndexOf(ts[1..], t)
  }

  /** In a list without repeats the last tunnel is found at the end. */
  lemma IndexOfLast(ts: seq<TunnelContainer>)
    requires ts != [] && Distinct(ts)
    ensures IndexOf(ts, ts[|ts| - 1]) == |ts| - 1
  {
    var k := IndexOf(ts, ts[|ts| - 1]);
    assert k < |ts| - 1 ==> DifferentAt(ts, k, |ts| - 1);
  }

  /** The first tunnel whose profile is `provider`. */
  function FirstProvidedBy(ts: seq<TunnelContainer>, provider: ProviderManager): (r: Option<nat>)
    reads (set t | t in ts)`tunnelProvider
    ensures r.Some? ==>
      r.value < |ts| && ts[r.value].tunnelProvider == provider
      && forall j :: 0 <= j < r.value ==> ts[j].tunnelProvider != provider
    ensures r.None? ==> forall j :: 0 <= j < |ts| ==> ts[j].tunnelProvider != provider
  {
    if ts == [] then None
    else if ts[0].tunnelProvider == provider then Some(0)
    else match FirstProvidedBy(ts[1..], provider)
      case None => None
      case Some(i) => Some(i + 1)
  }

  /** The first tunnel that is connected or connecting. */
  function FirstActive(ts: seq<TunnelContainer>): (r: Option<TunnelContainer>)
    reads (set t | t in ts)`status
    ensures r.Some? ==> r.value in ts && r.value.status in {TunnelStatus.Connected, TunnelStatus.Connecting}
    ensures r.None? ==> forall t :: t in ts ==> t.status !in {TunnelStatus.Connected, TunnelStatus.Connecting}
  {
    if ts == [] then None
    else if ts[0].status == Connected || ts[0].status == Connecting then Some(ts[0])
    else FirstActive(ts[1..])
  }

  /** The tunnels' profiles, in list order. */
  function ProvidersOf(ts: seq<TunnelContainer>): (r: seq<ProviderManager>)
    reads (set t | t in ts)`tunnelProvider
    ensures |r| == |ts| && forall i :: 0 <= i < |ts| ==> r[i] == ts[i].tunnelProvider
  {
    if ts == [] then [] else [ts[0].tunnelProvider] + ProvidersOf(ts[1..])
  }

  /** Some tunnel in the list already has this name. */
  predicate NameTaken(ts: seq<TunnelContainer>, name: string)
    reads (set t | t in ts)`name
  {
    exists i :: 0 <= i < |ts| && ts[i].name == name
  }

  /** The containers at `i` and `j` have different profiles. */
  predicate ProvidersDifferAt(ts: seq<TunnelContainer>, i: int, j: int)
    requires 0 <= i < |ts| && 0 <= j < |ts|
    reads (set t | t in ts)`tunnelProvider
  {
    ts[i].tunnelProvider != ts[j].tunnelProvider
  }

  /** No two tunnels share a profile. */
  predicate ProvidersDistinct(ts: seq<TunnelContainer>)
    reads (set t | t in ts)`tunnelProvider
  {
    forall i, j :: 0 <= i < j < |ts| ==> ProvidersDifferAt(ts, i, j)
  }

  /** Reordering a list of distinct tunnels with distinct profiles keeps
      the profiles distinct. */
  lemma PermutationKeepsProvidersDistinct(ts: seq<TunnelContainer>, r: seq<TunnelContainer>)
    requires multiset(r) == multiset(ts) && Distinct(r) && ProvidersDistinct(ts)
    ensures ProvidersDistinct(r)
  {
    forall i, j | 0 <= i < j < |r|
      ensures ProvidersDifferAt(r, i, j)
    {
      assert r[i] in multiset(ts) && r[j] in multiset(ts);
      var a :| 0 <= a < |ts| && ts[a] == r[i];
      var b :| 0 <= b < |ts| && ts[b] == r[j];
      assert DifferentAt(r, i, j);
      if a < b {
        assert ProvidersDifferAt(ts, a, b);
      } else {
        assert ProvidersDifferAt(ts, b, a);
      }
    }
  }

  /** Reordering a list of tunnels keeps the set of their profiles. */
  lemma PermutationKeepsProviders(ts: seq<TunnelContainer>, r: seq<TunnelContainer>)
    requires multiset(r) == multiset(ts)
    ensures (set t | t in r :: t.tunnelProvider) == (set t | t in ts :: t.tunnelProvider)
  {
    assert forall t :: t in r <==> t in multiset(ts);
  }

  /** A container as `init(tunnel:)` leaves it: named after its profile
      ("Unnamed" without one), with the profile's status and on-demand
      flag, not attempting activation. */
  ghost predicate NewContainer(t: TunnelContainer)
    reads t, t.tunnelProvider
  {
    t.name == t.tunnelProvider.localizedDescription.GetOr("Unnamed")
    && t.status == FromVPNStatus(t.tunnelProvider.connectionStatus)
    && t.isActivateOnDemandEnabled == t.tunnelProvider.isOnDemandEnabled
    && !t.isAttemptingActivation
  }

  /** The tunnel containers for a list of profiles, in the same order. */
  method ContainersFor(providers: seq<ProviderManager>) returns (cs: seq<TunnelContainer>)
    ensures |cs| == |providers| && Distinct(cs) && ProvidersOf(cs) == providers
    ensures (set t | t in cs :: t.tunnelProvider) == set p | p in providers
    ensures forall i :: 0 <= i < |cs| ==> fresh(cs[i]) && cs[i].tunnelProvider == providers[i] && NewContainer(cs[i])
    ensures forall t :: t in cs ==> fresh(t) && NewContainer(t)
  {
    cs := [];
    for i := 0 to |providers|
      invariant |cs| == i && Distinct(cs)
      invariant forall j :: 0 <= j < i ==> fresh(cs[j]) && cs[j].tunnelProvider == providers[j] && NewContainer(cs[j])
    {
      var c := new TunnelContainer(providers[i]);
      forall a, b | 0 <= a < b <= i
        ensures DifferentAt(cs + [c], a, b)
      {
        if b < i {
          assert DifferentAt(cs, a, b);
        }
      }
      cs := cs + [c];
    }
  }

  /** The containers `init(tunnelProviders:)` starts with: one per
      profile, sorted by name. */
  method SortedContainersFor(providers: seq<ProviderManager>) returns (ts: seq<TunnelContainer>)
    requires forall i, j :: 0 <= i < j < |providers| ==> providers[i] != providers[j]
    ensures Distinct(ts) && ProvidersDistinct(ts) && SortedByName(ts) && |ts| == |providers|
    ensures forall t :: t in ts ==> fresh(t) && NewContainer(t)
    ensures (set t | t in ts :: t.tunnelProvider) == set p | p in providers
  {
    var cs := ContainersFor(providers);
    ts := SortByName(cs);
    forall i, j | 0 <= i < j < |cs|
      ensures cs[i].tunnelProvider != cs[j].tunnelProvider
    {
      assert cs[i].tunnelProvider == providers[i] && cs[j].tunnelProvider == providers[j];
    }
    PermutationKeepsProvidersDistinct(cs, ts);
    PermutationKeepsProviders(cs, ts);
    assert |ts| == |multiset(ts)| == |multiset(cs)| == |cs|;
    forall t | t in ts
      ensures t in cs
    {
      assert t in multiset(cs);
    }
  }

  // ---------------------------------------------------------------- the service

  /** What the delegate hears when a tunnel with this status is
      deactivated: nothing when it is already disconnected or
      disconnecting. */
  function DeactivationReports(status: TunnelStatus): (r: seq<Report>)
    ensures r == [] <==> status in {TunnelStatus.Disconnected, TunnelStatus.Disconnecting}
  {
    if status == Disconnected || status == Disconnecting then [] else [DeactivationSucceeded]
  }

  /** The body of `startDeactivation(of:)` on one tunnel. */
  method Deactivate(tunnel: TunnelContainer) returns (reports: seq<Report>)
    modifies tunnel`isAttemptingActivation, tunnel`status, tunnel.tunnelProvider`stopRequests
    ensures tunnel.State() == Deactivated(old(tunnel.State()))
    ensures reports == DeactivationReports(old(tunnel.status))
  {
    tunnel.isAttemptingActivation := false;
    if tunnel.status == Disconnected || tunnel.status == Disconnecting {
      return [];
    }
    reports := tunnel.StartDeactivation();
  }


  /** What `set(onDemandEnabled:for:)` leaves of a container's state: the
      profile enabled and, once it was saved, the container's on-demand
      flag reloaded from the profile. */
  function OnDemandSet(s: ContainerState, onDemand: bool, saved: bool): ContainerState {
    s.(providerEnabled := true, isActivateOnDemandEnabled := if saved then onDemand else s.isActivateOnDemandEnabled)
  }

  /** `set(onDemandEnabled:for:)` with the errors of saving and reloading
      the profile. A failed save is reported as `addTunnelFailed`; after a
      save the container's flag follows the profile's even when reloading
      fails. */
  method SetOnDemandEnabled(onDemand: bool, tunnel: TunnelContainer, saveError: Option<SystemError>,
                            loadError: Option<SystemError>) returns (r: Result<TunnelContainer, TunnelsServiceError>)
    modifies tunnel.tunnelProvider`isOnDemandEnabled, tunnel.tunnelProvider`isEnabled, tunnel`isActivateOnDemandEnabled
    ensures tunnel.tunnelProvider.isOnDemandEnabled == onDemand
    ensures tunnel.State() == OnDemandSet(old(tunnel.State()), onDemand, saveError.None?)
    ensures saveError.Some? ==> r == Failure(AddTunnelFailed(saveError.value))
    ensures saveError.None? && loadError.Some? ==> r == Failure(LoadTunnelsFailed(loadError.value))
    ensures saveError.None? && loadError.None? ==> r == Success(tunnel)
  {
    var manager := tunnel.tunnelProvider;
    manager.isOnDemandEnabled := onDemand;
    manager.isEnabled := true;
    if saveError.Some? {
      return Failure(AddTunnelFailed(saveError.value));
    }
    tunnel.isActivateOnDemandEnabled := manager.isOnDemandEnabled;
    if loadError.Some? {
      return Failure(LoadTunnelsFailed(loadError.value));
    }
    return Success(tunnel);
  }

  /** The part of `remove(tunnel:)` that happens at once: the keychain item
      of the tunnel's profile is deleted and the tunnel's status refreshed. */
  method DestroyAndRefresh(tunnel: TunnelContainer, keychain: Keychain)
    modifies keychain, tunnel`status, tunnel`isActivateOnDemandEnabled
    ensures
      var p := tunnel.tunnelProvider.protocolConfiguration;
      keychain.items == if p == null || p.passwordReference.None? then old(keychain.items)
                        else old(keychain.items) - {p.passwordReference.value}
    ensures tunnel.State() == Refreshed(old(tunnel.State()), tunnel.tunnelProvider.connectionStatus,
                                       tunnel.tunnelProvider.isOnDemandEnabled)
  {
    var manager := tunnel.tunnelProvider;
    if manager.protocolConfiguration != null {
      manager.protocolConfiguration.DestroyConfigurationReference(keychain);
    }
    tunnel.RefreshStatus();
  }

  /** The part of `modify` before the profile is saved, for a configuration
      named `c.name.value`, where `taken` says whether a listed tunnel has
      that name. The profile is enabled and set to connect on demand; a new
      name that is `taken` is `refused`; otherwise a new name becomes the
      tunnel's, and a configuration other than the one the profile answers
      is stored in it. */
  method EditProfile(tunnel: TunnelContainer, c: TunnelConfiguration, taken: bool, bundleIdentifier: Option<string>,
                     keychain: Keychain, addSucceeds: bool)
    returns (refused: bool, renamed: bool, reconfigured: bool)
    requires c.name.Some? && keychain.Valid()
    modifies tunnel`name, tunnel.tunnelProvider, keychain
    ensures keychain.Valid()
    ensures renamed == (c.name.value != old(tunnel.tunnelProvider.localizedDescription).GetOr(""))
    ensures refused <==> renamed && taken
    ensures reconfigured == (old(tunnel.tunnelProvider.LoadedConfiguration(keychain)) != Some(c))
    ensures tunnel.tunnelProvider.isEnabled && tunnel.tunnelProvider.isOnDemandEnabled
    ensures tunnel.tunnelProvider.connectionStatus == old(tunnel.tunnelProvider.connectionStatus)
    ensures tunnel.tunnelProvider.stopRequests == old(tunnel.tunnelProvider.stopRequests)
    ensures refused ==> tunnel.name == old(tunnel.name) && keychain.items == old(keychain.items)
    ensures !refused ==>
      var m := tunnel.tunnelProvider;
      tunnel.name == (if renamed then c.name.value else old(tunnel.name))
      && m.LoadedConfiguration(keychain) == Some(c)
      && (!reconfigured ==> keychain.items == old(keychain.items) && m.localizedDescription == old(m.localizedDescription))
      && (reconfigured ==> m.localizedDescription == c.name)
  {
    var manager := tunnel.tunnelProvider;
    manager.isOnDemandEnabled := true;
    manager.isEnabled := true;
    var oldName := manager.localizedDescription.GetOr("");
    renamed := c.name.value != oldName;
    reconfigured := manager.LoadedConfiguration(keychain) != Some(c);
    if renamed {
      if taken {
        return true, renamed, reconfigured;
      }
      tunnel.name := c.name.value;
    }
    var current := manager.TunnelConfiguration(keychain);
    if reconfigured {
      manager.SetTunnelConfiguration(c, bundleIdentifier, keychain, addSucceeds);
    }
    manager.isEnabled := true;
    refused := false;
  }

  /** The part of `modify` after the profile is saved: a `reconfigured`
      tunnel that is connected, connecting or reasserting is marked
      restarting and its session asked to stop; the tunnel's on-demand flag
      follows the profile's; the reload decides the result. */
  method FinishModify(tunnel: TunnelContainer, reconfigured: bool, loadError: Option<SystemError>)
    returns (r: Result<TunnelContainer, TunnelsServiceError>)
    modifies tunnel`status, tunnel`isActivateOnDemandEnabled, tunnel.tunnelProvider`stopRequests
    ensures
      var restarted := reconfigured && old(tunnel.status) in {Connected, Connecting, Reasserting};
      tunnel.State() == old(tunnel.State()).(
        status := if restarted then Restarting else old(tunnel.status),
        isActivateOnDemandEnabled := tunnel.tunnelProvider.isOnDemandEnabled,
        stopRequests := old(tunnel.tunnelProvider.stopRequests) + if restarted then 1 else 0)
    ensures r == if loadError.Some? then Failure(LoadTunnelsFailed(loadError.value)) else Success(tunnel)
  {
    var manager := tunnel.tunnelProvider;
    if reconfigured && (tunnel.status == Connected || tunnel.status == Connecting || tunnel.status == Reasserting) {
      tunnel.status := Restarting;
      manager.stopRequests := manager.stopRequests + 1;
    }
    tunnel.isActivateOnDemandEnabled := manager.isOnDemandEnabled;
    if loadError.Some? {
      return Failure(LoadTunnelsFailed(loadError.value));
    }
    return Success(tunnel);
  }

  /** The body of the `NEVPNStatusDidChange` handler on the tunnel the
      notification is about, whose profile's session now reports
      `connectionStatus`. */
  method HandleStatusChange(tunnel: TunnelContainer, answer: nat -> Attempt) returns (reports: seq<Report>, attempts: nat)
    modifies tunnel`status, tunnel`isActivateOnDemandEnabled, tunnel`isAttemptingActivation,
      tunnel`activationAttemptId, tunnel.tunnelProvider`isEnabled
    ensures Run(tunnel.State(), reports, attempts)
      == OnStatusChange(old(tunnel.State()), old(tunnel.tunnelProvider.connectionStatus),
                        old(tunnel.tunnelProvider.isOnDemandEnabled), answer)
  {
    var system := tunnel.tunnelProvider.connectionStatus;
    var onDemand := tunnel.tunnelProvider.isOnDemandEnabled;
    reports, attempts := [], 0;
    if tunnel.isAttemptingActivation {
      if system == V.Disconnected {
        tunnel.isAttemptingActivation := false;
        reports := [ActivationFailed(ActivationAttemptFailed(onDemand))];
      } else if system == V.Connected {
        tunnel.isAttemptingActivation := false;
        reports := [ActivationSucceeded];
      } else {
        tunnel.RefreshStatus();
      }
    }
    if system == V.Invalid {
      tunnel.isAttemptingActivation := false;
      reports := reports + [DeactivationSucceeded];
    }
    if tunnel.status != Restarting {
      tunnel.RefreshStatus();
      return;
    }
    if system == V.Disconnected {
      var rs;
      rs, attempts := tunnel.StartActivation(0, None, answer);
      reports := reports + rs;
    } else if system == V.Connected {
      tunnel.status := Connected;
      reports := reports + [ActivationSucceeded];
    }
  }

  /** The handover `Arbitrate` decides once the tunnel at `k` waits for the
      one at `o`, which is neither disconnected nor disconnecting, in terms
      of the states `before` of the list at that point. */
  lemma HandoverSteps(sn: seq<ContainerState>, k: nat, o: nat, before: seq<ContainerState>)
    returns (ns: seq<TunnelStatus>, w: nat, mid: seq<ContainerState>)
    requires k < |sn| && o < |sn| && sn[k].status == Disconnected
    requires FirstIndexNotOf(ResetWaiting(Statuses(sn)), Disconnected) == Some(o)
    requires ResetWaiting(Statuses(sn))[o] != Disconnecting
    requires before == WithStatuses(sn, ResetWaiting(Statuses(sn))[k := Waiting])
    ensures k != o && before[k].status == Waiting
    ensures before[o].status != Disconnected && before[o].status != Disconnecting
    ensures Arbitrate(Statuses(sn), k) == Handover(ns, o, w)
    ensures mid == WithStatuses(sn, ns)[o := Deactivated(sn[o])]
    ensures mid == before[o := Deactivated(before[o])]
    ensures FirstIndexOf(Statuses(mid), Waiting) == Some(w)
  {
    var marked := ResetWaiting(Statuses(sn))[k := Waiting];
    ArbitrateHandsOver(Statuses(sn), k, o);
    ns := marked[o := Disconnected];
    w := FirstIndexOf(ns, Waiting).value;
    WithOwnStatuses(sn, marked);
    HandoverStates(sn, marked, o);
    mid := WithStatuses(sn, ns)[o := Deactivated(sn[o])];
  }

  /** The same handover, with the list it leaves: the tunnel at `o`
      deactivated, the first waiting tunnel `w` activated. */
  lemma HandoverPlan(ts: seq<TunnelContainer>, sn: seq<ContainerState>, observed: TunnelContainer?, k: nat, o: nat,
                     answer: nat -> Attempt, before: seq<ContainerState>)
    returns (w: nat, mid: seq<ContainerState>)
    requires k < |sn| && o < |sn| && |ts| == |sn| && sn[k].status == Disconnected
    requires FirstIndexNotOf(ResetWaiting(Statuses(sn)), Disconnected) == Some(o)
    requires ResetWaiting(Statuses(sn))[o] != Disconnecting
    requires before == WithStatuses(sn, ResetWaiting(Statuses(sn))[k := Waiting])
    ensures k != o && before[k].status == Waiting
    ensures before[o].status != Disconnected && before[o].status != Disconnecting
    ensures mid == before[o := Deactivated(before[o])]
    ensures FirstIndexOf(Statuses(mid), Waiting) == Some(w) && w < |mid|
    ensures var run := Activate(mid[w], 0, None, answer);
      ActivationOutcome(ts, sn, observed, k, answer)
      == ListOutcome(mid[w := run.state], null, EventsFor(ts[w], run.reports) + [StatusEvent(ts[o], DeactivationSucceeded)])
  {
    var ns;
    ns, w, mid := HandoverSteps(sn, k, o, before);
    var run := Activate(mid[w], 0, None, answer);
    OutcomeOfHandover(ts, sn, observed, k, answer, mid[w := run.state], null,
                      EventsFor(ts[w], run.reports) + [StatusEvent(ts[o], DeactivationSucceeded)], ns, o, w, mid);
  }

  /** What the tunnel list looks like after an operation: the tunnels'
      states, the tunnel observed on behalf of a waiting one, and the calls
      of the status delegate. */
  datatype ListOutcome = ListOutcome(states: seq<ContainerState>, awaited: TunnelContainer?, told: seq<StatusEvent>)

  /** What `startActivation(of:)` does when asked to activate the tunnel at
      index `k` of the list `ts` whose states are `sn` and whose observed
      tunnel is `observed`, as `Arbitrate` decides. In a handover the tunnel
      in operation is deactivated and, its observer firing at once, the first
      waiting tunnel is activated before the deactivation is reported. */
  ghost function ActivationOutcome(ts: seq<TunnelContainer>, sn: seq<ContainerState>, observed: TunnelContainer?,
                                   k: nat, answer: nat -> Attempt): (r: ListOutcome)
    requires k < |ts| && |sn| == |ts|
    ensures |r.states| == |sn|
  {
    match Arbitrate(Statuses(sn), k)
    case Refuse =>
      ListOutcome(sn, observed, [StatusEvent(ts[k], AttemptFailed(Inactive))])
    case Wait(ns, o) =>
      ListOutcome(WithStatuses(sn, ns), ts[o], [])
    case Handover(ns, o, w) =>
      var mid := WithStatuses(sn, ns)[o := Deactivated(sn[o])];
      var run := Activate(mid[w], 0, None, answer);
      ListOutcome(mid[w := run.state], null,
                  EventsFor(ts[w], run.reports) + [StatusEvent(ts[o], DeactivationSucceeded)])
    case Proceed(ns) =>
      var reset := WithStatuses(sn, ns);
      var run := Activate(reset[k], 0, None, answer);
      ListOutcome(reset[k := run.state], observed, EventsFor(ts[k], run.reports))
  }

  /** An activation without a tunnel in operation is what `ActivationOutcome` says. */
  lemma OutcomeOfProceeding(ts: seq<TunnelContainer>, sn: seq<ContainerState>, observed: TunnelContainer?, k: nat,
                            answer: nat -> Attempt, after: seq<ContainerState>, awaited: TunnelContainer?,
                            told: seq<StatusEvent>, ns: seq<TunnelStatus>)
    requires k < |ts| && |sn| == |ts| && Arbitrate(Statuses(sn), k) == Proceed(ns) && awaited == observed
    requires
      var reset := WithStatuses(sn, ns);
      var run := Activate(reset[k], 0, None, answer);
      after == reset[k := run.state] && told == EventsFor(ts[k], run.reports)
    ensures ActivationOutcome(ts, sn, observed, k, answer) == ListOutcome(after, awaited, told)
  {
  }

  /** Waiting for a disconnecting tunnel is what `ActivationOutcome` says. */
  lemma OutcomeOfWaiting(ts: seq<TunnelContainer>, sn: seq<ContainerState>, observed: TunnelContainer?, k: nat,
                         answer: nat -> Attempt, after: seq<ContainerState>, awaited: TunnelContainer?,
                         told: seq<StatusEvent>, ns: seq<TunnelStatus>, o: nat)
    requires k < |ts| && o < |ts| && |sn| == |ts| && Arbitrate(Statuses(sn), k) == Wait(ns, o)
    requires after == WithStatuses(sn, ns) && awaited == ts[o] && told == []
    ensures ActivationOutcome(ts, sn, observed, k, answer) == ListOutcome(after, awaited, told)
  {
  }

  /** The outcome when the tunnel at `k` waits for the disconnecting
      tunnel at `o`, the first in operation once the waiting one is reset. */
  lemma {:induction false} WaitingPlan(ts: seq<TunnelContainer>, sn: seq<ContainerState>, observed: TunnelContainer?, k: nat,
                    answer: nat -> Attempt, o: nat, after: seq<ContainerState>)
    requires k < |ts| && o < |ts| && |sn| == |ts| && sn[k].status == Disconnected
    requires FirstIndexNotOf(ResetWaiting(Statuses(sn)), Disconnected) == Some(o)
    requires after == WithStatuses(sn, ResetWaiting(Statuses(sn))[k := Waiting]) && after[o].status == Disconnecting
    ensures ActivationOutcome(ts, sn, observed, k, answer) == ListOutcome(after, ts[o], [])
  {
    var reset := ResetWaiting(Statuses(sn));
    WithOwnStatuses(sn, reset[k := Waiting]);
    assert reset[o] == Disconnecting;
    ArbitrateWaits(Statuses(sn), k, o);
    OutcomeOfWaiting(ts, sn, observed, k, answer, after, ts[o], [], reset[k := Waiting], o);
  }

  /** The outcome of a handover is what `ActivationOutcome` says. */
  lemma OutcomeOfHandover(ts: seq<TunnelContainer>, sn: seq<ContainerState>, observed: TunnelContainer?, k: nat,
                          answer: nat -> Attempt, after: seq<ContainerState>, awaited: TunnelContainer?,
                          told: seq<StatusEvent>, ns: seq<TunnelStatus>, o: nat, w: nat, mid: seq<ContainerState>)
    requires k < |ts| && |sn| == |ts| && Arbitrate(Statuses(sn), k) == Handover(ns, o, w) && awaited == null
    requires mid == WithStatuses(sn, ns)[o := Deactivated(sn[o])]
    requires after == mid[w := Activate(mid[w], 0, None, answer).state]
    requires told == EventsFor(ts[w], Activate(mid[w], 0, None, answer).reports)
                     + [StatusEvent(ts[o], DeactivationSucceeded)]
    ensures ActivationOutcome(ts, sn, observed, k, answer) == ListOutcome(after, awaited, told)
  {
  }

  /** `startActivation(of:)` keeps at most one tunnel waiting: when the
      requested tunnel is left waiting it is the only one, and when a
      handover activates a waiting tunnel, that is the requested one. */
  lemma {:induction false} ActivationKeepsOneWaiting(ts: seq<TunnelContainer>, sn: seq<ContainerState>,
                                                     observed: TunnelContainer?, k: nat, answer: nat -> Attempt)
    requires k < |ts| && |sn| == |ts| && AtMostOneWaiting(Statuses(sn))
    ensures AtMostOneWaiting(Statuses(ActivationOutcome(ts, sn, observed, k, answer).states))
    ensures Arbitrate(Statuses(sn), k).Handover? ==> Arbitrate(Statuses(sn), k).next == k
    ensures Arbitrate(Statuses(sn), k).Wait? ==> Statuses(ActivationOutcome(ts, sn, observed, k, answer).states)[k] == Waiting
  {
    var ss := Statuses(sn);
    ArbitrationOutcome(ss, k);
    match Arbitrate(ss, k)
    case Refuse =>
      assert ActivationOutcome(ts, sn, observed, k, answer).states == sn;
    case Wait(ns, o) =>
      OneWaitingAfterWait(ts, sn, observed, k, answer, ns, o);
    case Handover(ns, o, w) =>
      OneWaitingAfterHandover(ts, sn, observed, k, answer, ns, o, w);
    case Proceed(ns) =>
      OneWaitingAfterProceeding(ts, sn, observed, k, answer, ns);
  }

  /** `ActivationKeepsOneWaiting` when the tunnel waits. */
  lemma {:induction false} OneWaitingAfterWait(ts: seq<TunnelContainer>, sn: seq<ContainerState>, observed: TunnelContainer?,
                            k: nat, answer: nat -> Attempt, ns: seq<TunnelStatus>, o: nat)
    requires k < |ts| && |sn| == |ts| && AtMostOneWaiting(Statuses(sn))
    requires Arbitrate(Statuses(sn), k) == Wait(ns, o)
    requires ns[k] == Waiting && forall i :: 0 <= i < |sn| && ns[i] == Waiting ==> i == k
    ensures AtMostOneWaiting(Statuses(ActivationOutcome(ts, sn, observed, k, answer).states))
    ensures Statuses(ActivationOutcome(ts, sn, observed, k, answer).states)[k] == Waiting
  {
    var after := ActivationOutcome(ts, sn, observed, k, answer).states;
    assert after == WithStatuses(sn, ns);
    WaitingOnlyAt(after, k);
  }

  /** `ActivationKeepsOneWaiting` in a handover. */
  lemma {:induction false} OneWaitingAfterHandover(ts: seq<TunnelContainer>, sn: seq<ContainerState>, observed: TunnelContainer?,
                                k: nat, answer: nat -> Attempt, ns: seq<TunnelStatus>, o: nat, w: nat)
    requires k < |ts| && |sn| == |ts| && AtMostOneWaiting(Statuses(sn))
    requires Arbitrate(Statuses(sn), k) == Handover(ns, o, w)
    ensures AtMostOneWaiting(Statuses(ActivationOutcome(ts, sn, observed, k, answer).states))
    ensures w == k
  {
    ArbitrationOutcome(Statuses(sn), k);
    var after := ActivationOutcome(ts, sn, observed, k, answer).states;
    var mid := WithStatuses(sn, ns)[o := Deactivated(sn[o])];
    var run := Activate(mid[w], 0, None, answer);
    ActivationEnds(mid[w], 0, None, answer);
    DeactivatedOutcome(sn[o]);
    assert after == mid[w := run.state];
    assert forall i :: 0 <= i < |sn| && i != o ==> mid[i].status == ns[i];
    WaitingOnlyAt(after, k);
  }

  /** `ActivationKeepsOneWaiting` when the tunnel is activated at once. */
  lemma {:induction false} OneWaitingAfterProceeding(ts: seq<TunnelContainer>, sn: seq<ContainerState>, observed: TunnelContainer?,
                                  k: nat, answer: nat -> Attempt, ns: seq<TunnelStatus>)
    requires k < |ts| && |sn| == |ts|
    requires Arbitrate(Statuses(sn), k) == Proceed(ns)
    ensures AtMostOneWaiting(Statuses(ActivationOutcome(ts, sn, observed, k, answer).states))
  {
    ArbitrationOutcome(Statuses(sn), k);
    var after := ActivationOutcome(ts, sn, observed, k, answer).states;
    var reset := WithStatuses(sn, ns);
    ActivationEnds(reset[k], 0, None, answer);
    assert after == reset[k := Activate(reset[k], 0, None, answer).state];
    WaitingOnlyAt(after, k);
  }

  /** States in which only the tunnel at `k` may be waiting have at most one
      waiting tunnel. */
  lemma WaitingOnlyAt(sn: seq<ContainerState>, k: nat)
    requires forall i :: 0 <= i < |sn| && sn[i].status == Waiting ==> i == k
    ensures AtMostOneWaiting(Statuses(sn))
  {
  }

  /** Connected or connecting: the statuses `add` looks for in the tunnel it
      revives. */
  predicate Active(s: TunnelStatus) {
    s == Connected || s == Connecting
  }

  /** Disconnected or disconnecting: the statuses in which `add` activates
      that tunnel again. */
  predicate Dropped(s: TunnelStatus) {
    s == Disconnected || s == Disconnecting
  }

  /** What the save completion of `add` does when the tunnel that was
      active when the profile was saved is listed at `k` of the list `ts`
      whose states are `sn`: it is activated again if it has dropped, and
      then marked restarting if it is connected or connecting. */
  ghost function RevivalOutcome(ts: seq<TunnelContainer>, sn: seq<ContainerState>, observed: TunnelContainer?,
                                k: nat, answer: nat -> Attempt): ListOutcome
    requires k < |ts| && |sn| == |ts|
  {
    var first :=
      if Dropped(sn[k].status) then ActivationOutcome(ts, sn, observed, k, answer)
      else ListOutcome(sn, observed, []);
    if Active(first.states[k].status)
    then first.(states := first.states[k := first.states[k].(status := Restarting)])
    else first
  }

  /** Adding a tunnel never leaves the tunnel that was active connected or
      connecting. One still active is marked restarting and nothing else
      happens; a disconnecting one is refused; a disconnected one ends
      restarting (its activation under way), waiting or disconnected; in
      any other state nothing happens. */
  lemma RevivalLeavesNoneActive(ts: seq<TunnelContainer>, sn: seq<ContainerState>, observed: TunnelContainer?,
                                k: nat, answer: nat -> Attempt)
    requires k < |ts| && |sn| == |ts|
    ensures !Active(RevivalOutcome(ts, sn, observed, k, answer).states[k].status)
    ensures Active(sn[k].status) ==>
      RevivalOutcome(ts, sn, observed, k, answer) == ListOutcome(sn[k := sn[k].(status := Restarting)], observed, [])
    ensures sn[k].status == Disconnecting ==>
      RevivalOutcome(ts, sn, observed, k, answer) == ListOutcome(sn, observed, [StatusEvent(ts[k], AttemptFailed(Inactive))])
    ensures sn[k].status == Disconnected ==>
      RevivalOutcome(ts, sn, observed, k, answer).states[k].status in {Restarting, Waiting, TunnelStatus.Disconnected}
    ensures !Active(sn[k].status) && !Dropped(sn[k].status) ==>
      RevivalOutcome(ts, sn, observed, k, answer) == ListOutcome(sn, observed, [])
  {
    if sn[k].status == Disconnected {
      ActivatedFromDisconnected(ts, sn, observed, k, answer);
    }
  }

  /** Asked to activate a disconnected tunnel, `startActivation(of:)`
      leaves it connecting, waiting or disconnected. */
  lemma ActivatedFromDisconnected(ts: seq<TunnelContainer>, sn: seq<ContainerState>, observed: TunnelContainer?,
                                  k: nat, answer: nat -> Attempt)
    requires k < |ts| && |sn| == |ts| && sn[k].status == Disconnected
    ensures ActivationOutcome(ts, sn, observed, k, answer).states[k].status in {Connecting, Waiting, TunnelStatus.Disconnected}
  {
    var ss := Statuses(sn);
    ArbitrationOutcome(ss, k);
    var after := ActivationOutcome(ts, sn, observed, k, answer).states;
    match Arbitrate(ss, k)
    case Wait(ns, o) =>
      assert after[k] == WithStatuses(sn, ns)[k];
    case Handover(ns, o, w) =>
      var mid := WithStatuses(sn, ns)[o := Deactivated(sn[o])];
      var run := Activate(mid[w], 0, None, answer);
      assert after == mid[w := run.state];
      if w == k {
        ActivationEnds(mid[w], 0, None, answer);
      } else {
        assert after[k] == WithStatuses(sn, ns)[k];
      }
    case Proceed(ns) =>
      var reset := WithStatuses(sn, ns);
      ActivationEnds(reset[k], 0, None, answer);
      assert after[k] == Activate(reset[k], 0, None, answer).state;
  }

  /** The tunnel, if there is one, as a set. */
  function Present(t: TunnelContainer?): set<TunnelContainer> {
    if t == null then {} else {t}
  }

  /** What `add` has prepared when it asks the system to save the new
      profile: the profile, and the first tunnel that was connected or
      connecting at that moment (null if there was none). */
  datatype PendingAdd = PendingAdd(manager: ProviderManager, activeTunnel: TunnelContainer?)

  /** Appending a tunnel that is not listed and whose profile no listed
      tunnel has keeps the list free of repeats and the profiles distinct. */
  lemma AppendedKeeps(ts: seq<TunnelContainer>, t: TunnelContainer)
    requires Distinct(ts) && ProvidersDistinct(ts) && t !in ts
    requires forall u :: u in ts ==> u.tunnelProvider != t.tunnelProvider
    ensures Distinct(ts + [t]) && ProvidersDistinct(ts + [t])
  {
    InsertedContents(ts, t, |ts|);
    assert ts[..|ts|] + [t] + ts[|ts|..] == ts + [t];
    var r := ts + [t];
    forall i, j | 0 <= i < j < |r|
      ensures ProvidersDifferAt(r, i, j)
    {
      if j < |ts| {
        assert ProvidersDifferAt(ts, i, j);
      } else {
        assert r[i] in ts;
      }
    }
  }

  /** What a `NEVPNStatusDidChange` notification for the tunnel at `k`,
      whose session now reports `system`, does to the list `ts` whose
      states are `sn` and whose observed tunnel is `observed`: the handler
      runs on that tunnel, and when it is the observed one and ends
      disconnected, the observation ends and the first waiting tunnel is
      activated. */
  ghost function NotificationOutcome(ts: seq<TunnelContainer>, sn: seq<ContainerState>, observed: TunnelContainer?,
                                     k: nat, system: V.VPNStatus, onDemand: bool, answer: nat -> Attempt): ListOutcome
    requires k < |ts| && |sn| == |ts|
  {
    var run := OnStatusChange(sn[k], system, onDemand, answer);
    var after := sn[k := run.state];
    var told := EventsFor(ts[k], run.reports);
    if observed != ts[k] || run.state.status != Disconnected then ListOutcome(after, observed, told)
    else match FirstIndexOf(Statuses(after), Waiting)
      case None => ListOutcome(after, null, told)
      case Some(w) =>
        var next := Activate(after[w], 0, None, answer);
        ListOutcome(after[w := next.state], null, told + EventsFor(ts[w], next.reports))
  }

  /** A notification never leaves a tunnel waiting that was not waiting
      before, and once the observed tunnel is down, the one tunnel that
      was waiting for it is activated. */
  lemma {:induction false} NotificationKeepsOneWaiting(ts: seq<TunnelContainer>, sn: seq<ContainerState>,
                                                       observed: TunnelContainer?, k: nat, system: V.VPNStatus,
                                                       onDemand: bool, answer: nat -> Attempt)
    requires k < |ts| && |sn| == |ts| && AtMostOneWaiting(Statuses(sn))
    ensures
      var after := NotificationOutcome(ts, sn, observed, k, system, onDemand, answer).states;
      forall i :: 0 <= i < |sn| && Statuses(after)[i] == Waiting ==> i != k && sn[i].status == Waiting
    ensures AtMostOneWaiting(Statuses(NotificationOutcome(ts, sn, observed, k, system, onDemand, answer).states))
    ensures
      var out := NotificationOutcome(ts, sn, observed, k, system, onDemand, answer);
      out.awaited == null && observed != null ==> forall i :: 0 <= i < |sn| ==> Statuses(out.states)[i] != Waiting
  {
    var run := OnStatusChange(sn[k], system, onDemand, answer);
    StatusChangeOutcome(sn[k], system, onDemand, answer);
    var mid := sn[k := run.state];
    ReplacedNotWaiting(sn, k, run.state);
    if observed == ts[k] && run.state.status == Disconnected {
      match FirstIndexOf(Statuses(mid), Waiting)
      case None =>
      case Some(w) =>
        ActivationEnds(mid[w], 0, None, answer);
        ReplacedNotWaiting(mid, w, Activate(mid[w], 0, None, answer).state);
    }
  }

  /** Replacing a state by one that is not waiting leaves waiting only
      tunnels that were waiting before. */
  lemma ReplacedNotWaiting(sn: seq<ContainerState>, k: nat, s: ContainerState)
    requires k < |sn| && s.status != Waiting
    ensures forall i :: 0 <= i < |sn| && Statuses(sn[k := s])[i] == Waiting ==> i != k && Statuses(sn)[i] == Waiting
  {
  }

  /** The handler's outcome followed by what the status observer does is
      what `NotificationOutcome` says. */
  lemma NotifiedOutcome(ts: seq<TunnelContainer>, sn: seq<ContainerState>, observed: TunnelContainer?, k: nat,
                        system: V.VPNStatus, onDemand: bool, answer: nat -> Attempt,
                        mid: seq<ContainerState>, after: seq<ContainerState>, awaited: TunnelContainer?,
                        told: seq<StatusEvent>)
    requires k < |ts| && |sn| == |ts|
    requires
      var run := OnStatusChange(sn[k], system, onDemand, answer);
      mid == sn[k := run.state]
      && (observed != ts[k] ==> after == mid && awaited == observed && told == EventsFor(ts[k], run.reports))
      && (observed == ts[k] && mid[k].status != Disconnected ==>
            after == mid && awaited == observed && told == EventsFor(ts[k], run.reports))
      && (observed == ts[k] && mid[k].status == Disconnected ==> awaited == null)
      && (observed == ts[k] && mid[k].status == Disconnected && FirstIndexOf(Statuses(mid), Waiting).None? ==>
            after == mid && told == EventsFor(ts[k], run.reports))
      && (observed == ts[k] && mid[k].status == Disconnected && FirstIndexOf(Statuses(mid), Waiting).Some? ==>
            var w := FirstIndexOf(Statuses(mid), Waiting).value;
            var next := Activate(mid[w], 0, None, answer);
            after == mid[w := next.state] && told == EventsFor(ts[k], run.reports) + EventsFor(ts[w], next.reports))
    ensures NotificationOutcome(ts, sn, observed, k, system, onDemand, answer) == ListOutcome(after, awaited, told)
  {
  }

  // ---------------------------------------------------------------- reload

  /** What `isEquivalent(to:)` compares: a name and the configuration a
      profile answers. */
  datatype Identity = Identity(name: Option<string>, configuration: Option<TunnelConfiguration>)

  /** The identity of a loaded profile. */
  function ProfileIdentity(p: ProviderManager, keychain: Keychain): Identity
    reads p, p.protocolConfiguration, keychain
  {
    Identity(p.localizedDescription, p.LoadedConfiguration(keychain))
  }

  /** The identity of the container `init(tunnel:)` makes for `p`: an
      unnamed profile gives a tunnel named "Unnamed". */
  function ContainerIdentity(p: ProviderManager, keychain: Keychain): Identity
    reads p, p.protocolConfiguration, keychain
  {
    Identity(Some(p.localizedDescription.GetOr("Unnamed")), p.LoadedConfiguration(keychain))
  }

  /** The identity of a listed tunnel: its name and its profile's
      configuration. */
  function TunnelIdentity(t: TunnelContainer, keychain: Keychain): Identity
    reads t`name, t`tunnelProvider, t.tunnelProvider, t.tunnelProvider.protocolConfiguration, keychain
  {
    Identity(Some(t.name), t.tunnelProvider.LoadedConfiguration(keychain))
  }

  /** A profile is equivalent to a tunnel exactly when both have the same
      identity; the profile is then named, and a container made for it
      would have that identity too. */
  lemma EquivalentIsSameIdentity(p: ProviderManager, t: TunnelContainer, keychain: Keychain)
    ensures IsEquivalent(p, t.name, t.tunnelProvider, keychain)
      <==> ProfileIdentity(p, keychain) == TunnelIdentity(t, keychain)
    ensures IsEquivalent(p, t.name, t.tunnelProvider, keychain)
      ==> ContainerIdentity(p, keychain) == TunnelIdentity(t, keychain)
  {
  }

  /** `loadedTunnelProviders.contains(where: { $0.isEquivalent(to: t) })`. */
  predicate AnyEquivalent(loaded: seq<ProviderManager>, t: TunnelContainer, keychain: Keychain)
    reads set p | p in loaded, set p | p in loaded :: p.protocolConfiguration
    reads t, t.tunnelProvider, t.tunnelProvider.protocolConfiguration, keychain
  {
    exists i :: 0 <= i < |loaded| && IsEquivalent(loaded[i], t.name, t.tunnelProvider, keychain)
  }

  /** The identities the loaded profiles offer. */
  function Offered(loaded: seq<ProviderManager>, keychain: Keychain): set<Identity>
    reads set p | p in loaded, set p | p in loaded :: p.protocolConfiguration, keychain
  {
    set p | p in loaded :: ProfileIdentity(p, keychain)
  }

  /** The identities of the containers made for the loaded profiles. */
  ghost function Listed(loaded: seq<ProviderManager>, keychain: Keychain): set<Identity>
    reads set p | p in loaded, set p | p in loaded :: p.protocolConfiguration, keychain
  {
    set p | p in loaded :: ContainerIdentity(p, keychain)
  }

  /** A tunnel has an equivalent among the loaded profiles exactly when its
      identity is offered. */
  lemma AnyEquivalentIsOffered(loaded: seq<ProviderManager>, t: TunnelContainer, keychain: Keychain)
    ensures AnyEquivalent(loaded, t, keychain) <==> TunnelIdentity(t, keychain) in Offered(loaded, keychain)
  {
    if TunnelIdentity(t, keychain) in Offered(loaded, keychain) {
      var p :| p in loaded && ProfileIdentity(p, keychain) == TunnelIdentity(t, keychain);
      var i :| 0 <= i < |loaded| && loaded[i] == p;
      EquivalentIsSameIdentity(p, t, keychain);
    }
    if AnyEquivalent(loaded, t, keychain) {
      var i :| 0 <= i < |loaded| && IsEquivalent(loaded[i], t.name, t.tunnelProvider, keychain);
      EquivalentIsSameIdentity(loaded[i], t, keychain);
    }
  }

  /** An offered identity is always a named one, so it is also the identity
      of the container made for the profile offering it: every offered
      identity a tunnel can have is listed. */
  lemma OfferedTunnelIsListed(loaded: seq<ProviderManager>, t: TunnelContainer, keychain: Keychain)
    requires TunnelIdentity(t, keychain) in Offered(loaded, keychain)
    ensures TunnelIdentity(t, keychain) in Listed(loaded, keychain)
  {
    var p :| p in loaded && ProfileIdentity(p, keychain) == TunnelIdentity(t, keychain);
    assert ContainerIdentity(p, keychain) == ProfileIdentity(p, keychain);
  }

  /** The identities the listed tunnels have. */
  ghost function IdSet(ts: seq<TunnelContainer>, keychain: Keychain): set<Identity>
    reads (set t | t in ts)`name, (set t | t in ts)`tunnelProvider
    reads set t | t in ts :: t.tunnelProvider, set t | t in ts :: t.tunnelProvider.protocolConfiguration, keychain
  {
    set t | t in ts :: TunnelIdentity(t, keychain)
  }

  /** The configuration each profile answered when the reload asked,
      kept so that the list is reconciled on names and these answers
      alone. Nothing the reload changes alters an answer. */
  type Answers = map<ProviderManager, Option<TunnelConfiguration>>

  /** Every profile in `ans` has its answer kept. */
  ghost predicate Answering(ans: Answers, keychain: Keychain)
    reads ans.Keys, set m | m in ans.Keys :: m.protocolConfiguration, keychain
  {
    forall m :: m in ans ==> ans[m] == m.LoadedConfiguration(keychain)
  }

  /** The answer of each of the profiles `ms`. */
  function AnswersOf(ms: seq<ProviderManager>, keychain: Keychain): (ans: Answers)
    reads set m | m in ms, set m | m in ms :: m.protocolConfiguration, keychain
    ensures ans.Keys == set m | m in ms
    ensures Answering(ans, keychain)
  {
    if ms == [] then map[]
    else AnswersOf(ms[..|ms| - 1], keychain)[ms[|ms| - 1] := ms[|ms| - 1].LoadedConfiguration(keychain)]
  }

  /** Every tunnel of `ts` has its profile's answer kept. */
  predicate Recorded(ts: seq<TunnelContainer>, ans: Answers)
    reads (set t | t in ts)`tunnelProvider
  {
    forall t :: t in ts ==> t.tunnelProvider in ans
  }

  /** The identity of `t` with its profile's kept answer. */
  function KeptIdentity(t: TunnelContainer, ans: Answers): Identity
    requires t.tunnelProvider in ans
    reads t`name, t`tunnelProvider
  {
    Identity(Some(t.name), ans[t.tunnelProvider])
  }

  /** The identity of profile `p` with its kept answer. */
  function KeptProfileIdentity(p: ProviderManager, ans: Answers): Identity
    requires p in ans
    reads p
  {
    Identity(p.localizedDescription, ans[p])
  }

  /** The identity of the container made for `p`, with its kept answer. */
  function KeptContainerIdentity(p: ProviderManager, ans: Answers): Identity
    requires p in ans
    reads p
  {
    Identity(Some(p.localizedDescription.GetOr("Unnamed")), ans[p])
  }

  /** The identities the tunnels have with the kept answers. */
  ghost function KeptIds(ts: seq<TunnelContainer>, ans: Answers): set<Identity>
    requires Recorded(ts, ans)
    reads (set t | t in ts)`name, (set t | t in ts)`tunnelProvider
  {
    set t | t in ts :: KeptIdentity(t, ans)
  }

  /** With the answers kept, the tunnels have the identities kept. */
  lemma KeptIdsAreIds(ts: seq<TunnelContainer>, ans: Answers, keychain: Keychain)
    requires Recorded(ts, ans) && Answering(ans, keychain)
    ensures forall t :: t in ts ==> TunnelIdentity(t, keychain) == KeptIdentity(t, ans)
    ensures IdSet(ts, keychain) == KeptIds(ts, ans)
  {
    assert forall t :: t in ts ==> TunnelIdentity(t, keychain) == KeptIdentity(t, ans);
  }

  /** The identities the loaded profiles offer, with the kept answers. */
  ghost function KeptOffered(loaded: seq<ProviderManager>, ans: Answers): set<Identity>
    requires forall p :: p in loaded ==> p in ans
    reads set p | p in loaded
  {
    set p | p in loaded :: KeptProfileIdentity(p, ans)
  }

  /** The identities of the containers the loaded profiles make, with the
      kept answers. */
  ghost function KeptListed(loaded: seq<ProviderManager>, ans: Answers): set<Identity>
    requires forall p :: p in loaded ==> p in ans
    reads set p | p in loaded
  {
    set p | p in loaded :: KeptContainerIdentity(p, ans)
  }

  /** The identities of the containers the loaded profiles make, with
      the kept answers, in order. */
  ghost function KeptContainerIds(loaded: seq<ProviderManager>, ans: Answers): (r: seq<Identity>)
    requires forall p :: p in loaded ==> p in ans
    reads set p | p in loaded
    ensures |r| == |loaded| && forall i :: 0 <= i < |loaded| ==> r[i] == KeptContainerIdentity(loaded[i], ans)
  {
    if loaded == [] then [] else [KeptContainerIdentity(loaded[0], ans)] + KeptContainerIds(loaded[1..], ans)
  }

  /** Tunnels whose kept identities are offered have identities that the
      containers made for the loaded profiles have too. */
  lemma OfferedAreListed(ts: seq<TunnelContainer>, loaded: seq<ProviderManager>, ans: Answers)
    requires Recorded(ts, ans) && forall p :: p in loaded ==> p in ans
    requires forall t :: t in ts ==> KeptIdentity(t, ans) in KeptOffered(loaded, ans)
    ensures KeptIds(ts, ans) <= KeptListed(loaded, ans)
  {
    forall x | x in KeptIds(ts, ans)
      ensures x in KeptListed(loaded, ans)
    {
      var t :| t in ts && KeptIdentity(t, ans) == x;
      var p :| p in loaded && KeptProfileIdentity(p, ans) == x;
      assert KeptContainerIdentity(p, ans) == x;
    }
  }

  /** Gaining the identity at `j` extends the identities gained up to `j`. */
  lemma GainStep(part: set<Identity>, cids: seq<Identity>, j: nat, before: set<Identity>, after: set<Identity>)
    requires j < |cids| && before == part + (set i | 0 <= i < j :: cids[i]) && after == before + {cids[j]}
    ensures after == part + set i | 0 <= i < j + 1 :: cids[i]
  {
    PrefixStep(cids, j);
  }

  /** The elements before `j + 1` are those before `j` and the one at `j`. */
  lemma PrefixStep<T>(s: seq<T>, j: nat)
    requires j < |s|
    ensures (set i | 0 <= i < j + 1 :: s[i]) == (set i | 0 <= i < j :: s[i]) + {s[j]}
  {
  }

  /** A part of the listed identities joined by all of them in order is
      all of them. */
  lemma ListedAreIds(loaded: seq<ProviderManager>, ans: Answers, part: set<Identity>)
    requires (forall p :: p in loaded ==> p in ans) && part <= KeptListed(loaded, ans)
    ensures part + (set i | 0 <= i < |loaded| :: KeptContainerIds(loaded, ans)[i]) == KeptListed(loaded, ans)
  {
    var cids := KeptContainerIds(loaded, ans);
    forall x | x in KeptListed(loaded, ans)
      ensures x in set i | 0 <= i < |loaded| :: cids[i]
    {
      var p :| p in loaded && KeptContainerIdentity(p, ans) == x;
      var i :| 0 <= i < |loaded| && loaded[i] == p;
      assert cids[i] == x;
    }
  }

  /** With the answers kept, the loaded profiles offer, and make
      containers with, the identities kept. */
  lemma KeptOffers(loaded: seq<ProviderManager>, ans: Answers, keychain: Keychain)
    requires (forall p :: p in loaded ==> p in ans) && Answering(ans, keychain)
    ensures Offered(loaded, keychain) == KeptOffered(loaded, ans)
    ensures Listed(loaded, keychain) == KeptListed(loaded, ans)
  {
    assert forall p :: p in loaded ==> ProfileIdentity(p, keychain) == KeptProfileIdentity(p, ans);
    assert forall p :: p in loaded ==> ContainerIdentity(p, keychain) == KeptContainerIdentity(p, ans);
  }

  /** A list that gains the tunnel `t` gains its identity. */
  lemma KeptIdsGain(ts: seq<TunnelContainer>, r: seq<TunnelContainer>, t: TunnelContainer, ans: Answers)
    requires Recorded(ts, ans) && t.tunnelProvider in ans && multiset(r) == multiset(ts) + multiset{t}
    ensures forall u :: u in r <==> u in ts || u == t
    ensures Recorded(r, ans)
    ensures KeptIds(r, ans) == KeptIds(ts, ans) + {KeptIdentity(t, ans)}
  {
    assert forall u :: u in r <==> u in multiset(ts) + multiset{t};
  }

  /** The tunnels of `ts`, in order, whose kept identity is offered. */
  function Survivors(ts: seq<TunnelContainer>, ans: Answers, offered: set<Identity>): seq<TunnelContainer>
    requires Recorded(ts, ans)
    reads (set t | t in ts)`name, (set t | t in ts)`tunnelProvider
  {
    if ts == [] then []
    else (if KeptIdentity(ts[0], ans) in offered then [ts[0]] else []) + Survivors(ts[1..], ans, offered)
  }

  /** In a list of distinct tunnels, a tunnel survives exactly when its
      kept identity is offered, and only listed tunnels survive. */
  lemma {:induction false} SurvivorsAre(ts: seq<TunnelContainer>, ans: Answers, offered: set<Identity>)
    requires Recorded(ts, ans) && Distinct(ts)
    ensures forall t :: t in ts ==> (t in Survivors(ts, ans, offered) <==> KeptIdentity(t, ans) in offered)
    ensures forall t :: t in Survivors(ts, ans, offered) ==> t in ts
  {
    if ts != [] {
      assert Distinct(ts[1..]) by {
        forall i, j | 0 <= i < j < |ts[1..]|
          ensures DifferentAt(ts[1..], i, j)
        {
          assert DifferentAt(ts, i + 1, j + 1);
        }
      }
      SurvivorsAre(ts[1..], ans, offered);
      assert ts[0] !in ts[1..] by {
        forall j | 0 <= j < |ts[1..]|
          ensures ts[1..][j] != ts[0]
        {
          assert DifferentAt(ts, 0, j + 1);
        }
      }
      assert forall t :: t in ts ==> t == ts[0] || t in ts[1..];
    }
  }

  /** Only listed tunnels survive. */
  lemma {:induction false} SurvivorsIn(ts: seq<TunnelContainer>, ans: Answers, offered: set<Identity>)
    requires Recorded(ts, ans)
    ensures forall t :: t in Survivors(ts, ans, offered) ==> t in ts
  {
    if ts != [] {
      SurvivorsIn(ts[1..], ans, offered);
    }
  }

  /** The tunnels after the first of a list free of repeats, with distinct
      profiles or sorted, differ from it, have other profiles or names not
      below its name. */
  lemma HeadApart(ts: seq<TunnelContainer>)
    requires ts != []
    ensures Distinct(ts) ==> forall u :: u in ts[1..] ==> u != ts[0]
    ensures ProvidersDistinct(ts) ==> forall u :: u in ts[1..] ==> u.tunnelProvider != ts[0].tunnelProvider
    ensures SortedByName(ts) ==> forall u :: u in ts[1..] ==> !NameIsLess(u.name, ts[0].name)
  {
    forall u | u in ts[1..]
      ensures exists k :: 0 < k < |ts| && ts[k] == u
    {
      var k :| 0 <= k < |ts[1..]| && ts[1..][k] == u;
      assert ts[k + 1] == u;
    }
    if Distinct(ts) {
      forall k | 0 < k < |ts|
        ensures ts[k] != ts[0]
      {
        assert DifferentAt(ts, 0, k);
      }
    }
    if ProvidersDistinct(ts) {
      forall k | 0 < k < |ts|
        ensures ts[k].tunnelProvider != ts[0].tunnelProvider
      {
        assert ProvidersDifferAt(ts, 0, k);
      }
    }
  }

  /** A tunnel put in front of a list keeps it free of repeats, with
      distinct profiles or sorted, when it differs from the others, has
      another profile or a name not above theirs. */
  lemma PrependedKeeps(t: TunnelContainer, r: seq<TunnelContainer>)
    ensures Distinct(r) && (forall u :: u in r ==> u != t) ==> Distinct([t] + r)
    ensures ProvidersDistinct(r) && (forall u :: u in r ==> u.tunnelProvider != t.tunnelProvider)
      ==> ProvidersDistinct([t] + r)
    ensures SortedByName(r) && (forall u :: u in r ==> !NameIsLess(u.name, t.name)) ==> SortedByName([t] + r)
  {
    var s := [t] + r;
    assert forall i :: 0 < i < |s| ==> s[i] == r[i - 1] && s[i] in r;
    if Distinct(r) && (forall u :: u in r ==> u != t) {
      forall i, j | 0 <= i < j < |s|
        ensures DifferentAt(s, i, j)
      {
        if i > 0 {
          assert DifferentAt(r, i - 1, j - 1);
        }
      }
    }
    if ProvidersDistinct(r) && (forall u :: u in r ==> u.tunnelProvider != t.tunnelProvider) {
      forall i, j | 0 <= i < j < |s|
        ensures ProvidersDifferAt(s, i, j)
      {
        if i > 0 {
          assert ProvidersDifferAt(r, i - 1, j - 1);
        }
      }
    }
  }

  /** Dropping the first tunnel keeps a list free of repeats, with
      distinct profiles or sorted. */
  lemma TailKeeps(ts: seq<TunnelContainer>)
    requires ts != []
    ensures Distinct(ts) ==> Distinct(ts[1..])
    ensures ProvidersDistinct(ts) ==> ProvidersDistinct(ts[1..])
    ensures SortedByName(ts) ==> SortedByName(ts[1..])
  {
    var r := ts[1..];
    if Distinct(ts) {
      forall i, j | 0 <= i < j < |r|
        ensures DifferentAt(r, i, j)
      {
        assert DifferentAt(ts, i + 1, j + 1);
      }
    }
    if ProvidersDistinct(ts) {
      forall i, j | 0 <= i < j < |r|
        ensures ProvidersDifferAt(r, i, j)
      {
        assert ProvidersDifferAt(ts, i + 1, j + 1);
      }
    }
  }

  /** The survivors of a list free of repeats are free of repeats. */
  lemma {:induction false} SurvivorsDistinct(ts: seq<TunnelContainer>, ans: Answers, offered: set<Identity>)
    requires Recorded(ts, ans) && Distinct(ts)
    ensures Distinct(Survivors(ts, ans, offered))
  {
    if ts != [] {
      var rest := Survivors(ts[1..], ans, offered);
      TailKeeps(ts);
      SurvivorsDistinct(ts[1..], ans, offered);
      if KeptIdentity(ts[0], ans) in offered {
        SurvivorsIn(ts[1..], ans, offered);
        HeadApart(ts);
        PrependedKeeps(ts[0], rest);
        assert Survivors(ts, ans, offered) == [ts[0]] + rest;
      } else {
        assert Survivors(ts, ans, offered) == rest;
      }
    }
  }

  /** The survivors of a list with distinct profiles have distinct profiles. */
  lemma {:induction false} SurvivorsProvidersDistinct(ts: seq<TunnelContainer>, ans: Answers, offered: set<Identity>)
    requires Recorded(ts, ans) && ProvidersDistinct(ts)
    ensures ProvidersDistinct(Survivors(ts, ans, offered))
  {
    if ts != [] {
      var rest := Survivors(ts[1..], ans, offered);
      TailKeeps(ts);
      SurvivorsProvidersDistinct(ts[1..], ans, offered);
      if KeptIdentity(ts[0], ans) in offered {
        SurvivorsIn(ts[1..], ans, offered);
        HeadApart(ts);
        PrependedKeeps(ts[0], rest);
        assert Survivors(ts, ans, offered) == [ts[0]] + rest;
      } else {
        assert Survivors(ts, ans, offered) == rest;
      }
    }
  }

  /** The survivors of a list sorted by name are sorted by name. */
  lemma {:induction false} SurvivorsSorted(ts: seq<TunnelContainer>, ans: Answers, offered: set<Identity>)
    requires Recorded(ts, ans) && SortedByName(ts)
    ensures SortedByName(Survivors(ts, ans, offered))
  {
    if ts != [] {
      var rest := Survivors(ts[1..], ans, offered);
      TailKeeps(ts);
      SurvivorsSorted(ts[1..], ans, offered);
      if KeptIdentity(ts[0], ans) in offered {
        SurvivorsIn(ts[1..], ans, offered);
        HeadApart(ts);
        PrependedKeeps(ts[0], rest);
        assert Survivors(ts, ans, offered) == [ts[0]] + rest;
      } else {
        assert Survivors(ts, ans, offered) == rest;
      }
    }
  }

  /** The survivors of a suffix that starts one tunnel earlier. */
  lemma SurvivorsStep(ts: seq<TunnelContainer>, ans: Answers, offered: set<Identity>, i: nat)
    requires Recorded(ts, ans) && 0 < i <= |ts|
    ensures Recorded(ts[i - 1..], ans) && Recorded(ts[i..], ans)
    ensures Survivors(ts[i - 1..], ans, offered)
      == (if KeptIdentity(ts[i - 1], ans) in offered then [ts[i - 1]] else []) + Survivors(ts[i..], ans, offered)
  {
    assert ts[i - 1..][1..] == ts[i..];
  }

  /** The reversed enumeration of the first half of `reload()` on a copy
      of the list: from the last tunnel to the first, a tunnel whose kept
      identity is not offered is removed at its index. The survivors keep
      their order, and stay distinct, with distinct profiles, and sorted. */
  method Unmatched(ts: seq<TunnelContainer>, ans: Answers, offered: set<Identity>) returns (kept: seq<TunnelContainer>)
    requires Recorded(ts, ans)
    ensures kept == Survivors(ts, ans, offered)
  {
    kept := ts;
    var i := |ts|;
    assert ts[..i] == ts && ts[i..] == [];
    while i > 0
      invariant i <= |ts|
      invariant Recorded(ts[i..], ans)
      invariant kept == ts[..i] + Survivors(ts[i..], ans, offered)
    {
      SurvivorsStep(ts, ans, offered, i);
      ghost var rest := Survivors(ts[i..], ans, offered);
      assert ts[..i] == ts[..i - 1] + [ts[i - 1]];
      assert kept == ts[..i - 1] + ([ts[i - 1]] + rest);
      if KeptIdentity(ts[i - 1], ans) !in offered {
        assert kept[..i - 1] == ts[..i - 1] && kept[i..] == rest;
        kept := kept[..i - 1] + kept[i..];
      }
      i := i - 1;
    }
    assert ts[0..] == ts;
  }

  /** `tunnels.first(where: { p.isEquivalent(to: $0) })`, as an index, for
      a profile with identity `id`: the first tunnel whose kept identity
      is `id`. */
  function FirstKept(ts: seq<TunnelContainer>, ans: Answers, id: Identity): (r: Option<nat>)
    requires Recorded(ts, ans)
    reads (set t | t in ts)`name, (set t | t in ts)`tunnelProvider
    ensures r.Some? ==> r.value < |ts| && KeptIdentity(ts[r.value], ans) == id
    ensures r.Some? ==> forall i :: 0 <= i < r.value ==> KeptIdentity(ts[i], ans) != id
    ensures r.None? ==> forall i :: 0 <= i < |ts| ==> KeptIdentity(ts[i], ans) != id
  {
    if ts == [] then None
    else if KeptIdentity(ts[0], ans) == id then Some(0)
    else match FirstKept(ts[1..], ans, id)
      case None => None
      case Some(i) => Some(i + 1)
  }

  /** The profiles of a list that gains a tunnel at its end. */
  lemma ProvidersOfAppended(ts: seq<TunnelContainer>, t: TunnelContainer)
    ensures ProvidersOf(ts + [t]) == ProvidersOf(ts) + [t.tunnelProvider]
  {
    assert forall i :: 0 <= i < |ts| ==> (ts + [t])[i] == ts[i];
  }

  /** A tunnel appended to a list adds its profile to the list's profiles. */
  lemma ProvidersGain(ts: seq<TunnelContainer>, t: TunnelContainer)
    ensures (set u | u in ts + [t] :: u.tunnelProvider) == (set u | u in ts :: u.tunnelProvider) + {t.tunnelProvider}
  {
    assert forall u :: u in ts + [t] <==> u in ts || u == t;
  }

  /** The profiles of a list are those of its sequence of profiles. */
  lemma ProfilesAreList(ts: seq<TunnelContainer>)
    ensures (set t | t in ts :: t.tunnelProvider) == set q | q in ProvidersOf(ts)
  {
    var ps := ProvidersOf(ts);
    forall q | q in ps
      ensures q in set t | t in ts :: t.tunnelProvider
    {
      var i :| 0 <= i < |ps| && ps[i] == q;
      assert ts[i] in ts;
    }
    forall t | t in ts
      ensures t.tunnelProvider in ps
    {
      var i :| 0 <= i < |ts| && ts[i] == t;
      assert ps[i] == t.tunnelProvider;
    }
  }

  /** `TunnelsService`. What the status delegate is told comes back from
      each operation as the sequence `told`; the observation of a tunnel's
      status on behalf of a waiting tunnel is `awaiting`. */
  class TunnelsService {
    var tunnels: seq<TunnelContainer>
    var awaiting: TunnelContainer?
    /** The listed containers and their profiles. */
    ghost var Containers: set<TunnelContainer>
    ghost var Profiles: set<ProviderManager>

    /** No tunnel is listed twice and no two tunnels share a profile. */
    ghost predicate Valid()
      reads this`tunnels, this`Containers, this`Profiles, Containers`tunnelProvider
    {
      Containers == (set t | t in tunnels)
      && Distinct(tunnels) && ProvidersDistinct(tunnels)
      && Profiles == (set t | t in tunnels :: t.tunnelProvider)
    }

    /** `init(tunnelProviders:)`, for the distinct profiles the system
        hands over. */
    constructor (providers: seq<ProviderManager>)
      requires forall i, j :: 0 <= i < j < |providers| ==> providers[i] != providers[j]
      ensures Valid() && SortedByName(tunnels) && awaiting == null
      ensures |tunnels| == |providers|
      ensures forall t :: t in tunnels ==> fresh(t) && NewContainer(t)
      ensures Profiles == set p | p in providers
    {
      var sorted := SortedContainersFor(providers);
      tunnels := sorted;
      Containers := set t | t in sorted;
      Profiles := set t | t in sorted :: t.tunnelProvider;
      awaiting := null;
    }

    /** `startActivation(of:)`: nothing for a tunnel that is not listed;
        otherwise what `Arbitrate` decides, carried out on the list. */
    method StartActivation(tunnel: TunnelContainer, answer: nat -> Attempt) returns (told: seq<StatusEvent>)
      requires Valid()
      modifies this`awaiting, Containers`status, Containers`isAttemptingActivation,
        Containers`activationAttemptId, Profiles`isEnabled, Profiles`stopRequests
      ensures tunnels == old(tunnels)
      ensures tunnel !in tunnels ==>
        told == [] && awaiting == old(awaiting) && StatesOf(tunnels) == old(StatesOf(tunnels))
      ensures tunnel in tunnels ==>
        ActivationOutcome(tunnels, old(StatesOf(tunnels)), old(awaiting), IndexOf(tunnels, tunnel), answer)
        == ListOutcome(StatesOf(tunnels), awaiting, told)
    {
      if tunnel !in tunnels {
        return [];
      }
      var k := IndexOf(tunnels, tunnel);
      if tunnel.status != Disconnected {
        assert Arbitrate(Statuses(StatesOf(tunnels)), k) == Refuse;
        return [StatusEvent(tunnel, AttemptFailed(Inactive))];
      }
      ghost var sn, observed := StatesOf(tunnels), awaiting;
      ResetFirstWaiting();
      told := ActivateAfterReset(k, tunnel, answer, sn, observed);
    }

    /** `startActivationOfLastTunnel()`: nothing for an empty list,
        otherwise `startActivation(of:)` on the last tunnel. */
    method StartActivationOfLastTunnel(answer: nat -> Attempt) returns (told: seq<StatusEvent>)
      requires Valid()
      modifies this`awaiting, Containers`status, Containers`isAttemptingActivation,
        Containers`activationAttemptId, Profiles`isEnabled, Profiles`stopRequests
      ensures tunnels == [] ==> told == [] && awaiting == old(awaiting)
      ensures tunnels != [] ==>
        ActivationOutcome(tunnels, old(StatesOf(tunnels)), old(awaiting), |tunnels| - 1, answer)
        == ListOutcome(StatesOf(tunnels), awaiting, told)
    {
      if tunnels == [] {
        return [];
      }
      var last := tunnels[|tunnels| - 1];
      IndexOfLast(tunnels);
      told := StartActivation(last, answer);
    }

    /** `startDeactivationOfActiveTunnel()`: false, with nothing done, when
        the list is empty or its last tunnel is disconnected; otherwise that
        tunnel's profile is set not to connect on demand and, whatever
        saving it answers, the tunnel is deactivated. */
    method StartDeactivationOfActiveTunnel(saveError: Option<SystemError>, loadError: Option<SystemError>)
      returns (started: bool, told: seq<StatusEvent>)
      requires Valid()
      modifies Containers`isActivateOnDemandEnabled, Containers`isAttemptingActivation, Containers`status,
        Profiles`isOnDemandEnabled, Profiles`isEnabled, Profiles`stopRequests
      ensures tunnels == old(tunnels)
      ensures started <==> tunnels != [] && old(tunnels[|tunnels| - 1].status) != Disconnected
      ensures !started ==> told == [] && StatesOf(tunnels) == old(StatesOf(tunnels))
      ensures started ==>
        var k := |tunnels| - 1;
        var s := old(StatesOf(tunnels))[k];
        StatesOf(tunnels) == old(StatesOf(tunnels))[k := Deactivated(OnDemandSet(s, false, saveError.None?))]
        && !tunnels[k].tunnelProvider.isOnDemandEnabled
        && told == EventsFor(tunnels[k], DeactivationReports(s.status))
    {
      if tunnels == [] || tunnels[|tunnels| - 1].status == Disconnected {
        return false, [];
      }
      var k := |tunnels| - 1;
      var tunnel := tunnels[k];
      ghost var sn := StatesOf(tunnels);
      Apart(tunnels, k);
      var _ := SetOnDemandEnabled(false, tunnel, saveError, loadError);
      var reports := Deactivate(tunnel);
      told := EventsFor(tunnel, reports);
      StatesAre(tunnels, sn[k := Deactivated(OnDemandSet(sn[k], false, saveError.None?))]);
      started := true;
    }

    /** `remove(tunnel:)`: the keychain item of the tunnel's profile is
        deleted and the tunnel's status refreshed at once; the completion
        of the profile's removal then either reports `removeTunnelFailed`,
        leaving the list as it is, or takes the tunnel out of the list. */
    method Remove(tunnel: TunnelContainer, keychain: Keychain, removeError: Option<SystemError>)
      returns (r: Option<TunnelsServiceError>)
      requires Valid()
      modifies keychain, tunnel`status, tunnel`isActivateOnDemandEnabled, this`tunnels, this`Containers, this`Profiles
      ensures Valid() && awaiting == old(awaiting)
      ensures
        var p := tunnel.tunnelProvider.protocolConfiguration;
        keychain.items == if p == null || p.passwordReference.None? then old(keychain.items)
                          else old(keychain.items) - {p.passwordReference.value}
      ensures tunnel.State() == Refreshed(old(tunnel.State()), tunnel.tunnelProvider.connectionStatus,
                                         tunnel.tunnelProvider.isOnDemandEnabled)
      ensures removeError.Some? ==> r == Some(RemoveTunnelFailed(removeError.value)) && tunnels == old(tunnels)
      ensures removeError.None? ==> r.None? && tunnels == Without(old(tunnels), tunnel) && tunnel !in tunnels
      ensures old(SortedByName(tunnels)) ==> SortedByName(tunnels)
    {
      DestroyAndRefresh(tunnel, keychain);
      if removeError.Some? {
        return Some(RemoveTunnelFailed(removeError.value));
      }
      TakeOut(tunnel);
      r := None;
    }

    /** Takes `tunnel`, if listed, out of the list. */
    method TakeOut(tunnel: TunnelContainer)
      requires Valid()
      modifies this`tunnels, this`Containers, this`Profiles
      ensures Valid() && tunnels == Without(old(tunnels), tunnel) && tunnel !in tunnels
      ensures SortedByName(old(tunnels)) ==> SortedByName(tunnels)
    {
      WithoutContents(tunnels, tunnel);
      WithoutKeeps(tunnels, tunnel);
      SetTunnels(Without(tunnels, tunnel));
    }

    /** Makes `ts` the list. */
    method SetTunnels(ts: seq<TunnelContainer>)
      requires Distinct(ts) && ProvidersDistinct(ts)
      modifies this`tunnels, this`Containers, this`Profiles
      ensures Valid() && tunnels == ts
    {
      tunnels := ts;
      Containers := set t | t in ts;
      Profiles := set t | t in ts :: t.tunnelProvider;
    }

    /** `add(tunnelConfiguration:)` up to the request to save the profile.
        A configuration without a name or with an empty one fails
        `emptyName`, and one whose name a listed tunnel has fails
        `nameAlreadyExists`, with nothing stored. Otherwise a new profile
        holds the configuration, enabled and set to connect on demand, and
        the first tunnel that is connected or connecting is remembered. */
    method RequestAdd(c: TunnelConfiguration, bundleIdentifier: Option<string>, keychain: Keychain, addSucceeds: bool)
      returns (r: Result<PendingAdd, TunnelsServiceError>)
      requires keychain.Valid()
      modifies keychain
      ensures keychain.Valid()
      ensures (c.name.None? || c.name.value == "") ==> r == Failure(EmptyName) && keychain.items == old(keychain.items)
      ensures c.name.Some? && c.name.value != "" && NameTaken(tunnels, c.name.value) ==>
        r == Failure(NameAlreadyExists) && keychain.items == old(keychain.items)
      ensures c.name.Some? && c.name.value != "" && !NameTaken(tunnels, c.name.value) ==>
        r.Success? && fresh(r.value.manager)
        && r.value.activeTunnel == (match FirstActive(tunnels) case Some(t) => t case None => null)
        && var m := r.value.manager;
        m.localizedDescription == c.name && m.LoadedConfiguration(keychain) == Some(c)
        && m.isEnabled && m.isOnDemandEnabled && m.connectionStatus == V.Invalid
        && (m.protocolConfiguration != null <==> bundleIdentifier.Some? && addSucceeds)
    {
      if c.name.None? || c.name.value == "" {
        return Failure(EmptyName);
      }
      if NameTaken(tunnels, c.name.value) {
        return Failure(NameAlreadyExists);
      }
      var manager := new ProviderManager(None, null, false, false, V.Invalid);
      manager.SetTunnelConfiguration(c, bundleIdentifier, keychain, addSucceeds);
      manager.isEnabled := true;
      manager.isOnDemandEnabled := true;
      var active := FirstActive(tunnels);
      r := Success(PendingAdd(manager, match active case Some(t) => t case None => null));
    }

    /** The save completion of `add`. A failed save deletes the keychain
        item of the new profile and reports `addTunnelFailed`, changing
        nothing else. Otherwise the tunnel that was active is revived, and a
        container for the new profile joins the list, which is sorted again. */
    method CompleteAdd(pending: PendingAdd, keychain: Keychain, saveError: Option<SystemError>, answer: nat -> Attempt)
      returns (r: Result<TunnelContainer, TunnelsServiceError>, told: seq<StatusEvent>)
      requires Valid() && pending.manager !in Profiles
      modifies keychain, this`tunnels, this`Containers, this`Profiles, this`awaiting, Containers`status,
        Containers`isAttemptingActivation, Containers`activationAttemptId, Profiles`isEnabled, Profiles`stopRequests,
        Present(pending.activeTunnel)`status
      ensures Valid()
      ensures saveError.Some? ==>
        r == Failure(AddTunnelFailed(saveError.value)) && told == []
        && tunnels == old(tunnels) && awaiting == old(awaiting) && StatesOf(tunnels) == old(StatesOf(tunnels))
        && var p := pending.manager.protocolConfiguration;
        keychain.items == if p == null || p.passwordReference.None? then old(keychain.items)
                          else old(keychain.items) - {p.passwordReference.value}
      ensures saveError.None? ==>
        r.Success? && fresh(r.value) && r.value.tunnelProvider == pending.manager && NewContainer(r.value)
        && multiset(tunnels) == multiset(old(tunnels)) + multiset{r.value} && SortedByName(tunnels)
        && keychain.items == old(keychain.items)
      ensures saveError.None? && pending.activeTunnel != null && pending.activeTunnel in old(tunnels) ==>
        RevivalOutcome(old(tunnels), old(StatesOf(tunnels)), old(awaiting), IndexOf(old(tunnels), pending.activeTunnel), answer)
        == ListOutcome(StatesOf(old(tunnels)), awaiting, told)
      ensures saveError.None? && (pending.activeTunnel == null || pending.activeTunnel !in old(tunnels)) ==>
        told == [] && awaiting == old(awaiting) && StatesOf(old(tunnels)) == old(StatesOf(tunnels))
    {
      if saveError.Some? {
        var p := pending.manager.protocolConfiguration;
        if p != null {
          p.DestroyConfigurationReference(keychain);
        }
        return Failure(AddTunnelFailed(saveError.value)), [];
      }
      told := [];
      if pending.activeTunnel != null {
        told := Revive(pending.activeTunnel, answer);
      }
      var t := AddContainerFor(pending.manager);
      r := Success(t);
    }

    /** The revival of `active`, the tunnel that was connected or
        connecting when a new profile was saved. */
    method Revive(active: TunnelContainer, answer: nat -> Attempt) returns (told: seq<StatusEvent>)
      requires Valid()
      modifies this`awaiting, Containers`status, Containers`isAttemptingActivation,
        Containers`activationAttemptId, Profiles`isEnabled, Profiles`stopRequests, active`status
      ensures tunnels == old(tunnels)
      ensures active !in tunnels ==>
        told == [] && awaiting == old(awaiting) && StatesOf(tunnels) == old(StatesOf(tunnels))
        && active.status == if Active(old(active.status)) then Restarting else old(active.status)
      ensures active in tunnels ==>
        RevivalOutcome(tunnels, old(StatesOf(tunnels)), old(awaiting), IndexOf(tunnels, active), answer)
        == ListOutcome(StatesOf(tunnels), awaiting, told)
    {
      told := [];
      ghost var sn, observed := StatesOf(tunnels), awaiting;
      ghost var k := if active in tunnels then IndexOf(tunnels, active) else 0;
      assert active in tunnels ==> sn[k] == active.State();
      if Dropped(active.status) {
        told := StartActivation(active, answer);
      }
      ghost var first := ListOutcome(StatesOf(tunnels), awaiting, told);
      assert active in tunnels ==>
        first.states[k] == active.State()
        && first == if Dropped(sn[k].status) then ActivationOutcome(tunnels, sn, observed, k, answer)
                    else ListOutcome(sn, observed, []);
      if Active(active.status) {
        MarkRestarting(active);
      }
    }

    /** Marks `active` restarting. */
    method MarkRestarting(active: TunnelContainer)
      requires Distinct(tunnels) && ProvidersDistinct(tunnels)
      modifies active`status
      ensures tunnels == old(tunnels) && active.status == Restarting
      ensures active !in tunnels ==> StatesOf(tunnels) == old(StatesOf(tunnels))
      ensures active in tunnels ==>
        StatesOf(tunnels) == old(StatesOf(tunnels))[IndexOf(tunnels, active) := old(active.State()).(status := Restarting)]
    {
      ghost var sn := StatesOf(tunnels);
      active.status := Restarting;
      if active in tunnels {
        var k := IndexOf(tunnels, active);
        Apart(tunnels, k);
        StatesAre(tunnels, sn[k := sn[k].(status := Restarting)]);
      } else {
        StatesAre(tunnels, sn);
      }
    }

    /** A container for the new profile `manager` joins the list, which is
        sorted again. */
    method AddContainerFor(manager: ProviderManager) returns (t: TunnelContainer)
      requires Valid() && manager !in Profiles
      modifies this`tunnels, this`Containers, this`Profiles
      ensures Valid() && fresh(t) && t.tunnelProvider == manager && NewContainer(t)
      ensures multiset(tunnels) == multiset(old(tunnels)) + multiset{t} && SortedByName(tunnels)
      ensures StatesOf(old(tunnels)) == old(StatesOf(tunnels))
      ensures Profiles == old(Profiles) + {manager}
    {
      ghost var ts := tunnels;
      t := new TunnelContainer(manager);
      AppendedKeeps(tunnels, t);
      var sorted := SortByName(tunnels + [t]);
      PermutationKeepsProvidersDistinct(tunnels + [t], sorted);
      SetTunnels(sorted);
      PermutationKeepsProviders(ts + [t], sorted);
      ProvidersGain(ts, t);
    }

    /** `modify(tunnel:tunnelConfiguration:)`. A configuration without a
        name or with an empty one fails `emptyName` with nothing changed.
        Otherwise the profile is enabled and set to connect on demand; a
        new name (one other than the profile's) that a listed tunnel has
        fails `nameAlreadyExists`, and otherwise becomes the tunnel's. A
        configuration other than the one the profile answers is stored in
        it. A failed save then reports `addTunnelFailed`. After a save the
        list is sorted again if the name changed, a changed configuration
        restarts a connected, connecting or reasserting tunnel, the
        tunnel's on-demand flag follows the profile's, and the reload of
        the profile decides between `loadTunnelsFailed` and success. */
    method Modify(tunnel: TunnelContainer, c: TunnelConfiguration, bundleIdentifier: Option<string>,
                  keychain: Keychain, addSucceeds: bool, saveError: Option<SystemError>, loadError: Option<SystemError>)
      returns (r: Result<TunnelContainer, TunnelsServiceError>)
      requires Valid() && keychain.Valid()
      modifies tunnel`name, tunnel`status, tunnel`isActivateOnDemandEnabled, tunnel.tunnelProvider, keychain,
        this`tunnels, this`Containers, this`Profiles
      ensures Valid() && keychain.Valid()
      ensures (c.name.None? || c.name.value == "") ==>
        r == Failure(EmptyName) && tunnels == old(tunnels) && keychain.items == old(keychain.items)
        && tunnel.State() == old(tunnel.State()) && tunnel.name == old(tunnel.name)
      ensures r == Failure(NameAlreadyExists) <==>
        c.name.Some? && c.name.value != ""
        && c.name.value != old(tunnel.tunnelProvider.localizedDescription).GetOr("")
        && old(NameTaken(tunnels, c.name.value))
      ensures r == Failure(NameAlreadyExists) ==>
        tunnels == old(tunnels) && keychain.items == old(keychain.items) && tunnel.name == old(tunnel.name)
        && tunnel.tunnelProvider.isEnabled && tunnel.tunnelProvider.isOnDemandEnabled
      ensures c.name.Some? && c.name.value != "" && r != Failure(NameAlreadyExists) ==>
        var m := tunnel.tunnelProvider;
        var renamed := c.name.value != old(m.localizedDescription).GetOr("");
        var reconfigured := old(m.LoadedConfiguration(keychain)) != Some(c);
        var restarted := reconfigured && old(tunnel.status) in {Connected, Connecting, Reasserting};
        tunnel.name == (if renamed then c.name.value else old(tunnel.name))
        && m.LoadedConfiguration(keychain) == Some(c) && m.isEnabled && m.isOnDemandEnabled
        && (!reconfigured ==> keychain.items == old(keychain.items) && m.localizedDescription == old(m.localizedDescription))
        && (reconfigured ==> m.localizedDescription == c.name)
        && (saveError.Some? ==>
              r == Failure(AddTunnelFailed(saveError.value)) && tunnels == old(tunnels)
              && tunnel.State() == old(tunnel.State()).(providerEnabled := true))
        && (saveError.None? ==>
              (renamed ==> SortedByName(tunnels) && multiset(tunnels) == multiset(old(tunnels)))
              && (!renamed ==> tunnels == old(tunnels))
              && tunnel.State() == old(tunnel.State()).(
                   status := if restarted then Restarting else old(tunnel.status),
                   isActivateOnDemandEnabled := true, providerEnabled := true,
                   stopRequests := old(m.stopRequests) + if restarted then 1 else 0)
              && r == if loadError.Some? then Failure(LoadTunnelsFailed(loadError.value)) else Success(tunnel))
    {
      if c.name.None? || c.name.value == "" {
        return Failure(EmptyName);
      }
      var refused, renamed, reconfigured :=
        EditProfile(tunnel, c, NameTaken(tunnels, c.name.value), bundleIdentifier, keychain, addSucceeds);
      if refused {
        return Failure(NameAlreadyExists);
      }
      if saveError.Some? {
        return Failure(AddTunnelFailed(saveError.value));
      }
      r := AfterModifySaved(tunnel, renamed, reconfigured, loadError);
    }

    /** The save completion of `modify`: the list is sorted again if the
        tunnel was `renamed`, then `FinishModify`. */
    method AfterModifySaved(tunnel: TunnelContainer, renamed: bool, reconfigured: bool, loadError: Option<SystemError>)
      returns (r: Result<TunnelContainer, TunnelsServiceError>)
      requires Valid()
      modifies this`tunnels, this`Containers, this`Profiles,
        tunnel`status, tunnel`isActivateOnDemandEnabled, tunnel.tunnelProvider`stopRequests
      ensures Valid()
      ensures renamed ==> SortedByName(tunnels) && multiset(tunnels) == multiset(old(tunnels))
      ensures !renamed ==> tunnels == old(tunnels)
      ensures
        var restarted := reconfigured && old(tunnel.status) in {Connected, Connecting, Reasserting};
        tunnel.State() == old(tunnel.State()).(
          status := if restarted then Restarting else old(tunnel.status),
          isActivateOnDemandEnabled := tunnel.tunnelProvider.isOnDemandEnabled,
          stopRequests := old(tunnel.tunnelProvider.stopRequests) + if restarted then 1 else 0)
      ensures r == if loadError.Some? then Failure(LoadTunnelsFailed(loadError.value)) else Success(tunnel)
    {
      if renamed {
        Resort();
      }
      r := FinishModify(tunnel, reconfigured, loadError);
    }

    /** Sorts the list again. */
    method Resort()
      requires Valid()
      modifies this`tunnels, this`Containers, this`Profiles
      ensures Valid() && SortedByName(tunnels) && multiset(tunnels) == multiset(old(tunnels))
    {
      var sorted := SortByName(tunnels);
      PermutationKeepsProvidersDistinct(tunnels, sorted);
      SetTunnels(sorted);
    }

    /** `reload()`, once `loadAllFromPreferences` has handed over the
        profiles `loaded`: new objects, none of them a listed tunnel's
        profile. First every tunnel no loaded profile is equivalent to is
        taken out. Then, profile by profile, the first tunnel equivalent
        to the profile takes it and has its status refreshed; without one,
        a container for the profile joins the list, which is sorted again.
        Afterwards a tunnel that was listed is still listed exactly when a
        loaded profile was equivalent to it, the other tunnels are new, and
        the tunnels have exactly the identities of the containers the
        loaded profiles make. The list need not be sorted on entry (a
        rename whose save failed leaves it out of order); a sorted list
        stays sorted, and one that gained a container is sorted. */
    method Reload(loaded: seq<ProviderManager>, keychain: Keychain)
      requires Valid()
      requires forall i, j :: 0 <= i < j < |loaded| ==> loaded[i] != loaded[j]
      requires forall p :: p in loaded ==> p !in Profiles
      modifies this`tunnels, this`Containers, this`Profiles, Containers`tunnelProvider, Containers`status,
        Containers`isActivateOnDemandEnabled
      ensures Valid()
      ensures old(SortedByName(tunnels)) ==> SortedByName(tunnels)
      ensures (exists t :: t in tunnels && t !in old(tunnels)) ==> SortedByName(tunnels)
      ensures forall t :: t in old(tunnels) ==>
        (t in tunnels <==> old(TunnelIdentity(t, keychain) in Offered(loaded, keychain)))
      ensures forall t :: t in tunnels ==> t in old(tunnels) || fresh(t)
      ensures IdSet(tunnels, keychain) == Listed(loaded, keychain)
      ensures Profiles <= old(Profiles) + set p | p in loaded
    {
      ProfilesAreList(tunnels);
      var ans := AnswersOf(ProvidersOf(tunnels) + loaded, keychain);
      KeptIdsAreIds(tunnels, ans, keychain);
      KeptOffers(loaded, ans, keychain);
      ReloadWith(loaded, ans);
      assert Answering(ans, keychain);
      KeptIdsAreIds(tunnels, ans, keychain);
      KeptOffers(loaded, ans, keychain);
    }

    /** `reload()` with the answers `ans` of the listed and the loaded
        profiles kept. */
    method ReloadWith(loaded: seq<ProviderManager>, ans: Answers)
      requires Valid() && Recorded(tunnels, ans)
      requires forall i, j :: 0 <= i < j < |loaded| ==> loaded[i] != loaded[j]
      requires forall p :: p in loaded ==> p !in Profiles && p in ans
      modifies this`tunnels, this`Containers, this`Profiles, Containers`tunnelProvider, Containers`status,
        Containers`isActivateOnDemandEnabled
      ensures Valid() && Recorded(tunnels, ans)
      ensures old(SortedByName(tunnels)) ==> SortedByName(tunnels)
      ensures SortedByName(tunnels) || forall t :: t in tunnels ==> t in old(tunnels)
      ensures forall t :: t in old(tunnels) ==>
        (t in tunnels <==> old(KeptIdentity(t, ans) in KeptOffered(loaded, ans)))
      ensures forall t :: t in tunnels ==> t in old(tunnels) || fresh(t)
      ensures KeptIds(tunnels, ans) == KeptListed(loaded, ans)
      ensures Profiles <= old(Profiles) + set p | p in loaded
    {
      ghost var cids := KeptContainerIds(loaded, ans);
      ghost var wasSorted := SortedByName(tunnels);
      DropUnoffered(loaded, ans);
      ghost var survivors := tunnels;
      assert wasSorted ==> SortedByName(survivors);
      assert forall t :: t in old(tunnels) ==>
        (t in survivors <==> old(KeptIdentity(t, ans) in KeptOffered(loaded, ans)));
      AbsorbAll(loaded, ans, cids);
      assert tunnels == survivors || SortedByName(tunnels);
    }

    /** The first half of `reload()` with the answers kept: the tunnels
        whose identity no loaded profile offers are taken out, and the
        identities of the others are all among those of the containers
        the loaded profiles make. */
    method DropUnoffered(loaded: seq<ProviderManager>, ans: Answers)
      requires Valid() && Recorded(tunnels, ans)
      requires forall p :: p in loaded ==> p in ans
      modifies this`tunnels, this`Containers, this`Profiles
      ensures Valid() && Recorded(tunnels, ans)
      ensures old(SortedByName(tunnels)) ==> SortedByName(tunnels)
      ensures forall t :: t in old(tunnels) ==> (t in tunnels <==> KeptIdentity(t, ans) in KeptOffered(loaded, ans))
      ensures forall t :: t in tunnels ==> t in old(tunnels)
      ensures KeptIds(tunnels, ans) <= KeptListed(loaded, ans)
    {
      var offered := set p | p in loaded :: KeptProfileIdentity(p, ans);
      ghost var ts0 := tunnels;
      DropUnmatched(ans, offered);
      SurvivorsAre(ts0, ans, offered);
      OfferedAreListed(tunnels, loaded, ans);
    }

    /** The list once the profiles of `loaded` before `j` have been
        absorbed, with the kept answers `ans`: it stays consistent, no
        profile from `j` on is a tunnel's, every profile is one
        of `ps0` or an absorbed one, and the identities are those of
        `kept` and of the containers made for the absorbed profiles. */
    ghost predicate AbsorbedUpTo(loaded: seq<ProviderManager>, ans: Answers, cids: seq<Identity>,
                                 kept: set<Identity>, ps0: set<ProviderManager>, j: nat)
      reads this, Containers
    {
      j <= |loaded| && |cids| == |loaded|
      && Valid() && Recorded(tunnels, ans)
      && (forall i :: j <= i < |loaded| ==> loaded[i] !in Profiles)
      && Profiles <= ps0 + (set i | 0 <= i < j :: loaded[i])
      && KeptIds(tunnels, ans) == kept + set i | 0 <= i < j :: cids[i]
    }

    /** The second half of `reload()` with the answers kept: every loaded
        profile in turn is absorbed. */
    method AbsorbAll(loaded: seq<ProviderManager>, ans: Answers, ghost cids: seq<Identity>)
      requires Valid() && Recorded(tunnels, ans)
      requires forall i, j :: 0 <= i < j < |loaded| ==> loaded[i] != loaded[j]
      requires forall p :: p in loaded ==> p !in Profiles && p in ans
      requires cids == KeptContainerIds(loaded, ans)
      requires KeptIds(tunnels, ans) <= KeptListed(loaded, ans)
      modifies this`tunnels, this`Containers, this`Profiles, Containers`tunnelProvider, Containers`status,
        Containers`isActivateOnDemandEnabled
      ensures Valid() && Recorded(tunnels, ans)
      ensures old(SortedByName(tunnels)) ==> SortedByName(tunnels)
      ensures tunnels != old(tunnels) ==> SortedByName(tunnels)
      ensures forall t :: t in old(tunnels) ==> t in tunnels
      ensures forall t :: t in tunnels ==> t in old(tunnels) || fresh(t)
      ensures KeptIds(tunnels, ans) == KeptListed(loaded, ans)
      ensures Profiles <= old(Profiles) + set p | p in loaded
    {
      ghost var keptIds := KeptIds(tunnels, ans);
      var j := 0;
      while j < |loaded|
        invariant AbsorbedUpTo(loaded, ans, cids, keptIds, old(Profiles), j)
        invariant old(SortedByName(tunnels)) ==> SortedByName(tunnels)
        invariant tunnels != old(tunnels) ==> SortedByName(tunnels)
        invariant forall t :: t in old(tunnels) ==> t in tunnels
        invariant forall t :: t in tunnels ==> t in old(tunnels) || fresh(t)
      {
        assert loaded[j].localizedDescription == old(loaded[j].localizedDescription);
        AbsorbAt(loaded, ans, cids, keptIds, old(Profiles), j);
        j := j + 1;
      }
      assert (set i | 0 <= i < j :: loaded[i]) == set p | p in loaded;
      ListedAreIds(loaded, ans, keptIds);
    }

    /** Absorbs the profile at `j`. */
    method AbsorbAt(loaded: seq<ProviderManager>, ans: Answers, ghost cids: seq<Identity>,
                    ghost kept: set<Identity>, ghost ps0: set<ProviderManager>, j: nat)
      requires AbsorbedUpTo(loaded, ans, cids, kept, ps0, j) && j < |loaded|
      requires forall i, k :: 0 <= i < k < |loaded| ==> loaded[i] != loaded[k]
      requires loaded[j] in ans && cids[j] == KeptContainerIdentity(loaded[j], ans)
      modifies this`tunnels, this`Containers, this`Profiles, Containers`tunnelProvider, Containers`status,
        Containers`isActivateOnDemandEnabled
      ensures AbsorbedUpTo(loaded, ans, cids, kept, ps0, j + 1)
      ensures old(SortedByName(tunnels)) ==> SortedByName(tunnels)
      ensures tunnels != old(tunnels) ==> SortedByName(tunnels)
      ensures forall t :: t in old(tunnels) ==> t in tunnels
      ensures forall t :: t in tunnels ==> t in old(tunnels) || fresh(t)
    {
      ghost var before := KeptIds(tunnels, ans);
      Absorb(loaded[j], ans, cids[j]);
      GainStep(kept, cids, j, before, KeptIds(tunnels, ans));
      PrefixStep(loaded, j);
    }

    /** The first half of `reload()`: from the last tunnel to the first,
        each tunnel whose identity no loaded profile offers is taken out. */
    method DropUnmatched(ans: Answers, offered: set<Identity>)
      requires Valid() && Recorded(tunnels, ans)
      modifies this`tunnels, this`Containers, this`Profiles
      ensures Valid() && (old(SortedByName(tunnels)) ==> SortedByName(tunnels))
      ensures tunnels == Survivors(old(tunnels), ans, offered)
    {
      var kept := Unmatched(tunnels, ans, offered);
      SurvivorsDistinct(tunnels, ans, offered);
      SurvivorsProvidersDistinct(tunnels, ans, offered);
      if SortedByName(tunnels) {
        SurvivorsSorted(tunnels, ans, offered);
      }
      SetTunnels(kept);
    }

    /** One loaded profile `p` in the second half of `reload()`: the first
        tunnel equivalent to it takes it as its profile and has its status
        refreshed; without one, a container for `p` joins the list, which
        is sorted again. Either way the list gains the identity of the
        container `p` makes and loses no tunnel; only a new container
        changes the list, and then it is sorted. */
    method Absorb(p: ProviderManager, ans: Answers, ghost cid: Identity)
      requires Valid() && p !in Profiles
      requires Recorded(tunnels, ans) && p in ans && cid == KeptContainerIdentity(p, ans)
      modifies this`tunnels, this`Containers, this`Profiles, Containers`tunnelProvider, Containers`status,
        Containers`isActivateOnDemandEnabled
      ensures Valid() && Recorded(tunnels, ans)
      ensures old(SortedByName(tunnels)) ==> SortedByName(tunnels)
      ensures tunnels != old(tunnels) ==> SortedByName(tunnels)
      ensures Profiles <= old(Profiles) + {p}
      ensures forall t :: t in old(tunnels) ==> t in tunnels
      ensures forall t :: t in tunnels ==> t in old(tunnels) || fresh(t)
      ensures KeptIds(tunnels, ans) == old(KeptIds(tunnels, ans)) + {cid}
    {
      var m := FirstKept(tunnels, ans, KeptProfileIdentity(p, ans));
      if m.Some? {
        Retarget(m.value, tunnels[m.value], p, ans);
      } else {
        ghost var ts := tunnels;
        var t := AddContainerFor(p);
        KeptIdsGain(ts, tunnels, t, ans);
      }
    }

    /** The tunnel `t` at `k`, whose identity the loaded profile `p` has,
        takes `p` as its profile and has its status refreshed. */
    method Retarget(k: nat, t: TunnelContainer, p: ProviderManager, ans: Answers)
      requires Valid() && k < |tunnels| && tunnels[k] == t && p !in Profiles
      requires Recorded(tunnels, ans) && p in ans && KeptProfileIdentity(p, ans) == KeptIdentity(t, ans)
      modifies this`Profiles, t`tunnelProvider, t`status, t`isActivateOnDemandEnabled
      ensures Valid() && tunnels == old(tunnels) && t.tunnelProvider == p
      ensures Recorded(tunnels, ans) && KeptIds(tunnels, ans) == old(KeptIds(tunnels, ans))
      ensures Profiles <= old(Profiles) + {p}
      ensures old(t.status) == Restarting ==>
        t.status == Restarting && t.isActivateOnDemandEnabled == old(t.isActivateOnDemandEnabled)
      ensures old(t.status) != Restarting ==>
        t.status == FromVPNStatus(p.connectionStatus) && t.isActivateOnDemandEnabled == p.isOnDemandEnabled
    {
      Apart(tunnels, k);
      ghost var ids := KeptIds(tunnels, ans);
      t.tunnelProvider := p;
      t.RefreshStatus();
      forall i, j | 0 <= i < j < |tunnels|
        ensures ProvidersDifferAt(tunnels, i, j)
      {
        assert old(ProvidersDifferAt(tunnels, i, j));
      }
      assert forall u :: u in tunnels ==> KeptIdentity(u, ans) == old(KeptIdentity(u, ans));
      Profiles := set u | u in tunnels :: u.tunnelProvider;
    }

    /** `startActivation(of:)` for the disconnected tunnel at `k`, once the
        waiting tunnel of the list whose states were `sn` has been reset. */
    method ActivateAfterReset(k: nat, tunnel: TunnelContainer, answer: nat -> Attempt,
                              ghost sn: seq<ContainerState>, ghost observed: TunnelContainer?)
      returns (told: seq<StatusEvent>)
      requires Valid() && k < |tunnels| && tunnels[k] == tunnel && |sn| == |tunnels|
      requires sn[k].status == Disconnected && awaiting == observed
      requires StatesOf(tunnels) == WithStatuses(sn, ResetWaiting(Statuses(sn)))
      modifies this`awaiting, Containers`status, Containers`isAttemptingActivation,
        Containers`activationAttemptId, Profiles`isEnabled, Profiles`stopRequests
      ensures ActivationOutcome(tunnels, sn, observed, k, answer) == ListOutcome(StatesOf(tunnels), awaiting, told)
    {
      ghost var reset := ResetWaiting(Statuses(sn));
      WithOwnStatuses(sn, reset);
      var inOperation := FirstIndexNotOf(Statuses(StatesOf(tunnels)), Disconnected);
      if inOperation.None? {
        told := ActivateAlone(k, tunnel, answer, sn, observed);
        return;
      }
      told := WaitOrHandOver(k, tunnel, inOperation.value, answer, sn, observed);
    }

    /** `startActivation(of:)` for the disconnected tunnel at `k` once the
        tunnel at `o` is the first in operation: `k` waits for `o`, which is
        deactivated unless it is already disconnecting. */
    method WaitOrHandOver(k: nat, tunnel: TunnelContainer, o: nat, answer: nat -> Attempt,
                          ghost sn: seq<ContainerState>, ghost observed: TunnelContainer?)
      returns (told: seq<StatusEvent>)
      requires Valid() && k < |tunnels| && o < |tunnels| && tunnels[k] == tunnel && |sn| == |tunnels|
      requires sn[k].status == Disconnected && awaiting == observed
      requires FirstIndexNotOf(ResetWaiting(Statuses(sn)), Disconnected) == Some(o)
      requires StatesOf(tunnels) == WithStatuses(sn, ResetWaiting(Statuses(sn)))
      modifies this`awaiting, Containers`status, Containers`isAttemptingActivation,
        Containers`activationAttemptId, Profiles`isEnabled, Profiles`stopRequests
      ensures ActivationOutcome(tunnels, sn, observed, k, answer) == ListOutcome(StatesOf(tunnels), awaiting, told)
    {
      WaitFor(k, tunnel, o, sn);
      if tunnels[o].status == Disconnecting {
        told := [];
        WaitingPlan(tunnels, sn, observed, k, answer, o, StatesOf(tunnels));
        return;
      }
      told := HandOverAfterMark(k, o, answer, sn, observed);
    }

    /** `startActivation(of:)` for the disconnected tunnel at `k` when no
        tunnel is in operation once the waiting one has been reset. */
    method ActivateAlone(k: nat, tunnel: TunnelContainer, answer: nat -> Attempt,
                         ghost sn: seq<ContainerState>, ghost observed: TunnelContainer?)
      returns (told: seq<StatusEvent>)
      requires Valid() && k < |tunnels| && tunnels[k] == tunnel && |sn| == |tunnels|
      requires sn[k].status == Disconnected && awaiting == observed
      requires FirstIndexNotOf(ResetWaiting(Statuses(sn)), Disconnected).None?
      requires StatesOf(tunnels) == WithStatuses(sn, ResetWaiting(Statuses(sn)))
      modifies Containers`status, Containers`isAttemptingActivation,
        Containers`activationAttemptId, Profiles`isEnabled
      ensures ActivationOutcome(tunnels, sn, observed, k, answer) == ListOutcome(StatesOf(tunnels), awaiting, told)
    {
      ArbitrateProceeds(Statuses(sn), k);
      told := ActivateAt(k, tunnel, answer);
      OutcomeOfProceeding(tunnels, sn, observed, k, answer, StatesOf(tunnels), awaiting, told,
                          ResetWaiting(Statuses(sn)));
    }

    /** The handover of `startActivation(of:)` once the tunnel at `k` waits
        for the one at `o`. */
    method HandOverAfterMark(k: nat, o: nat, answer: nat -> Attempt,
                             ghost sn: seq<ContainerState>, ghost observed: TunnelContainer?)
      returns (told: seq<StatusEvent>)
      requires Valid() && k < |tunnels| && o < |tunnels| && |sn| == |tunnels| && sn[k].status == Disconnected
      requires FirstIndexNotOf(ResetWaiting(Statuses(sn)), Disconnected) == Some(o)
      requires ResetWaiting(Statuses(sn))[o] != Disconnecting
      requires StatesOf(tunnels) == WithStatuses(sn, ResetWaiting(Statuses(sn))[k := Waiting])
      requires awaiting == tunnels[o]
      modifies this`awaiting, Containers`status, Containers`isAttemptingActivation,
        Containers`activationAttemptId, Profiles`isEnabled, Profiles`stopRequests
      ensures ActivationOutcome(tunnels, sn, observed, k, answer) == ListOutcome(StatesOf(tunnels), awaiting, told)
    {
      ghost var before := StatesOf(tunnels);
      ghost var w, mid := HandoverPlan(tunnels, sn, observed, k, o, answer, before);
      assert before[k] == tunnels[k].State() && before[o] == tunnels[o].State();
      told := HandOver(k, o, answer, mid, w);
    }

    /** Activates the tunnel at `w`, telling the delegate its reports. */
    method ActivateAt(w: nat, next: TunnelContainer, answer: nat -> Attempt) returns (told: seq<StatusEvent>)
      requires Valid() && w < |tunnels| && tunnels[w] == next
      modifies next`status, next`isAttemptingActivation, next`activationAttemptId, next.tunnelProvider`isEnabled
      ensures
        var run := Activate(old(StatesOf(tunnels))[w], 0, None, answer);
        StatesOf(tunnels) == old(StatesOf(tunnels))[w := run.state] && told == EventsFor(next, run.reports)
    {
      ghost var sn := StatesOf(tunnels);
      Apart(tunnels, w);
      var reports, attempts := next.StartActivation(0, None, answer);
      told := EventsFor(next, reports);
      StatesAre(tunnels, sn[w := next.State()]);
    }

    /** The observer `activateAwaiting(tunnel:)` installs, run after a write
        to the observed tunnel's status: once that tunnel is disconnected,
        the first waiting tunnel is activated and the observation ends. */
    method AwaitedStatusChanged(answer: nat -> Attempt) returns (told: seq<StatusEvent>)
      requires Valid()
      modifies this`awaiting, Containers`status, Containers`isAttemptingActivation,
        Containers`activationAttemptId, Profiles`isEnabled
      ensures (old(awaiting) == null || old(awaiting.status) != Disconnected) ==>
        awaiting == old(awaiting) && told == [] && StatesOf(tunnels) == old(StatesOf(tunnels))
      ensures (old(awaiting) != null && old(awaiting.status) == Disconnected) ==> awaiting == null
      ensures (old(awaiting) != null && old(awaiting.status) == Disconnected
               && FirstIndexOf(Statuses(old(StatesOf(tunnels))), Waiting).None?) ==>
        told == [] && StatesOf(tunnels) == old(StatesOf(tunnels))
      ensures (old(awaiting) != null && old(awaiting.status) == Disconnected
               && FirstIndexOf(Statuses(old(StatesOf(tunnels))), Waiting).Some?) ==>
        var w := FirstIndexOf(Statuses(old(StatesOf(tunnels))), Waiting).value;
        var run := Activate(old(StatesOf(tunnels))[w], 0, None, answer);
        StatesOf(tunnels) == old(StatesOf(tunnels))[w := run.state]
        && told == EventsFor(tunnels[w], run.reports)
    {
      told := [];
      if awaiting == null || awaiting.status != Disconnected {
        return;
      }
      awaiting := null;
      if FirstIndexOf(Statuses(StatesOf(tunnels)), Waiting).Some? {
        told := ActivateFirstWaiting(answer);
      }
    }

    /** The observation ends and the first waiting tunnel is activated. */
    method ActivateFirstWaiting(answer: nat -> Attempt) returns (told: seq<StatusEvent>)
      requires Valid() && FirstIndexOf(Statuses(StatesOf(tunnels)), Waiting).Some?
      modifies this`awaiting, Containers`status, Containers`isAttemptingActivation,
        Containers`activationAttemptId, Profiles`isEnabled
      ensures
        var w := FirstIndexOf(Statuses(old(StatesOf(tunnels))), Waiting).value;
        var run := Activate(old(StatesOf(tunnels))[w], 0, None, answer);
        StatesOf(tunnels) == old(StatesOf(tunnels))[w := run.state] && awaiting == null
        && told == EventsFor(tunnels[w], run.reports)
    {
      ghost var sn := StatesOf(tunnels);
      var w := FirstIndexOf(Statuses(StatesOf(tunnels)), Waiting).value;
      awaiting := null;
      StatesAre(tunnels, sn);
      told := ActivateAt(w, tunnels[w], answer);
    }

    /** The `NEVPNStatusDidChange` handler for the session of `provider`:
        nothing unless a listed tunnel has that profile; otherwise the first
        such tunnel is handled as `NotificationOutcome` says, the status
        observer firing when it is the observed tunnel. The session's status
        is the profile's `connectionStatus`. */
    method StatusDidChange(provider: ProviderManager, answer: nat -> Attempt) returns (told: seq<StatusEvent>)
      requires Valid()
      modifies this`awaiting, Containers`status, Containers`isActivateOnDemandEnabled,
        Containers`isAttemptingActivation, Containers`activationAttemptId, Profiles`isEnabled
      ensures tunnels == old(tunnels)
      ensures old(FirstProvidedBy(tunnels, provider)).None? ==>
        told == [] && awaiting == old(awaiting) && StatesOf(tunnels) == old(StatesOf(tunnels))
      ensures old(FirstProvidedBy(tunnels, provider)).Some? ==>
        NotificationOutcome(tunnels, old(StatesOf(tunnels)), old(awaiting), old(FirstProvidedBy(tunnels, provider)).value,
                            old(provider.connectionStatus), old(provider.isOnDemandEnabled), answer)
        == ListOutcome(StatesOf(tunnels), awaiting, told)
    {
      var found := FirstProvidedBy(tunnels, provider);
      if found.None? {
        return [];
      }
      var k := found.value;
      ghost var sn, observed := StatesOf(tunnels), awaiting;
      told := NotifyAt(k, tunnels[k], answer);
      ghost var mid := StatesOf(tunnels);
      if awaiting == tunnels[k] {
        var more := AwaitedStatusChanged(answer);
        told := told + more;
      }
      NotifiedOutcome(tunnels, sn, observed, k, provider.connectionStatus, provider.isOnDemandEnabled, answer,
                      mid, StatesOf(tunnels), awaiting, told);
    }

    /** The handler on the tunnel at `k`, before any observer fires. */
    method NotifyAt(k: nat, tunnel: TunnelContainer, answer: nat -> Attempt) returns (told: seq<StatusEvent>)
      requires Valid() && k < |tunnels| && tunnels[k] == tunnel
      modifies tunnel`status, tunnel`isActivateOnDemandEnabled, tunnel`isAttemptingActivation,
        tunnel`activationAttemptId, tunnel.tunnelProvider`isEnabled
      ensures tunnels == old(tunnels)
      ensures
        var run := OnStatusChange(old(StatesOf(tunnels))[k], tunnel.tunnelProvider.connectionStatus,
                                  tunnel.tunnelProvider.isOnDemandEnabled, answer);
        StatesOf(tunnels) == old(StatesOf(tunnels))[k := run.state] && told == EventsFor(tunnel, run.reports)
    {
      ghost var sn := StatesOf(tunnels);
      Apart(tunnels, k);
      var reports, attempts := HandleStatusChange(tunnel, answer);
      told := EventsFor(tunnel, reports);
      StatesAre(tunnels, sn[k := tunnel.State()]);
    }

    /** `startDeactivation(of:)`: the tunnel stops attempting activation and,
        unless it is already disconnected or disconnecting, is deactivated:
        its session is asked to stop and the delegate told. The tunnel need
        not be in the list. */
    method StartDeactivationOf(tunnel: TunnelContainer) returns (told: seq<StatusEvent>)
      requires Valid()
      modifies tunnel`isAttemptingActivation, tunnel`status, tunnel.tunnelProvider`stopRequests
      ensures tunnel.State() == Deactivated(old(tunnel.State()))
      ensures told == EventsFor(tunnel, DeactivationReports(old(tunnel.status)))
      ensures tunnel in tunnels ==>
        var k := IndexOf(tunnels, tunnel);
        StatesOf(tunnels) == old(StatesOf(tunnels))[k := Deactivated(old(StatesOf(tunnels))[k])]
    {
      var reports;
      if tunnel in tunnels {
        reports := DeactivateAt(IndexOf(tunnels, tunnel), tunnel);
      } else {
        reports := Deactivate(tunnel);
      }
      told := EventsFor(tunnel, reports);
    }

    /** `startDeactivation(of:)` on the tunnel at `k`, before the delegate
        is told. */
    method DeactivateAt(k: nat, tunnel: TunnelContainer) returns (reports: seq<Report>)
      requires Valid() && k < |tunnels| && tunnels[k] == tunnel
      modifies tunnel`isAttemptingActivation, tunnel`status, tunnel.tunnelProvider`stopRequests
      ensures tunnel.State() == Deactivated(old(tunnel.State()))
      ensures reports == DeactivationReports(old(tunnel.status))
      ensures StatesOf(tunnels) == old(StatesOf(tunnels))[k := Deactivated(old(StatesOf(tunnels))[k])]
    {
      ghost var sn := StatesOf(tunnels);
      Apart(tunnels, k);
      reports := Deactivate(tunnel);
      StatesAre(tunnels, sn[k := Deactivated(sn[k])]);
    }

    /** The first waiting tunnel goes back to `disconnected`. */
    method ResetFirstWaiting()
      requires Valid()
      modifies Containers`status
      ensures StatesOf(tunnels) == WithStatuses(old(StatesOf(tunnels)), ResetWaiting(Statuses(old(StatesOf(tunnels)))))
    {
      ghost var sn := StatesOf(tunnels);
      WithOwnStatuses(sn, Statuses(sn));
      var w := FirstIndexOf(Statuses(StatesOf(tunnels)), Waiting);
      if w.Some? {
        Apart(tunnels, w.value);
        tunnels[w.value].status := Disconnected;
        StatesAre(tunnels, sn[w.value := sn[w.value].(status := Disconnected)]);
        WithStatusesUpdate(sn, Statuses(sn), w.value, Disconnected);
      }
    }

    /** The tunnel at `k` starts waiting for the one at `o`, which is
        observed on its behalf, as `activateAwaiting(tunnel:)` sets up. */
    method WaitFor(k: nat, tunnel: TunnelContainer, o: nat, ghost sn: seq<ContainerState>)
      requires Valid() && k < |tunnels| && o < |tunnels| && tunnels[k] == tunnel && |sn| == |tunnels|
      requires StatesOf(tunnels) == WithStatuses(sn, ResetWaiting(Statuses(sn)))
      modifies this`awaiting, tunnel`status
      ensures Valid() && tunnels == old(tunnels)
      ensures StatesOf(tunnels) == WithStatuses(sn, ResetWaiting(Statuses(sn))[k := Waiting])
      ensures awaiting == tunnels[o]
    {
      MarkWaiting(k, tunnel, o);
      WithStatusesUpdate(sn, ResetWaiting(Statuses(sn)), k, Waiting);
    }

    /** The tunnel at `k` is marked waiting and the one at `o` observed. */
    method MarkWaiting(k: nat, tunnel: TunnelContainer, o: nat)
      requires Valid() && k < |tunnels| && o < |tunnels| && tunnels[k] == tunnel
      modifies this`awaiting, tunnel`status
      ensures Valid() && tunnels == old(tunnels) && awaiting == tunnels[o]
      ensures StatesOf(tunnels) == old(StatesOf(tunnels))[k := old(StatesOf(tunnels))[k].(status := Waiting)]
    {
      ghost var before := StatesOf(tunnels);
      Apart(tunnels, k);
      tunnel.status := Waiting;
      awaiting := tunnels[o];
      StatesAre(tunnels, before[k := before[k].(status := Waiting)]);
    }

    /** The tunnel at `o`, observed for the waiting tunnel at `k`, is
        deactivated, leaving the states `mid`; its status write fires the
        observer, which activates the first waiting tunnel, `w`, before the
        deactivation is reported. */
    method HandOver(k: nat, o: nat, answer: nat -> Attempt, ghost mid: seq<ContainerState>, ghost w: nat)
      returns (told: seq<StatusEvent>)
      requires Valid() && k < |tunnels| && o < |tunnels| && k != o
      requires tunnels[k].status == Waiting && awaiting == tunnels[o]
      requires tunnels[o].status != Disconnected && tunnels[o].status != Disconnecting
      requires mid == StatesOf(tunnels)[o := Deactivated(StatesOf(tunnels)[o])]
      requires FirstIndexOf(Statuses(mid), Waiting) == Some(w)
      modifies this`awaiting, Containers`status, Containers`isAttemptingActivation,
        Containers`activationAttemptId, Profiles`isEnabled, Profiles`stopRequests
      ensures tunnels == old(tunnels)
      ensures
        var run := Activate(mid[w], 0, None, answer);
        StatesOf(tunnels) == mid[w := run.state] && awaiting == null
        && told == EventsFor(tunnels[w], run.reports) + [StatusEvent(tunnels[o], DeactivationSucceeded)]
    {
      var other := tunnels[o];
      var reports := DeactivateAt(o, other);
      assert reports == [DeactivationSucceeded];
      assert EventsFor(other, reports) == [StatusEvent(other, DeactivationSucceeded)];
      var activated := ActivateFirstWaiting(answer);
      told := activated + EventsFor(other, reports);
    }
  }
}
