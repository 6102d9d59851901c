/** The local tunnel states and their derivation from the system VPN status
    (SOLARdVPNCommunityCoreiOS/Tunnel/Service/TunnelStatus.swift). */
/** The system's connection status (`NEVPNStatus`), kept apart so that its
    case names do not clash with the local ones. */
module VPNStatuses {
  datatype VPNStatus = Invalid | Disconnected | Connecting | Connected | Reasserting | Disconnecting
}

module TunnelStatuses {
  import opened Wrappers
  import V = VPNStatuses

  /** The seven local states; the last two are never reported by the system. */
  datatype TunnelStatus =
    | Disconnected
    | Connecting
    | Connected
    | Disconnecting
    | Reasserting
    | Restarting
    | Waiting

  /** The `Int` raw value: the position of the case in the declaration. */
  function RawValue(s: TunnelStatus): (r: nat)
    ensures r <= 6
  {
    match s
    case Disconnected => 0
    case Connecting => 1
    case Connected => 2
    case Disconnecting => 3
    case Reasserting => 4
    case Restarting => 5
    case Waiting => 6
  }

  /** `init(rawValue:)`. */
  function FromRawValue(n: int): (r: Option<TunnelStatus>)
    ensures r.Some? <==> 0 <= n <= 6
  {
    if n == 0 then Some(TunnelStatus.Disconnected)
    else if n == 1 then Some(TunnelStatus.Connecting)
    else if n == 2 then Some(TunnelStatus.Connected)
    else if n == 3 then Some(TunnelStatus.Disconnecting)
    else if n == 4 then Some(TunnelStatus.Reasserting)
    else if n == 5 then Some(Restarting)
    else if n == 6 then Some(Waiting)
    else None
  }

  /** Raw values are 0..6, one per case, and decode back to their case. */
  lemma RawValueRoundTrip(s: TunnelStatus, t: TunnelStatus)
    ensures FromRawValue(RawValue(s)) == Some(s)
    ensures RawValue(s) == RawValue(t) ==> s == t
  {
  }

  lemma RawValueCovers(n: nat)
    requires n <= 6
    ensures exists s :: RawValue(s) == n
  {
    assert RawValue(FromRawValue(n).value) == n;
  }

  /** `init(from:)`: each system status maps to the same-named local state,
      and `invalid` to `disconnected`. */
  function FromVPNStatus(status: V.VPNStatus): (r: TunnelStatus)
    ensures r != Restarting && r != Waiting
  {
    match status
    case Connected => TunnelStatus.Connected
    case Connecting => TunnelStatus.Connecting
    case Disconnected => TunnelStatus.Disconnected
    case Disconnecting => TunnelStatus.Disconnecting
    case Reasserting => TunnelStatus.Reasserting
    case Invalid => TunnelStatus.Disconnected
  }

  /** Only `disconnected` and `invalid` give a disconnected tunnel; every
      other status keeps its own name. */
  lemma FromVPNStatusDisconnected(status: V.VPNStatus)
    ensures FromVPNStatus(status) == TunnelStatus.Disconnected <==> (status == V.Disconnected || status == V.Invalid)
  {
  }

  /** Only `restarting` and `waiting` are not produced from a system status. */
  lemma FromVPNStatusImage(s: TunnelStatus)
    ensures (exists status :: FromVPNStatus(status) == s) <==> (s != Restarting && s != Waiting)
  {
    if s != Restarting && s != Waiting {
      var status :=
        if s == TunnelStatus.Disconnected then V.Disconnected
        else if s == TunnelStatus.Connecting then V.Connecting
        else if s == TunnelStatus.Connected then V.Connected
        else if s == TunnelStatus.Disconnecting then V.Disconnecting
        else V.Reasserting;
      assert FromVPNStatus(status) == s;
    }
  }
}
