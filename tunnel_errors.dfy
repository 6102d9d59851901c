/** The error enums of the tunnel layer and the status-delegate reports
    (Services/Tunnel/Service/TunnelsServiceStatusDelegate.swift,
    Services/Tunnel/Model/TunnelSavingError.swift). */
module TunnelErrors {

  /** The `NEVPNError.Code` cases the activation logic distinguishes. */
  datatype VPNErrorCode =
    | ConfigurationInvalid
    | ConfigurationDisabled
    | ConnectionFailed
    | ConfigurationStale
    | ConfigurationReadWriteFailed
    | ConfigurationUnknown

  /** An `Error` handed back by the system: an `NEVPNError` with its code,
      or any other error, identified by its description. */
  datatype SystemError = VPNError(code: VPNErrorCode) | OtherError(description: string)

  /** `TunnelsServiceError`. */
  datatype TunnelsServiceError =
    | EmptyName
    | NameAlreadyExists
    | LoadTunnelsFailed(systemError: SystemError)
    | AddTunnelFailed(systemError: SystemError)
    | RemoveTunnelFailed(systemError: SystemError)

  /** `TunnelsServiceError.errorDescription`. */
  function ServiceErrorDescription(e: TunnelsServiceError): (r: string)
  {
    match e
    case EmptyName => "empty_name"
    case NameAlreadyExists => "name_already_exists"
    case LoadTunnelsFailed(_) => "load_tunnels_failed"
    case AddTunnelFailed(_) => "add_tunnel_failed"
    case RemoveTunnelFailed(_) => "remove_tunnel_failed"
  }

  /** The description names the case: two errors share a description
      exactly when they are the same case. */
  lemma ServiceErrorDescriptionNamesCase(a: TunnelsServiceError, b: TunnelsServiceError)
    ensures ServiceErrorDescription(a) == ServiceErrorDescription(b) <==>
      (a.EmptyName? && b.EmptyName?) || (a.NameAlreadyExists? && b.NameAlreadyExists?)
      || (a.LoadTunnelsFailed? && b.LoadTunnelsFailed?) || (a.AddTunnelFailed? && b.AddTunnelFailed?)
      || (a.RemoveTunnelFailed? && b.RemoveTunnelFailed?)
  {
  }

  /** `TunnelActivationError`. */
  datatype TunnelActivationError =
    | Inactive
    | StartingFailed(systemError: SystemError)
    | SavingFailed(systemError: SystemError)
    | LoadingFailed(systemError: SystemError)
    | RetryLimitReached(lastSystemError: SystemError)
    | ActivationAttemptFailed(wasOnDemandEnabled: bool)

  /** `TunnelSavingError`. */
  datatype TunnelSavingError =
    | NameRequired
    | PrivateKeyRequired
    | PrivateKeyInvalid
    | AddressInvalid
    | ListenPortInvalid
    | MTUInvalid
    | PublicKeyRequired
    | PublicKeyInvalid
    | PreSharedKeyInvalid
    | AllowedIPsInvalid
    | EndpointInvalid
    | PersistentKeepAliveInvalid
    | PublicKeyDuplicated

  /** One call of a `TunnelsServiceStatusDelegate` method, without the
      tunnel it is about. */
  datatype Report =
    | AttemptFailed(error: TunnelActivationError)
    | AttemptSucceeded
    | ActivationFailed(error: TunnelActivationError)
    | ActivationSucceeded
    | DeactivationSucceeded
}
