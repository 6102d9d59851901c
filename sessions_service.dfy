/** `SessionsService` (Services/SessionsService/SessionsService.swift): starting
    and stopping sessions through the wallet, and fetching a node's
    connection data. The chain provider, the node's HTTP endpoint, URL
    parsing and base64 decoding are not modelled: what they answer is a
    parameter. */
module SessionsServices {
  import opened Wrappers
  import opened Text
  import opened WireGuardKit
  import opened SessionServiceErrors
  import opened SubscriptionsServices
  import M = TunnelManagers

  /** `startSession(on:node:)` and `stopActiveSessions()`: without a
      transaction sender the answer is `missingMnemonic`; otherwise it is the
      provider's answer as it came. */
  function WithSender<T>(hasSender: bool, reply: Result<T, AppError>): (r: Result<T, AppError>)
    ensures !hasSender ==> r == Failure(SubscriptionsFailure(MissingMnemonic))
    ensures hasSender ==> r == reply
  {
    if !hasSender then Failure(SubscriptionsFailure(MissingMnemonic)) else reply
  }

  /** `URLComponents`: the scheme and everything after it. */
  datatype URLComponents = URLComponents(scheme: Option<string>, remainder: string)

  /** The node's URL with its scheme forced to "http", or `invalidURL` when
      the text does not parse as URL components or the result is not a URL.
      `parse` is `URLComponents(string:)`; `render` is `components.string`
      followed by `URL(string:)`. */
  function RemoteURL(remoteURLString: string, parse: string -> Option<URLComponents>,
                     render: URLComponents -> Option<string>): (r: Result<string, AppError>)
    ensures r.Failure? ==> r.error == SessionsFailure(InvalidURL)
    ensures r.Success? <==> parse(remoteURLString).Some? && render(parse(remoteURLString).value.(scheme := Some("http"))).Some?
    ensures r.Success? ==> r.value == render(parse(remoteURLString).value.(scheme := Some("http"))).value
  {
    match parse(remoteURLString)
    case None => Failure(SessionsFailure(InvalidURL))
    case Some(components) =>
      match render(components.(scheme := Some("http")))
      case None => Failure(SessionsFailure(InvalidURL))
      case Some(url) => Success(url)
  }

  /** The body of the node's `createClient` request. */
  datatype CreateClientRequest = CreateClientRequest(key: string, signature: string)

  /** One `createClient` call: URL, account address, session id text and
      body. */
  datatype ClientCall = ClientCall(remoteURL: string, address: string, id: string, request: CreateClientRequest)

  /** The node's answer. */
  datatype InfoResult = InfoResult(success: bool, result: Option<string>)

  /** The completion of `createClient`: a transport failure is passed on; an
      answer that is not a success, has no result, is not base64 or does not
      decode to exactly 58 bytes is `connectionParsingFailed`; otherwise the
      bytes come back with the key the request was made for. `decode` is
      `Data(base64Encoded:)`. */
  function ConnectionResponse(reply: Result<InfoResult, AppError>, decode: string -> Option<seq<Byte>>, wgKey: Key)
    : (r: Result<(seq<Byte>, Key), AppError>)
    ensures reply.Failure? ==> r == Failure(reply.error)
    ensures reply.Success? && r.Failure? ==> r.error == SessionsFailure(ConnectionParsingFailed)
    ensures r.Success? <==> reply.Success? && reply.value.success && reply.value.result.Some?
                            && decode(reply.value.result.value).Some?
                            && |decode(reply.value.result.value).value| == M.ConnectionDataLength
    ensures r.Success? ==> r.value.0 == decode(reply.value.result.value).value && r.value.1 == wgKey
  {
    match reply
    case Failure(e) => Failure(e)
    case Success(infoResult) =>
      if !infoResult.success || infoResult.result.None? then Failure(SessionsFailure(ConnectionParsingFailed))
      else
        var data := decode(infoResult.result.value);
        if data.None? || |data.value| != M.ConnectionDataLength then Failure(SessionsFailure(ConnectionParsingFailed))
        else Success((data.value, wgKey))
  }

  /** `fetchConnectionData(remoteURLString:id:accountAddress:signature:)`.
      `wgKey` is the freshly generated private key, `publicKeyOf` the
      curve25519 derivation and `createClient` the node's answer to a call.
      `call` is the request made, if the URL was good. */
  method FetchConnectionData(remoteURLString: string, id: nat, accountAddress: string, signature: string,
                             wgKey: Key, publicKeyOf: Key -> Key,
                             parse: string -> Option<URLComponents>, render: URLComponents -> Option<string>,
                             createClient: ClientCall -> Result<InfoResult, AppError>,
                             decode: string -> Option<seq<Byte>>)
    returns (call: Option<ClientCall>, result: Result<(seq<Byte>, Key), AppError>)
    ensures call.None? <==> RemoteURL(remoteURLString, parse, render).Failure?
    ensures call.None? ==> result == Failure(SessionsFailure(InvalidURL))
    ensures call.Some? ==>
      call.value == ClientCall(RemoteURL(remoteURLString, parse, render).value, accountAddress, NatToDecimal(id),
                               CreateClientRequest(KeyToBase64(publicKeyOf(wgKey)), signature))
      && result == ConnectionResponse(createClient(call.value), decode, wgKey)
    // The key handed back is the one whose public half the node was given.
    ensures result.Success? ==>
      call.Some? && KeyToBase64(publicKeyOf(result.value.1)) == call.value.request.key
      && |result.value.0| == M.ConnectionDataLength
  {
    var components := parse(remoteURLString);
    if components.None? {
      return None, Failure(SessionsFailure(InvalidURL));
    }
    var forced := components.value.(scheme := Some("http"));
    var urlString := render(forced);
    if urlString.None? {
      return None, Failure(SessionsFailure(InvalidURL));
    }
    var c := ClientCall(urlString.value, accountAddress, NatToDecimal(id),
                        CreateClientRequest(KeyToBase64(publicKeyOf(wgKey)), signature));
    call := Some(c);
    result := ConnectionResponse(createClient(c), decode, wgKey);
  }

  /** The session id is sent in decimal, and reads back as the same id. */
  lemma SessionIdText(id: nat)
    requires id <= UInt64Max
    ensures ParseUnsigned(NatToDecimal(id), UInt64Max) == Some(id)
  {
    ParseUnsignedDecimal(id, UInt64Max);
  }
}
