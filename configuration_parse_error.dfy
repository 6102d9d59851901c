/** The parser state and the error cases shared by the wg-quick parser and
    the userspace-API parser (Shared/Extentions/ConfigurationParseError.swift). */
module ConfigurationParsing {
  datatype ConfigurationParserState = InInterfaceSection | InPeerSection | NotInASection

  datatype ConfigurationParseError =
    | InvalidLine(line: string)
    | NoInterface
    | MultipleInterfaces
    | InterfaceHasNoPrivateKey
    | InterfaceHasInvalidPrivateKey(text: string)
    | InterfaceHasInvalidListenPort(text: string)
    | InterfaceHasInvalidAddress(text: string)
    | InterfaceHasInvalidDNS(text: string)
    | InterfaceHasInvalidMTU(text: string)
    | InterfaceHasUnrecognizedKey(text: string)
    | PeerHasNoPublicKey
    | PeerHasInvalidPublicKey(text: string)
    | PeerHasInvalidPreSharedKey(text: string)
    | PeerHasInvalidAllowedIP(text: string)
    | PeerHasInvalidEndpoint(text: string)
    | PeerHasInvalidPersistentKeepAlive(text: string)
    | PeerHasInvalidTransferBytes(text: string)
    | PeerHasInvalidLastHandshakeTime(text: string)
    | PeerHasUnrecognizedKey(text: string)
    | MultiplePeersWithSamePublicKey
    | MultipleEntriesForKey(text: string)
}
