/** Errors of the Codex translation, as the gateway reports them. */
module ProtocolErrors {
  datatype ErrorKind = InvalidRequest | InvalidSignature | Bounds | Upstream | Incomplete

  datatype ProtocolError = ProtocolError(kind: ErrorKind, detail: string)

  function Invalid(detail: string): ProtocolError { ProtocolError(InvalidRequest, detail) }
  function BadSignature(detail: string): ProtocolError { ProtocolError(InvalidSignature, detail) }
  function TooLarge(detail: string): ProtocolError { ProtocolError(Bounds, detail) }
  function BadUpstream(detail: string): ProtocolError { ProtocolError(Upstream, detail) }
  function Unfinished(detail: string): ProtocolError { ProtocolError(Incomplete, detail) }
}
