/** Failure values shared by the other modules, and the errors the modelled code returns. */
module Wrappers {

  datatype Option<+T> = None | Some(value: T) {

    function Or(default: T): T {
      match this
      case None => default
      case Some(v) => v
    }
  }

  datatype Error =
    | UnexpectedEof
    | UnsupportedProtocolVersion
    | InvalidPacketLength
    | SequenceNumberOverflow
    | FragmentBufferOverflow
    | EmptyFragment
    | InvalidCipherSuite
    | InvalidContentType
    | InvalidExtensionType
    | InvalidSniFormat
    | InvalidClientKeyExchange
    | BufferTooSmall
    | CookieTooLong
    | NotImplemented
    | MissingMandatoryMessage
    | MessageGap
    | Utf8Error
    | CipherSuiteUnset
    | CipherSuiteNoIntersection
    | NoSupportedEllipticCurves
    | NoMatchingSrtpProfile
    | NoExtendedMasterSecret
    | RequestedButNoSrtpExtension
    | CookieMismatch
    | NoCertificates
    | CertificateVerifyNoCertificate
    | NoAvailableSignatureSchemes
    | InvalidCertificate
    | BadSignature
    | ClientCertificateRequired
    | ClientCertificateNotVerified
    | VerifyDataMismatch

  datatype Result<+T> = Ok(value: T) | Err(error: Error) {

    predicate IsFailure() {
      Err?
    }

    function PropagateFailure<U>(): Result<U>
      requires Err?
    {
      Err(error)
    }

    function Extract(): T
      requires Ok?
    {
      value
    }
  }
}
