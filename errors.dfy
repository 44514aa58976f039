/**
 * The Error Envelope: every failure the adapter meets exposes a message, a code,
 * a probable cause and a suggested remedy (meshkit's Error(), GetCode, GetCause
 * and GetRemedy).
 */
module Errors {

  datatype Error =
      /** A failure a collaborator or a parser returned, already classified. */
    | Classified(code: string, message: string, cause: string, remedy: string)
      /** ErrFetchIstioVersions: the catalog entry lists no Istio version. */
    | FetchIstioVersions
      /** ErrOpInvalid: the operation name matches no handler. */
    | OpInvalid
      /** ErrIstioVet(errors.New(details)): a record istio-vet flagged. */
    | IstioVet(vetDetails: string)
      /** ErrProcessOAM(inner): a phase of OAM processing failed. */
    | ProcessOAM(inner: Error)
      /** mergeErrors(errs): the aggregate of every kubeconfig failure, none dropped. */
    | Merged(parts: seq<Error>)

  /** The code the adapter's own errors carry. The values stand in for the
      constants of istio/error.go, which is not part of this model; they are distinct. */
  function Code(e: Error): string
  {
    match e
    case Classified(code, _, _, _) => code
    case FetchIstioVersions => "ErrFetchIstioVersionsCode"
    case OpInvalid => "ErrOpInvalidCode"
    case IstioVet(_) => "ErrIstioVetCode"
    case ProcessOAM(_) => "ErrProcessOAMCode"
    case Merged(_) => "ErrMergedCode"
  }

  /** err.Error(). The texts of ErrFetchIstioVersions, ErrOpInvalid, ErrIstioVet and
      ErrProcessOAM are stand-ins, as their definitions are not part of this model: the
      ErrIstioVet text is taken to be the details it wraps and the ErrProcessOAM text that of
      the error it wraps. An aggregate joins the texts of all its parts, one per line. */
  function Message(e: Error): string
  {
    match e
    case Classified(_, message, _, _) => message
    case FetchIstioVersions => "unable to fetch istio versions"
    case OpInvalid => "invalid operation"
    case IstioVet(details) => details
    case ProcessOAM(inner) => Message(inner)
    case Merged(parts) => JoinMessages(parts)
  }

  function JoinMessages(parts: seq<Error>): string
    decreases parts
  {
    if parts == [] then ""
    else if |parts| == 1 then Message(parts[0])
    else Message(parts[0]) + "\n" + JoinMessages(parts[1..])
  }

  /** GetCause: the probable cause; the adapter's own errors carry none in this model. */
  function Cause(e: Error): string
  {
    if e.Classified? then e.cause else ""
  }

  /** GetRemedy: the suggested remediation; the adapter's own errors carry none in this model. */
  function Remedy(e: Error): string
  {
    if e.Classified? then e.remedy else ""
  }
}
