/** Failure-carrying wrappers shared by every module of the model.
    The source reports every failure as a thrown `Error` whose message is a
    string, and re-throws caught errors unchanged, so a failure here is its
    message. */
module Common {

  datatype Option<+T> = None | Some(value: T) {
    function GetOr(default: T): T {
      match this
      case Some(v) => v
      case None => default
    }
  }

  /** Result of a step of the source: a value, or the message of the error it throws. */
  datatype Result<+T> = Success(value: T) | Failure(error: string)

  /** The answer of a collaborator the model cannot see (an RPC call, a
      contract call, a signer): either a value, or the message of the error
      the call throws. */
  datatype Rpc<+T> = Answer(value: T) | Threw(message: string)

  predicate StartsWith(s: string, prefix: string) {
    |prefix| <= |s| && s[..|prefix|] == prefix
  }

  predicate EndsWith(s: string, suffix: string) {
    |suffix| <= |s| && s[|s| - |suffix|..] == suffix
  }
}
