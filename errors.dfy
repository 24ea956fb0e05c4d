/** Error values and the Option/Result wrappers shared by the resource handlers. */
module Errors {

  datatype Option<+T> = None | Some(value: T)

  datatype Result<+T, +E> = Success(value: T) | Failure(error: E)

  /** The service's error code for an entity that does not exist. */
  const ResourceNotFoundException := "ResourceNotFoundException"

  /** An error as a handler sees it. */
  datatype Error =
    | AwsError(code: string, message: string)    // an error raised by the remote service, with its code
    | Message(text: string)                      // an error built by the handlers themselves with a message
    | WaitTimeout(lastState: string, target: string)  // the polling helper gave up at its deadline

  /** Is `e` a service error with the given code?  (The message filter used by the handlers is
      always empty and therefore matches every message.) */
  predicate IsAwsErr(e: Error, code: string) {
    e.AwsError? && e.code == code
  }

  /** The text an error prints when it is wrapped into another message. */
  function ErrorText(e: Error): string {
    match e
    case AwsError(code, message) => code + ": " + message
    case Message(text) => text
    case WaitTimeout(last, target) =>
      "timeout while waiting for state to become '" + target + "' (last state: '" + last + "')"
  }
}
