/** The server's record helpers: dropping undefined fields before a write,
    and the success and error envelopes every response is wrapped in. */
module Helpers {
  import opened Results
  import Js

  /** `cleanUndefined(obj)`: the object without its undefined entries, each
      remaining value unchanged. */
  function CleanUndefined<K(!new), V>(obj: map<K, Option<V>>): (r: map<K, Option<V>>)
    ensures forall k :: k in r <==> k in obj && obj[k].Some?
    ensures forall k :: k in r ==> r[k] == obj[k]
  {
    map k | k in obj && obj[k].Some? :: obj[k]
  }

  /** Cleaning twice is cleaning once. */
  lemma CleanUndefinedIdempotent<K(!new), V>(obj: map<K, Option<V>>)
    ensures CleanUndefined(CleanUndefined(obj)) == CleanUndefined(obj)
  {
  }

  const DefaultSuccessMessage := "Operación exitosa"
  const UnknownErrorMessage := "Error desconocido"
  const UnknownErrorCode := "UNKNOWN_ERROR"

  datatype SuccessBody<T> = SuccessBody(success: bool, message: string, data: T)

  datatype ErrorBody = ErrorBody(success: bool, message: string, code: string)

  /** An error as the handlers see it: a message and a code, either of
      which may be missing. */
  datatype JsError = JsError(message: Option<string>, code: Option<string>)

  /** `formatSuccess(data, message)`: a successful envelope around `data`.
      The default message replaces only a missing argument, so an empty
      message is kept. */
  function FormatSuccess<T>(data: T, message: Option<string>): (r: SuccessBody<T>)
    ensures r.success && r.data == data
    ensures message.Some? ==> r.message == message.value
    ensures message.None? ==> r.message == DefaultSuccessMessage
  {
    SuccessBody(true, message.GetOr(DefaultSuccessMessage), data)
  }

  /** `formatError(error)`: a failed envelope whose message and code are
      never empty; the error's own are kept when they are not. */
  function FormatError(error: JsError): (r: ErrorBody)
    ensures !r.success
    ensures r.message != "" && r.code != ""
    ensures error.message.Some? && error.message.value != "" ==> r.message == error.message.value
    ensures error.code.Some? && error.code.value != "" ==> r.code == error.code.value
    ensures (error.message.None? || error.message.value == "") ==> r.message == UnknownErrorMessage
    ensures (error.code.None? || error.code.value == "") ==> r.code == UnknownErrorCode
  {
    ErrorBody(false, Js.OrElse(error.message, UnknownErrorMessage), Js.OrElse(error.code, UnknownErrorCode))
  }
}
