/** What a JavaScript `throw` can carry and how an awaited promise settles. */
module JsErrors {

  /** A thrown value: an `Error` object (only its `message` is ever read) or anything
      else (`error instanceof Error` is false). */
  datatype Thrown = ErrorObject(message: string) | NonError

  /** The outcome of awaiting a promise: fulfilled with a value, or rejected with a thrown value. */
  datatype Settled<+T> = Fulfilled(value: T) | Rejected(reason: Thrown)
}
