/** The HTTP-facing vocabulary of the handlers: the status codes they answer
    with, and JavaScript's truthiness of the request fields they test with `!`. */
module Http {
  import opened Wrappers

  /** The status codes the modelled handlers answer with. */
  datatype Status = Ok | Created | BadRequest | Unauthorized | NotFound | Conflict | InternalError

  /** A text request field tested with `!field`: an absent field and the empty
      string are falsy, every other string is truthy. */
  predicate TruthyText(field: Option<string>) {
    field.Some? && field.value != ""
  }

  /** A numeric request field tested with `!field`: absent and 0 are falsy. */
  predicate TruthyNumber(field: Option<int>) {
    field.Some? && field.value != 0
  }
}
