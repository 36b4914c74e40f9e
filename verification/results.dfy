/** Failure-carrying values shared by every module of the model.

    The service never recovers from a failure: every exception is logged and
    re-raised to the HTTP layer. A `Result` carries either the value a call
    returned or the `Error` it raised.
 */
module Results {

  /** Python's `None` or a present value. */
  datatype Option<+T> = None | Some(value: T)

  /** The external steps one chatbot turn may take, in the order it takes
      them. A failure of any of them (SQLite, the embedding or completion
      endpoint, the vector store, the HTTP hop to the complaint endpoints, or
      a completion that is not JSON) surfaces as `Upstream(step)`. */
  datatype Step =
    | HistoryFetch
    | IntentCompletion
    | StatusCompletion
    | ComplaintFetch
    | UserDetailFetch
    | Embedding
    | VectorSearch
    | ChatCompletion
    | UserDetailInsert
    | ConversationInsert
    | ComplaintInsert

  /** What a failed request raised. */
  datatype Error =
    | Upstream(step: Step)        // an external call raised
    | KeyMissing(key: string)     // `d[key]` on a dict without `key` (KeyError)
    | NotAnObject                 // `.get` or `[key]` on a value that is not a dict
    | NotAString(field: string)   // a string field of a record given another JSON value
    | BadFormat                   // `str.format` on a malformed template (ValueError)

  datatype Result<+T> = Ok(value: T) | Err(error: Error)
}
