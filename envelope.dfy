/** The JSON response envelope `{messages, data, error, meta}` written by
    `NewResponses` in the three services' helper/http.go. */
module Envelope {
  import opened Errors

  datatype Meta = Meta(page: int, totalPage: int, totalData: int)

  datatype Body<D> = Body(messages: string, data: D, error: Option<Error>, meta: Option<Meta>)

  /** A written response: the status, the JSON body, and whether the handler
      chain was aborted (only the auth service's gin variant aborts). */
  datatype Reply<D> = Reply(status: int, body: Body<D>, aborted: bool)

  /** The envelope invariant: an error is reported only with an error status
      (400 and above), pagination metadata only with a success status. */
  predicate WellFormed<D>(r: Reply<D>) {
    && (r.body.error.Some? ==> r.status >= 400)
    && (r.body.meta.Some? ==> r.status < 400)
  }

  /** helper.NewResponses of the shortener (echo) and user (fiber) services. */
  function NewResponses<D>(status: int, message: string, data: D, err: Option<Error>, meta: Option<Meta>): (r: Reply<D>)
    ensures WellFormed(r) && !r.aborted
    ensures r.status == status && r.body.messages == message && r.body.data == data
    ensures status < 400 ==> r.body.meta == meta
    ensures status >= 400 ==> r.body.error == err
  {
    if status < 400 then Reply(status, Body(message, data, None, meta), false)
    else Reply(status, Body(message, data, err, None), false)
  }

  /** helper.NewResponses of the auth service (gin): the same envelope, but an
      error status aborts the remaining handlers. */
  function NewAbortingResponses<D>(status: int, message: string, data: D, err: Option<Error>, meta: Option<Meta>): (r: Reply<D>)
    ensures WellFormed(r) && (r.aborted <==> status >= 400)
    ensures r.status == status && r.body.messages == message && r.body.data == data
    ensures status < 400 ==> r.body.meta == meta
    ensures status >= 400 ==> r.body.error == err
  {
    if status < 400 then Reply(status, Body(message, data, None, meta), false)
    else Reply(status, Body(message, data, err, None), true)
  }

  /** Both variants write the same envelope; they differ only in aborting. */
  lemma VariantsAgree<D>(status: int, message: string, data: D, err: Option<Error>, meta: Option<Meta>)
    ensures NewAbortingResponses(status, message, data, err, meta).body
         == NewResponses(status, message, data, err, meta).body
  {
  }
}
