/**
 * ContextHandler.ServeHTTP of cmd/server and of cmd/cards/server: how the
 * outcome of a handler is turned into what the client receives. The writes
 * themselves are I/O; the model says which of them happens.
 */
module Dispatch {
  import opened Http

  /** What ServeHTTP writes to the client. */
  datatype Written =
    | PlainError(status: int, text: string)   // http.Error(w, text, status)
    | NotFoundPage                            // http.NotFound: 404 "404 page not found"
    | Json(status: int, data: Payload)        // response.Write: the status and {"data": ...}
    | JsonError(status: int, message: string) // apierror.NewError(message, status).Write
    | Aborted(reason: string)                 // a panic ends the request; nothing further is written

  /** A status that one of the two switch statements treats specially. */
  predicate Special(status: int) {
    status == StatusBadRequest || status == StatusUnauthorized
    || status == StatusNotFound || status == StatusInternalServerError
  }

  /**
   * cmd/server's ServeHTTP: a handler error becomes a plain 500 (the error
   * text is not shown), 404 the standard not-found page, 500 a plain 500,
   * and every other status, 400 and 401 included, is written with the
   * handler's data as it is.
   */
  function ServeServer(o: Outcome): (w: Written)
    ensures o.Panicked? ==> w == Aborted(o.reason)
    ensures o.Failed? ==> w == PlainError(StatusInternalServerError, "Internal Server Error")
    ensures o.Returned? && o.response.status == StatusNotFound ==> w == NotFoundPage
    ensures o.Returned? && o.response.status == StatusInternalServerError ==>
      w == PlainError(StatusInternalServerError, "Internal Server Error")
  {
    match o
    case Panicked(reason) => Aborted(reason)
    case Failed(_) => PlainError(StatusInternalServerError, StatusText(StatusInternalServerError))
    case Returned(resp) =>
      if resp.status == StatusNotFound then NotFoundPage
      else if resp.status == StatusInternalServerError then PlainError(resp.status, StatusText(resp.status))
      else Json(resp.status, resp.data)
  }

  /** cmd/server passes a response through unchanged exactly when its status is neither 404 nor 500. */
  lemma ServerPassesThrough(o: Outcome)
    ensures ServeServer(o).Json? <==>
      o.Returned? && o.response.status != StatusNotFound && o.response.status != StatusInternalServerError
    ensures ServeServer(o).Json? ==> ServeServer(o) == Json(o.response.status, o.response.data)
  {
  }

  /** A 401 of cmd/server carries its text (me, verify and getCard put the session error there). */
  lemma ServerShowsUnauthorizedText(text: string)
    ensures ServeServer(Returned(Response(StatusUnauthorized, Text(text)))) == Json(StatusUnauthorized, Text(text))
  {
  }

  /** A handler error never reaches the client of cmd/server: any two errors look the same. */
  lemma ServerHidesErrors(e1: string, e2: string)
    ensures ServeServer(Failed(e1)) == ServeServer(Failed(e2))
  {
  }

  const PanicNotString: string := "interface conversion: interface {} is not string"
  const PanicNilError: string := "invalid memory address or nil pointer dereference"

  /**
   * cmd/cards' ServeHTTP: a handler error becomes a JSON 500 with its
   * message; 400 a JSON error whose message is the string in Data (any
   * other Data panics in the type assertion); 401 a JSON error with an
   * empty message; 404 the not-found page; 500 calls Error() on the nil
   * error and panics; any other status is written as it is.
   */
  function ServeCards(o: Outcome): (w: Written)
    ensures o.Panicked? ==> w == Aborted(o.reason)
    ensures o.Failed? ==> w == JsonError(StatusInternalServerError, o.error)
    ensures o.Returned? && o.response.status == StatusBadRequest ==>
      (if o.response.data.Text? then w == JsonError(StatusBadRequest, o.response.data.text) else w.Aborted?)
    ensures o.Returned? && o.response.status == StatusUnauthorized ==> w == JsonError(StatusUnauthorized, "")
    ensures o.Returned? && o.response.status == StatusNotFound ==> w == NotFoundPage
    ensures o.Returned? && o.response.status == StatusInternalServerError ==> w.Aborted?
    ensures o.Returned? && !Special(o.response.status) ==> w == Json(o.response.status, o.response.data)
  {
    match o
    case Panicked(reason) => Aborted(reason)
    case Failed(e) => JsonError(StatusInternalServerError, e)
    case Returned(resp) =>
      if resp.status == StatusBadRequest then
        (match resp.data
         case Text(data) => JsonError(StatusBadRequest, data)
         case _ => Aborted(PanicNotString))
      else if resp.status == StatusUnauthorized then JsonError(StatusUnauthorized, "")
      else if resp.status == StatusNotFound then NotFoundPage
      else if resp.status == StatusInternalServerError then Aborted(PanicNilError)
      else Json(resp.status, resp.data)
  }

  /** Whatever a 401 response holds, cmd/cards answers with the same empty-message error. */
  lemma CardsUnauthorizedCollapses(d1: Payload, d2: Payload)
    ensures ServeCards(Returned(Response(StatusUnauthorized, d1))) == ServeCards(Returned(Response(StatusUnauthorized, d2)))
    ensures ServeCards(Returned(Response(StatusUnauthorized, d1))).message == ""
  {
  }

  /** A handler of cmd/cards that returns status 500 without an error never gets a response written. */
  lemma CardsInternalStatusPanics(d: Payload)
    ensures ServeCards(Returned(Response(StatusInternalServerError, d))).Aborted?
  {
  }

  /** Only two kinds of outcome survive a 400 in cmd/cards: a string message, or a panic. */
  lemma CardsBadRequestNeedsString(d: Payload)
    ensures ServeCards(Returned(Response(StatusBadRequest, d))).JsonError? <==> d.Text?
  {
  }

  /**
   * The two dispatchers agree on every status neither of them treats
   * specially, and on 404; they part on 400, 401 and 500 and on errors.
   */
  lemma DispatchersAgreeOnOrdinaryStatuses(r: Response)
    ensures !Special(r.status) ==> ServeServer(Returned(r)) == ServeCards(Returned(r)) == Json(r.status, r.data)
    ensures r.status == StatusNotFound ==> ServeServer(Returned(r)) == ServeCards(Returned(r)) == NotFoundPage
    ensures r.status == StatusUnauthorized ==> ServeServer(Returned(r)) != ServeCards(Returned(r))
  {
  }
}
