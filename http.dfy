/**
 * What a handler of cmd/server or cmd/cards hands back to its ContextHandler:
 * a response with a status and data, an error, or a run-time panic.
 */
module Http {
  import opened Wrappers
  import CardTable

  const StatusOK: int := 200
  const StatusCreated: int := 201
  const StatusBadRequest: int := 400
  const StatusUnauthorized: int := 401
  const StatusNotFound: int := 404
  const StatusInternalServerError: int := 500

  /** http.StatusText for the codes the handlers use ("" for any other). */
  function StatusText(code: int): (r: string)
    ensures code == StatusInternalServerError ==> r == "Internal Server Error"
    ensures code == StatusNotFound ==> r == "Not Found"
  {
    if code == StatusOK then "OK"
    else if code == StatusCreated then "Created"
    else if code == StatusBadRequest then "Bad Request"
    else if code == StatusUnauthorized then "Unauthorized"
    else if code == StatusNotFound then "Not Found"
    else if code == StatusInternalServerError then "Internal Server Error"
    else ""
  }

  /** The dynamic value in response.Data. */
  datatype Payload =
    | NoData                                     // Data left nil
    | Text(text: string)                         // a Go string
    | OneCard(card: CardTable.CardValue)         // a *card
    | MaybeCard(found: Option<CardTable.CardValue>)  // a *card that may be nil
    | Details(details: CardTable.CardDetails)         // getCard's anonymous struct
    | Other                                      // any value that is not a string

  /** response{Status, Data}. */
  datatype Response = Response(status: int, data: Payload)

  /** A handler's (resp, err) result, or the panic that unwinds it. */
  datatype Outcome =
    | Returned(response: Response)   // (resp, nil)
    | Failed(error: string)          // (nil, err), err.Error() given
    | Panicked(reason: string)       // a Go run-time panic
}
