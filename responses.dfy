/**
 * What every remote call returns, how the client turns a reply into either
 * its JSON body or a fatal, user-visible error (`handle_myltt_response`),
 * and the ways a command can end other than normally.
 */
module Responses {
  import opened Json
  import opened Strings

  /** An HTTP reply: status code and decoded top-level JSON object. */
  datatype Response = Response(status: int, body: map<string, Value>)

  /** How a command can fail. */
  datatype Failure =
    | Fatal(message: Value)   // a ClickException: the message is printed, exit status 1
    | Aborted                 // click.Abort after a declined confirmation
    | Crash                   // an uncaught Python exception (KeyError, TypeError)
    | NoValidInput            // the user never gave an acceptable answer; the prompt would repeat forever

  datatype Result<+T> = Ok(value: T) | Err(failure: Failure)

  const UnexpectedResponse: Value := JStr("Unexpected response from server")

  /** The outcome of looking for a message in a reply body. */
  datatype Pick = Picked(message: Value) | NoMessage | TypeFault

  /**
   * `"message" in error` followed by `error["message"]`, for whatever JSON
   * value `error` is: a membership test on an object, a substring test on a
   * string, an element test on a list, and a TypeError on anything else.
   * A positive test on a string or list is followed by an indexing with a
   * string, which is a TypeError too.
   */
  function NestedMessage(error: Value): (p: Pick)
    ensures p.Picked? <==> error.JObj? && "message" in error.fields
    ensures p.Picked? ==> p.message == error.fields["message"]
    ensures error.JNull? || error.JBool? || error.JNum? ==> p == TypeFault
    ensures error.JStr? ==> (p == TypeFault <==> Contains(error.s, "message"))
    ensures error.JArr? ==> (p == TypeFault <==> JStr("message") in error.items)
  {
    match error
    case JObj(m) => if "message" in m then Picked(m["message"]) else NoMessage
    case JStr(s) => if Contains(s, "message") then TypeFault else NoMessage
    case JArr(items) => if JStr("message") in items then TypeFault else NoMessage
    case _ => TypeFault
  }

  /** The message the client picks from a reply body: top-level `message` first, then `error.message`. */
  function SelectMessage(body: map<string, Value>): (p: Pick)
    ensures "message" in body ==> p == Picked(body["message"])
    ensures "message" !in body && "error" !in body ==> p == NoMessage
    ensures p.Picked? && "message" !in body ==>
      && "error" in body && body["error"].JObj? && "message" in body["error"].fields
      && p.message == body["error"].fields["message"]
    ensures p == TypeFault ==> "message" !in body && "error" in body && !body["error"].JObj?
  {
    if "message" in body then Picked(body["message"])
    else if "error" in body then NestedMessage(body["error"])
    else NoMessage
  }

  /** The text of the fatal error raised for a non-200 reply: the picked message, unless it is falsy. */
  function ErrorMessage(p: Pick): (m: Value)
    ensures Truthy(m)
    ensures p.Picked? && Truthy(p.message) ==> m == p.message
    ensures !(p.Picked? && Truthy(p.message)) ==> m == UnexpectedResponse
  {
    if p.Picked? && Truthy(p.message) then p.message else UnexpectedResponse
  }

  /**
   * `handle_myltt_response`: the body on status 200, otherwise a fatal error
   * carrying the server's message or the generic fallback. Picking the message
   * happens first, so a malformed `error` field crashes whatever the status.
   */
  function HandleMyLttResponse(resp: Response): (r: Result<map<string, Value>>)
    ensures r.Ok? <==> resp.status == 200 && SelectMessage(resp.body) != TypeFault
    ensures r.Ok? ==> r.value == resp.body
    ensures r.Err? ==> r.failure == Crash || r.failure.Fatal?
    ensures r.Err? && r.failure.Fatal? ==> resp.status != 200 && Truthy(r.failure.message)
    ensures r.Err? ==> (r.failure == Crash <==> SelectMessage(resp.body) == TypeFault)
    ensures r.Err? && r.failure.Fatal? ==> r.failure.message == ErrorMessage(SelectMessage(resp.body))
  {
    var picked := SelectMessage(resp.body);
    if picked == TypeFault then Err(Crash)
    else if resp.status != 200 then Err(Fatal(ErrorMessage(picked)))
    else Ok(resp.body)
  }

  /** The message echoed on a successful reply, if the picked one is truthy. */
  function SuccessNotice(resp: Response): (notice: Wrappers.Option<Value>)
    ensures notice.Some? ==> resp.status == 200 && Truthy(notice.value)
    ensures notice.Some? ==> SelectMessage(resp.body) == Picked(notice.value)
    ensures resp.status == 200 && SelectMessage(resp.body).Picked? && Truthy(SelectMessage(resp.body).message)
            ==> notice.Some?
  {
    var picked := SelectMessage(resp.body);
    if resp.status == 200 && picked.Picked? && Truthy(picked.message)
    then Wrappers.Some(picked.message) else Wrappers.None
  }

  /** A truthy top-level `message` is what the user sees on failure. */
  lemma TopLevelMessageWins(resp: Response)
    requires resp.status != 200 && "message" in resp.body && Truthy(resp.body["message"])
    ensures HandleMyLttResponse(resp) == Err(Fatal(resp.body["message"]))
  {
  }

  /**
   * A falsy top-level `message` still takes precedence over `error.message`:
   * the user sees the generic fallback, not the nested message.
   */
  lemma FalsyTopLevelMessageHidesNested(resp: Response)
    requires resp.status != 200 && "message" in resp.body && !Truthy(resp.body["message"])
    ensures HandleMyLttResponse(resp) == Err(Fatal(UnexpectedResponse))
  {
  }

  /** Without any message in the body, the user sees the generic fallback. */
  lemma NoMessageFallsBack(resp: Response)
    requires resp.status != 200 && "message" !in resp.body && "error" !in resp.body
    ensures HandleMyLttResponse(resp) == Err(Fatal(UnexpectedResponse))
  {
  }

  /** A falsy `error.message` (no top-level one) also yields the generic fallback. */
  lemma FalsyNestedMessageFallsBack(resp: Response, error: map<string, Value>)
    requires resp.status != 200 && "message" !in resp.body
    requires "error" in resp.body && resp.body["error"] == JObj(error)
    requires "message" in error && !Truthy(error["message"])
    ensures HandleMyLttResponse(resp) == Err(Fatal(UnexpectedResponse))
  {
  }

  /** Without a top-level `message`, a truthy `error.message` is used. */
  lemma NestedMessageUsed(resp: Response, error: map<string, Value>)
    requires resp.status != 200 && "message" !in resp.body
    requires "error" in resp.body && resp.body["error"] == JObj(error)
    requires "message" in error && Truthy(error["message"])
    ensures HandleMyLttResponse(resp) == Err(Fatal(error["message"]))
  {
  }
}
