/**
 * The session protocol run before every authenticated call: check the stored
 * token with the API and, only when the check fails, exchange the refresh
 * token for a new pair and persist it (`get_credentials_with_updated_token`,
 * `update_token`, `check_token_validity`).
 */
module Session {
  import opened Wrappers
  import opened Json
  import opened Responses
  import opened Credentials
  import opened Remote

  /** The refresh exchange for a document: its refresh token and client credentials. */
  function RefreshCall(d: Document): Call {
    RefreshOldToken(d.refreshToken, d.clientId, d.clientSecret)
  }

  /** Both token fields of a successful refresh reply, as text. */
  predicate HasTokenPair(body: map<string, Value>) {
    && "access_token" in body && body["access_token"].JStr?
    && "refresh_token" in body && body["refresh_token"].JStr?
  }

  /**
   * The document after a refresh reply: the new access and refresh tokens
   * replace the old ones and nothing else changes. A failed reply is the
   * user-visible error of `handle_myltt_response`; a successful reply
   * without the two tokens crashes.
   */
  function RefreshedDocument(d: Document, resp: Response): (r: Result<Document>)
    ensures r.Ok? <==> HandleMyLttResponse(resp).Ok? && HasTokenPair(resp.body)
    ensures r.Ok? ==> r.value.(token := d.token, refreshToken := d.refreshToken) == d
    ensures r.Ok? ==> JStr(r.value.token) == resp.body["access_token"]
    ensures r.Ok? ==> JStr(r.value.refreshToken) == resp.body["refresh_token"]
    ensures HandleMyLttResponse(resp).Err? ==> r == Err(HandleMyLttResponse(resp).failure)
  {
    match HandleMyLttResponse(resp)
    case Err(f) => Err(f)
    case Ok(body) =>
      if HasTokenPair(body)
      then Ok(d.(token := body["access_token"].s, refreshToken := body["refresh_token"].s))
      else Err(Crash)
  }

  /** The token check of `d`, made as call number `n` of the log, succeeds. */
  predicate TokenValid(reply: (nat, Call) -> Response, n: nat, d: Document) {
    reply(n, ValidateToken(d.token)).status == 200
  }

  /** The calls of the session step started at log position `n`: the check, and a refresh only when it fails. */
  function SessionCalls(reply: (nat, Call) -> Response, n: nat, d: Document): (calls: seq<Call>)
    ensures |calls| >= 1 && calls[0] == ValidateToken(d.token)
    ensures forall i :: 0 <= i < |calls| ==> calls[i].ValidateToken? || calls[i].RefreshOldToken?
  {
    if TokenValid(reply, n, d) then [ValidateToken(d.token)] else [ValidateToken(d.token), RefreshCall(d)]
  }

  /**
   * The document the session step hands to the command, or why it fails:
   * the loaded document when its token is valid, otherwise the refreshed
   * document, provided the refresh reply carries both tokens and the file
   * can be written.
   */
  function SessionOutcome(reply: (nat, Call) -> Response, n: nat, d: Document, writable: bool, path: string)
    : (r: Result<Document>)
    ensures r.Ok? ==> r.value.(token := d.token, refreshToken := d.refreshToken) == d
    ensures TokenValid(reply, n, d) ==> r == Ok(d)
  {
    if TokenValid(reply, n, d) then Ok(d)
    else
      var refreshed := RefreshedDocument(d, reply(n + 1, RefreshCall(d)));
      if refreshed.Ok? && !writable then Err(SaveFailure(path)) else refreshed
  }

  /**
   * A session step that refreshed and succeeded made two calls, saved the
   * file, and hands on exactly the two tokens of the refresh reply.
   */
  lemma RefreshedTokensHandedOn(reply: (nat, Call) -> Response, n: nat, d: Document, writable: bool, path: string)
    requires !TokenValid(reply, n, d) && SessionOutcome(reply, n, d, writable, path).Ok?
    ensures writable && |SessionCalls(reply, n, d)| == 2
    ensures var resp, e := reply(n + 1, RefreshCall(d)), SessionOutcome(reply, n, d, writable, path).value;
      && HandleMyLttResponse(resp).Ok?
      && JStr(e.token) == resp.body["access_token"] && JStr(e.refreshToken) == resp.body["refresh_token"]
  {
  }

  /** `check_token_validity`: the validation call succeeds. */
  method CheckTokenValidity(api: MyLtt, token: string) returns (valid: bool)
    modifies api
    ensures api.calls == old(api.calls) + [ValidateToken(token)]
    ensures valid <==> api.reply(|old(api.calls)|, ValidateToken(token)).status == 200
  {
    var resp := api.Send(ValidateToken(token));
    valid := resp.status == 200;
  }

  /** `update_token`: one refresh exchange, then the refreshed document is saved. */
  method UpdateToken(file: CredentialFile, api: MyLtt, d: Document) returns (r: Result<Document>)
    modifies file, api
    ensures api.calls == old(api.calls) + [RefreshCall(d)]
    ensures var refreshed := RefreshedDocument(d, api.reply(|old(api.calls)|, RefreshCall(d)));
      && (refreshed.Err? ==> r == refreshed && file.contents == old(file.contents))
      && (refreshed.Ok? && file.writable ==> r == refreshed && file.contents == Some(refreshed.value))
      && (refreshed.Ok? && !file.writable ==> r == Err(SaveFailure(file.path)) && file.contents == old(file.contents))
  {
    var resp := api.Send(RefreshCall(d));
    var refreshed := RefreshedDocument(d, resp);
    if refreshed.Err? {
      r := refreshed;
    } else {
      r := file.Save(refreshed.value);
    }
  }

  /**
   * `get_credentials_with_updated_token`. A valid token: the loaded document
   * comes back unchanged and no refresh call is made. An invalid one: exactly
   * one refresh call with the stored refresh token and client credentials,
   * and the refreshed document is saved and returned. Either way the file
   * afterwards differs from before at most in its two token fields.
   */
  method GetCredentialsWithUpdatedToken(file: CredentialFile, api: MyLtt) returns (r: Result<Document>)
    requires file.contents.Some?
    modifies file, api
    ensures var d := old(file.contents).value;
      var valid := api.reply(|old(api.calls)|, ValidateToken(d.token)).status == 200;
      var refreshed := RefreshedDocument(d, api.reply(|old(api.calls)| + 1, RefreshCall(d)));
      && (valid ==> api.calls == old(api.calls) + [ValidateToken(d.token)]
                    && r == Ok(d) && file.contents == old(file.contents))
      && (!valid ==> api.calls == old(api.calls) + [ValidateToken(d.token), RefreshCall(d)])
      && (!valid && refreshed.Err? ==> r == refreshed && file.contents == old(file.contents))
      && (!valid && refreshed.Ok? && file.writable ==> r == refreshed && file.contents == Some(refreshed.value))
      && (!valid && refreshed.Ok? && !file.writable ==>
            r == Err(SaveFailure(file.path)) && file.contents == old(file.contents))
    ensures var n, d := |old(api.calls)|, old(file.contents).value;
      && api.calls == old(api.calls) + SessionCalls(api.reply, n, d)
      && r == SessionOutcome(api.reply, n, d, file.writable, file.path)
    ensures file.contents.Some?
    ensures file.contents.value.(token := old(file.contents).value.token,
                                 refreshToken := old(file.contents).value.refreshToken) == old(file.contents).value
    ensures r.Ok? ==> file.contents == Some(r.value)
    ensures r.Err? ==> file.contents == old(file.contents)
  {
    var loaded := file.Load();
    var d := loaded.value;
    var valid := CheckTokenValidity(api, d.token);
    if valid {
      r := Ok(d);
    } else {
      r := UpdateToken(file, api, d);
    }
  }
}
