/**
 * The commands that change the account: signup, account deletion, and the
 * `service` subcommands. Each runs against the credentials file and the
 * API oracle; user answers (prompts and confirmations) are inputs, and the
 * decoded payloads of the catalog reads are inputs too.
 */
module Commands {
  import opened Wrappers
  import opened Json
  import opened Responses
  import opened Credentials
  import Remote
  import Session
  import Phone
  import Router
  import Prompts
  import ServiceSetup
  import Status
  import Subscribe

  /** The document differs from `before` at most in its two token fields. */
  predicate SameExceptTokens(after: Document, before: Document) {
    after.(token := before.token, refreshToken := before.refreshToken) == before
  }

  /**
   * Every command but `signup` runs only when the top-level callback found a
   * credentials document, which is what the commands below require.
   */
  lemma SignedUpBeforeCommands(loaded: Option<Document>, invoked: Option<string>, confirmed: bool)
    requires Router.TopLevelDispatch(CheckIfSignedUp(loaded), invoked, confirmed) == Ok(Router.RunSubcommand)
    requires invoked != Some("signup")
    ensures loaded.Some?
  {
  }

  /**
   * The calls made since `before` begin with the session step run on `d`:
   * the token check, then a refresh only when the check failed.
   */
  predicate SessionRanFirst(api: Remote.MyLtt, before: seq<Remote.Call>, d: Document)
    reads api
  {
    before + Session.SessionCalls(api.reply, |before|, d) <= api.calls
  }

  /** What the session step, started after the calls `before`, made of `d`. */
  function SessionResult(api: Remote.MyLtt, before: seq<Remote.Call>, file: CredentialFile, d: Document): Result<Document> {
    SessionAt(api.reply, |before|, file, d)
  }

  /** The last call made is `c`. */
  predicate EndsWithCall(calls: seq<Remote.Call>, c: Remote.Call) {
    |calls| > 0 && calls[|calls| - 1] == c
  }

  /** `body["result"][key]`, when the result is an object holding the key. */
  function ResultField(body: map<string, Value>, key: string): (v: Option<Value>)
    ensures v.Some? <==> "result" in body && body["result"].JObj? && key in body["result"].fields
  {
    if "result" in body && body["result"].JObj? && key in body["result"].fields
    then Some(body["result"].fields[key])
    else None
  }

  /** `str(n)` of an integer the user typed at an integer prompt. */
  function IntText(n: int): (r: string)
    ensures r != []
  {
    PyStr(JNum(n)).value
  }

  /** The handled reply to the call at position `i` of the log. */
  function Handled(reply: (nat, Remote.Call) -> Response, i: nat, c: Remote.Call): Result<map<string, Value>> {
    HandleMyLttResponse(reply(i, c))
  }

  /** What the session step started at log position `n` made of `d`. */
  function SessionAt(reply: (nat, Remote.Call) -> Response, n: nat, file: CredentialFile, d: Document): Result<Document>
  {
    Session.SessionOutcome(reply, n, d, file.writable, file.path)
  }

  /** The log position of the first call after the session step started at `n`. */
  function AfterSession(reply: (nat, Remote.Call) -> Response, n: nat, d: Document): nat
  {
    n + |Session.SessionCalls(reply, n, d)|
  }

  const InvalidNumber: Failure := Fatal(JStr("This is not a valid Libyan mobile number"))
  const NoServices: Failure := Fatal(JStr("You don't have any services yet, try to add some"))
  const NoCategory: Failure := Fatal(JStr("Couldn't get the service's category ID"))
  const DuplicateName: Failure := Fatal(JStr("You already have a service with this name"))

  /**
   * `signup`: the typed number is normalised and must be valid before any
   * call is made; then the verification, signup and token exchanges, and
   * the new document (no services yet) is saved.
   */
  method Signup(file: CredentialFile, api: Remote.MyLtt, deviceId: string, phoneInput: string, otp: int)
    returns (r: Result<Document>)
    modifies file, api
    ensures var phone := Phone.LocalForm(Phone.Cleaned(phoneInput));
      !Phone.IsValidPhoneNum(phone) ==> r == Err(InvalidNumber) && api.calls == old(api.calls)
    ensures r.Ok? ==> var phone := Phone.LocalForm(Phone.Cleaned(phoneInput));
      && Phone.IsValidPhoneNum(r.value.phoneNum) && r.value.phoneNum == phone
      && r.value.deviceId == deviceId && r.value.services == map[]
      && file.contents == Some(r.value)
      && api.calls == old(api.calls) + [
           Remote.GetVerificationCode(phone, deviceId),
           Remote.VerifyPhoneNum(IntText(otp), phone, deviceId),
           Remote.Signup(phone, deviceId),
           Remote.GetToken(r.value.clientId, r.value.clientSecret, phone, deviceId)]
    ensures r.Ok? ==> var n := |old(api.calls)|;
      && ClientOf(Handled(api.reply, n + 2, Remote.Signup(r.value.phoneNum, deviceId)))
         == Some((r.value.clientId, r.value.clientSecret))
      && var tokens := Handled(api.reply, n + 3, api.calls[n + 3]);
      tokens.Ok? && Session.HasTokenPair(tokens.value) && JStr(r.value.token) == tokens.value["access_token"]
      && JStr(r.value.refreshToken) == tokens.value["refresh_token"]
    ensures r.Err? ==> file.contents == old(file.contents)
    ensures old(api.calls) <= api.calls
    ensures r == SignupOutcome(api.reply, |old(api.calls)|, file, deviceId, phoneInput, otp)
  {
    var phone := Phone.FormatPhoneNum(phoneInput);
    if !Phone.IsValidPhoneNum(phone) {
      return Err(InvalidNumber);
    }
    ghost var n := |api.calls|;
    var client := ObtainClient(api, phone, deviceId, otp);
    if client.Err? {
      return Err(client.failure);
    }
    assert |api.calls| == n + 3;
    var (clientId, clientSecret) := client.value;
    var resp := api.Send(Remote.GetToken(clientId, clientSecret, phone, deviceId));
    var handled := HandleMyLttResponse(resp);
    if handled.Err? {
      return Err(handled.failure);
    }
    if !Session.HasTokenPair(handled.value) {
      return Err(Crash);
    }
    var d := Document(deviceId, phone, clientId, clientSecret,
                      handled.value["access_token"].s, handled.value["refresh_token"].s, map[]);
    r := file.Save(d);
  }

  /**
   * What `signup` ends with, from the replies to the calls it makes after
   * the first `n`: the invalid-number error, the first rejected reply's
   * error, a crash on a reply lacking the client credentials or the token
   * pair, the write failure, or the new document.
   */
  function SignupOutcome(reply: (nat, Remote.Call) -> Response, n: nat, file: CredentialFile, deviceId: string, phoneInput: string, otp: int)
    : Result<Document>
  {
    var phone := Phone.LocalForm(Phone.Cleaned(phoneInput));
    if !Phone.IsValidPhoneNum(phone) then Err(InvalidNumber)
    else
      var client := ClientExchange(reply, n, phone, deviceId, otp);
      if client.Err? then Err(client.failure)
      else
        var (clientId, clientSecret) := client.value;
        var tokens := Handled(reply, n + 3, Remote.GetToken(clientId, clientSecret, phone, deviceId));
        if tokens.Err? then Err(tokens.failure)
        else if !Session.HasTokenPair(tokens.value) then Err(Crash)
        else if !file.writable then Err(SaveFailure(file.path))
        else Ok(Document(deviceId, phone, clientId, clientSecret,
                         tokens.value["access_token"].s, tokens.value["refresh_token"].s, map[]))
  }

  /**
   * `signup` succeeds exactly when the number is valid, all four replies are
   * accepted, the signup reply carries the client credentials, the token
   * reply carries both tokens, and the file can be written.
   */
  lemma SignupSucceeds(reply: (nat, Remote.Call) -> Response, n: nat, file: CredentialFile, deviceId: string, phoneInput: string, otp: int)
    ensures var phone := Phone.LocalForm(Phone.Cleaned(phoneInput));
      var client := ClientOf(Handled(reply, n + 2, Remote.Signup(phone, deviceId)));
      SignupOutcome(reply, n, file, deviceId, phoneInput, otp).Ok? <==>
        && Phone.IsValidPhoneNum(phone)
        && Handled(reply, n, Remote.GetVerificationCode(phone, deviceId)).Ok?
        && Handled(reply, n + 1, Remote.VerifyPhoneNum(IntText(otp), phone, deviceId)).Ok?
        && client.Some?
        && var tokens := Handled(reply, n + 3, Remote.GetToken(client.value.0, client.value.1, phone, deviceId));
           tokens.Ok? && Session.HasTokenPair(tokens.value) && file.writable
  {
  }

  /** The first three exchanges of `signup`, from the replies to calls `n` to `n + 2`. */
  function ClientExchange(reply: (nat, Remote.Call) -> Response, n: nat, phone: string, deviceId: string, otp: int): Result<(string, string)>
  {
    var code := Handled(reply, n, Remote.GetVerificationCode(phone, deviceId));
    var verified := Handled(reply, n + 1, Remote.VerifyPhoneNum(IntText(otp), phone, deviceId));
    var signedUp := Handled(reply, n + 2, Remote.Signup(phone, deviceId));
    if code.Err? then Err(code.failure)
    else if verified.Err? then Err(verified.failure)
    else if ClientOf(signedUp).None? then Err(if signedUp.Err? then signedUp.failure else Crash)
    else Ok(ClientOf(signedUp).value)
  }

  /**
   * The client id (`str` of any scalar) and client secret (a string) in the
   * result of a handled signup reply.
   */
  function ClientOf(handled: Result<map<string, Value>>): (r: Option<(string, string)>)
    ensures r.Some? ==> handled.Ok? && ResultField(handled.value, "client_secret") == Some(JStr(r.value.1))
    ensures r.Some? ==> ResultField(handled.value, "client_id").Some?
                        && PyStr(ResultField(handled.value, "client_id").value) == Some(r.value.0)
    ensures handled.Ok? && ResultField(handled.value, "client_id").Some?
            && PyStr(ResultField(handled.value, "client_id").value).Some?
            && ResultField(handled.value, "client_secret").Some? && ResultField(handled.value, "client_secret").value.JStr?
            ==> r.Some?
  {
    if handled.Ok? then
      var id, secret := ResultField(handled.value, "client_id"), ResultField(handled.value, "client_secret");
      if id.Some? && PyStr(id.value).Some? && secret.Some? && secret.value.JStr?
      then Some((PyStr(id.value).value, secret.value.s))
      else None
    else None
  }

  /**
   * The first three exchanges of `signup`: a verification code is requested
   * and checked, then the number is signed up, whose reply carries the
   * client credentials.
   */
  method ObtainClient(api: Remote.MyLtt, phone: string, deviceId: string, otp: int)
    returns (r: Result<(string, string)>)
    modifies api
    ensures old(api.calls) <= api.calls
    ensures r.Ok? ==> var n := |old(api.calls)|;
      && api.calls == old(api.calls) + [
           Remote.GetVerificationCode(phone, deviceId),
           Remote.VerifyPhoneNum(IntText(otp), phone, deviceId),
           Remote.Signup(phone, deviceId)]
      && ClientOf(Handled(api.reply, n + 2, Remote.Signup(phone, deviceId))) == Some(r.value)
    ensures r == ClientExchange(api.reply, |old(api.calls)|, phone, deviceId, otp)
  {
    var resp := api.Send(Remote.GetVerificationCode(phone, deviceId));
    var handled := HandleMyLttResponse(resp);
    if handled.Err? {
      return Err(handled.failure);
    }
    resp := api.Send(Remote.VerifyPhoneNum(IntText(otp), phone, deviceId));
    handled := HandleMyLttResponse(resp);
    if handled.Err? {
      return Err(handled.failure);
    }
    resp := api.Send(Remote.Signup(phone, deviceId));
    var client := ClientOf(HandleMyLttResponse(resp));
    if client.None? {
      return Err(if HandleMyLttResponse(resp).Err? then HandleMyLttResponse(resp).failure else Crash);
    }
    r := Ok(client.value);
  }

  /**
   * `delete-account`: nothing happens unless confirmed; then the session is
   * refreshed, the account deleted remotely with the current token, and the
   * credentials file removed. Returns the credentials the account was
   * deleted with.
   */
  method DeleteAccount(file: CredentialFile, api: Remote.MyLtt, confirmed: bool) returns (r: Result<Document>)
    requires file.contents.Some?
    modifies file, api
    ensures !confirmed ==> r.Ok? && api.calls == old(api.calls) && file.contents == old(file.contents)
    ensures confirmed && r.Ok? ==>
      && file.contents == None
      && SameExceptTokens(r.value, old(file.contents).value)
      && EndsWithCall(api.calls, Remote.DeleteAccount(r.value.token))
    ensures confirmed ==> SessionRanFirst(api, old(api.calls), old(file.contents).value)
    ensures confirmed && r.Ok? ==> var d := old(file.contents).value;
      && SessionResult(api, old(api.calls), file, d) == Ok(r.value)
      && api.calls == old(api.calls) + Session.SessionCalls(api.reply, |old(api.calls)|, d) + [Remote.DeleteAccount(r.value.token)]
    ensures r.Err? ==> file.contents.Some? && SameExceptTokens(file.contents.value, old(file.contents).value)
    ensures r == DeleteAccountOutcome(api.reply, |old(api.calls)|, file, old(file.contents).value, confirmed)
    ensures var s := SessionAt(api.reply, |old(api.calls)|, file, old(file.contents).value);
      && (confirmed && s.Err? ==> file.contents == old(file.contents))
      && (confirmed && s.Ok? && r.Err? ==> file.contents == Some(s.value))
  {
    if !confirmed {
      return Ok(file.contents.value);
    }
    ghost var loaded, n := file.contents.value, |api.calls|;
    var session := Session.GetCredentialsWithUpdatedToken(file, api);
    if session.Err? {
      return Err(session.failure);
    }
    assert |api.calls| == AfterSession(api.reply, n, loaded);
    assert session.value.services == loaded.services;
    var d := session.value;
    var resp := api.Send(Remote.DeleteAccount(d.token));
    var handled := HandleMyLttResponse(resp);
    if handled.Err? {
      return Err(handled.failure);
    }
    file.Remove();
    r := Ok(d);
  }

  /**
   * What `delete-account` ends with, for the document `d` loaded before it
   * and the replies to the calls after the first `n`: the loaded document
   * when not confirmed, else the session's failure, the deletion reply's
   * error, or the session's document.
   */
  function DeleteAccountOutcome(reply: (nat, Remote.Call) -> Response, n: nat, file: CredentialFile, d: Document, confirmed: bool)
    : Result<Document>
  {
    var s := SessionAt(reply, n, file, d);
    if !confirmed then Ok(d)
    else if s.Err? then Err(s.failure)
    else
      var deleted := Handled(reply, AfterSession(reply, n, d), Remote.DeleteAccount(s.value.token));
      if deleted.Err? then Err(deleted.failure) else Ok(s.value)
  }

  /** One `[*] name (service type)` line of `list-all`. */
  datatype ListEntry = ListEntry(name: string, serviceType: string)

  /**
   * `list-all`: fails when there are no services; otherwise one line per
   * service, each service exactly once. The order is the map's iteration
   * order, which the model leaves unspecified.
   */
  method ListAll(file: CredentialFile) returns (r: Result<seq<ListEntry>>)
    requires file.contents.Some?
    ensures var services := file.contents.value.services;
      && (r.Err? <==> services == map[])
      && (r.Err? ==> r.failure == NoServices)
      && (r.Ok? ==> |r.value| == |services|
                    && (forall name :: name in services ==> ListEntry(name, services[name].serviceType) in r.value)
                    && (forall e :: e in r.value ==> e.name in services && e.serviceType == services[e.name].serviceType)
                    && (forall i, j :: 0 <= i < j < |r.value| ==> r.value[i].name != r.value[j].name))
  {
    var loaded := file.Load();
    var services := loaded.value.services;
    if services == map[] {
      return Err(NoServices);
    }
    var remaining := services.Keys;
    var lines: seq<ListEntry> := [];
    while remaining != {}
      invariant remaining <= services.Keys
      invariant |lines| + |remaining| == |services|
      invariant forall name :: name in services && name !in remaining ==> ListEntry(name, services[name].serviceType) in lines
      invariant forall e :: e in lines ==> e.name in services && e.name !in remaining && e.serviceType == services[e.name].serviceType
      invariant forall i, j :: 0 <= i < j < |lines| ==> lines[i].name != lines[j].name
      decreases |remaining|
    {
      var name :| name in remaining;
      lines := lines + [ListEntry(name, services[name].serviceType)];
      remaining := remaining - {name};
    }
    r := Ok(lines);
  }

  /**
   * `status`: after the session check, the lines chosen for the service's
   * information and the type of its package catalog.
   */
  method ShowStatus(file: CredentialFile, api: Remote.MyLtt, name: string,
                    info: Result<Status.ServiceInfo>, groupType: Result<string>, dumpWritten: bool)
    returns (r: Result<seq<Status.StatusLine>>)
    requires file.contents.Some? && name in file.contents.value.services
    modifies file, api
    ensures file.contents.Some? && SameExceptTokens(file.contents.value, old(file.contents).value)
    ensures r.Ok? ==> info.Ok? && groupType.Ok? && r == Status.StatusLines(name, info.value, groupType.value, dumpWritten)
    ensures api.calls == old(api.calls) + Session.SessionCalls(api.reply, |old(api.calls)|, old(file.contents).value)
    ensures r.Ok? ==> SessionResult(api, old(api.calls), file, old(file.contents).value).Ok?
    ensures info.Err? ==> r.Err?
    ensures r == StatusOutcome(api.reply, |old(api.calls)|, file, old(file.contents).value, name, info, groupType, dumpWritten)
    ensures var s := SessionAt(api.reply, |old(api.calls)|, file, old(file.contents).value);
      file.contents == if s.Ok? then Some(s.value) else old(file.contents)
  {
    ghost var loaded, n := file.contents.value, |api.calls|;
    var session := Session.GetCredentialsWithUpdatedToken(file, api);
    if session.Err? {
      return Err(session.failure);
    }
    assert |api.calls| == AfterSession(api.reply, n, loaded);
    assert session.value.services == loaded.services;
    if info.Err? {
      return Err(info.failure);
    }
    if groupType.Err? {
      return Err(groupType.failure);
    }
    r := Status.StatusLines(name, info.value, groupType.value, dumpWritten);
  }

  /**
   * What `status` ends with: the session's failure, the failure to read the
   * service information or the catalog type, or the lines shown.
   */
  function StatusOutcome(reply: (nat, Remote.Call) -> Response, n: nat, file: CredentialFile, d: Document, name: string,
                         info: Result<Status.ServiceInfo>, groupType: Result<string>, dumpWritten: bool)
    : Result<seq<Status.StatusLine>>
  {
    var s := SessionAt(reply, n, file, d);
    if s.Err? then Err(s.failure)
    else if info.Err? then Err(info.failure)
    else if groupType.Err? then Err(groupType.failure)
    else Status.StatusLines(name, info.value, groupType.value, dumpWritten)
  }

  /** The service added by `add`: its name and its record. */
  datatype Added = Added(name: string, record: ServiceRecord)

  /** The name `add` or `rename` uses, or the voucher of `top-up`: the argument when given and non-empty, else the prompted answer. */
  function GivenOrPrompted(given: Option<string>, prompted: string): (name: string)
    ensures Router.Named(given) ==> name == given.value
    ensures !Router.Named(given) ==> name == prompted
  {
    if Router.Named(given) then given.value else prompted
  }

  /** The service type chosen in `add` and the id of its package category. */
  datatype Selection = Selection(serviceType: ServiceSetup.ServiceType, categoryId: string)

  /**
   * The first steps of `add`: list the service types, take the first
   * in-range answer, and look up the category titled like the chosen type.
   */
  method SelectServiceType(types: Result<seq<ServiceSetup.ServiceType>>, typeAnswers: seq<int>,
                           categories: Result<seq<ServiceSetup.Category>>)
    returns (r: Result<Selection>)
    ensures types.Err? ==> r == Err(types.failure)
    ensures types.Ok? ==> var k := Prompts.FirstInRange(typeAnswers, 1, |types.value|);
      && (k.None? ==> r == Err(NoValidInput))
      && (k.Some? && categories.Err? ==> r == Err(categories.failure))
      && (k.Some? && categories.Ok? ==>
            var chosen := types.value[typeAnswers[k.value] - 1];
            var id := ServiceSetup.LastMatchingId(categories.value, chosen.name);
            r == if id == "" then Err(NoCategory) else Ok(Selection(chosen, id)))
    ensures r.Ok? ==> types.Ok? && categories.Ok? && r.value.categoryId != ""
    ensures r == SelectionFor(types, typeAnswers, categories)
  {
    if types.Err? {
      return Err(types.failure);
    }
    var choices, lines := ServiceSetup.ListServiceTypes(types.value);
    var choice, complaints := Prompts.ChoicePrompt(typeAnswers, 1, |choices|);
    if choice.None? {
      r := Err(NoValidInput);
    } else if categories.Err? {
      r := Err(categories.failure);
    } else {
      var serviceType := choices[choice.value - 1];
      var categoryId := ServiceSetup.FindCategoryId(categories.value, serviceType.name);
      r := if categoryId == "" then Err(NoCategory) else Ok(Selection(serviceType, categoryId));
    }
  }

  /**
   * The selection the first steps of `add` make: the catalog's failure, no
   * valid answer, the category listing's failure, no category titled like
   * the chosen type, or the chosen type with its category id.
   */
  function SelectionFor(types: Result<seq<ServiceSetup.ServiceType>>, typeAnswers: seq<int>,
                        categories: Result<seq<ServiceSetup.Category>>)
    : Result<Selection>
  {
    if types.Err? then Err(types.failure)
    else
      var k := Prompts.FirstInRange(typeAnswers, 1, |types.value|);
      if k.None? then Err(NoValidInput)
      else if categories.Err? then Err(categories.failure)
      else
        var chosen := types.value[typeAnswers[k.value] - 1];
        var id := ServiceSetup.LastMatchingId(categories.value, chosen.name);
        if id == "" then Err(NoCategory) else Ok(Selection(chosen, id))
  }

  /**
   * `add`: the user picks a service type from the catalog, its package
   * category is looked up, the name must be new, the required fields are
   * asked in id order, and the service is registered remotely with the
   * stored token (this command does not refresh it) and saved under the
   * name. Any failure leaves the file as it was.
   */
  method Add(file: CredentialFile, api: Remote.MyLtt,
             types: Result<seq<ServiceSetup.ServiceType>>, typeAnswers: seq<int>,
             categories: Result<seq<ServiceSetup.Category>>,
             givenName: Option<string>, promptedName: string,
             fields: Result<seq<ServiceSetup.RequiredField>>, answers: seq<string>)
    returns (r: Result<Added>)
    requires file.contents.Some?
    requires fields.Ok? ==> |answers| == |fields.value|
    modifies file, api
    ensures r.Err? ==> file.contents == old(file.contents)
    ensures GivenOrPrompted(givenName, promptedName) in old(file.contents).value.services ==> r.Err?
    ensures r.Ok? ==> var d := old(file.contents).value;
      && fields.Ok?
      && r.value.name == GivenOrPrompted(givenName, promptedName)
      && r.value.name !in d.services
      && file.contents == Some(d.(services := WithService(d.services, r.value.name, r.value.record)))
      && r.value.record.credentials == ServiceSetup.CredentialsFrom(ServiceSetup.SortById(fields.value), answers)
    ensures r.Ok? ==> types.Ok? && categories.Ok?
    ensures r.Ok? ==> var k := Prompts.FirstInRange(typeAnswers, 1, |types.value|);
      && k.Some?
      && r.value.record.serviceType == types.value[typeAnswers[k.value] - 1].name
      && r.value.record.packageCategoryId == ServiceSetup.LastMatchingId(categories.value, r.value.record.serviceType)
      && r.value.record.packageCategoryId != ""
    ensures r.Ok? ==> var n, k := |old(api.calls)|, Prompts.FirstInRange(typeAnswers, 1, |types.value|);
      && |api.calls| == n + 1
      && api.calls[n] == Remote.AddService(types.value[typeAnswers[k.value] - 1].id, r.value.name,
                                           r.value.record.credentials, old(file.contents).value.token)
      && ServiceIdOf(Handled(api.reply, n, api.calls[n])) == Some(r.value.record.serviceId)
    ensures |api.calls| <= |old(api.calls)| + 1
    ensures r == AddOutcome(api.reply, |old(api.calls)|, file, old(file.contents).value, types, typeAnswers, categories,
                            givenName, promptedName, fields, answers)
  {
    var selected := SelectServiceType(types, typeAnswers, categories);
    if selected.Err? {
      return Err(selected.failure);
    }
    r := Register(file, api, selected.value, givenName, promptedName, fields, answers);
  }

  /** What `add` ends with: the selection's failure, else what registering the service ends with. */
  function AddOutcome(reply: (nat, Remote.Call) -> Response, n: nat, file: CredentialFile, d: Document,
                      types: Result<seq<ServiceSetup.ServiceType>>, typeAnswers: seq<int>,
                      categories: Result<seq<ServiceSetup.Category>>,
                      givenName: Option<string>, promptedName: string,
                      fields: Result<seq<ServiceSetup.RequiredField>>, answers: seq<string>)
    : Result<Added>
    requires fields.Ok? ==> |answers| == |fields.value|
  {
    var selected := SelectionFor(types, typeAnswers, categories);
    if selected.Err? then Err(selected.failure)
    else RegisterOutcome(reply, n, file, d, selected.value, givenName, promptedName, fields, answers)
  }

  /**
   * The rest of `add` once the type and category are known: the stored
   * document is written back, the name must be new, the fields are asked in
   * id order, and the service is registered remotely and saved.
   */
  method Register(file: CredentialFile, api: Remote.MyLtt, selected: Selection,
                  givenName: Option<string>, promptedName: string,
                  fields: Result<seq<ServiceSetup.RequiredField>>, answers: seq<string>)
    returns (r: Result<Added>)
    requires file.contents.Some?
    requires fields.Ok? ==> |answers| == |fields.value|
    modifies file, api
    ensures r.Err? ==> file.contents == old(file.contents)
    ensures GivenOrPrompted(givenName, promptedName) in old(file.contents).value.services ==> r.Err?
    ensures r.Ok? ==> var d := old(file.contents).value;
      && fields.Ok?
      && r.value.name == GivenOrPrompted(givenName, promptedName)
      && r.value.name !in d.services
      && file.contents == Some(d.(services := WithService(d.services, r.value.name, r.value.record)))
      && r.value.record.credentials == ServiceSetup.CredentialsFrom(ServiceSetup.SortById(fields.value), answers)
      && r.value.record.serviceType == selected.serviceType.name
      && r.value.record.packageCategoryId == selected.categoryId
    ensures r.Ok? ==> var n := |old(api.calls)|;
      && |api.calls| == n + 1
      && api.calls[n] == Remote.AddService(selected.serviceType.id, r.value.name, r.value.record.credentials,
                                           old(file.contents).value.token)
      && ServiceIdOf(Handled(api.reply, n, api.calls[n])) == Some(r.value.record.serviceId)
    ensures |api.calls| <= |old(api.calls)| + 1
    ensures r == RegisterOutcome(api.reply, |old(api.calls)|, file, old(file.contents).value, selected,
                                 givenName, promptedName, fields, answers)
  {
    var loaded := file.Load();
    var saved := file.Save(loaded.value);
    if saved.Err? {
      return Err(saved.failure);
    }
    var d := saved.value;
    var name := GivenOrPrompted(givenName, promptedName);
    if name in d.services {
      return Err(DuplicateName);
    }
    if fields.Err? {
      return Err(fields.failure);
    }
    var sorted := ServiceSetup.SortById(fields.value);
    var creds := ServiceSetup.CollectCredentials(sorted, answers);
    var resp := api.Send(Remote.AddService(selected.serviceType.id, name, creds, d.token));
    var serviceId := ServiceIdOf(HandleMyLttResponse(resp));
    if serviceId.None? {
      return Err(if HandleMyLttResponse(resp).Err? then HandleMyLttResponse(resp).failure else Crash);
    }
    var record := ServiceRecord(selected.serviceType.name, serviceId.value, selected.categoryId, creds);
    var updated := file.Save(d.(services := WithService(d.services, name, record)));
    if updated.Err? {
      return Err(updated.failure);
    }
    r := Ok(Added(name, record));
  }

  /**
   * What registering a service ends with: the failure to write the loaded
   * document back, a name already in use, the failure to read the required
   * fields, the registration reply's error (or a crash when it carries no
   * service id), or the new service.
   */
  function RegisterOutcome(reply: (nat, Remote.Call) -> Response, n: nat, file: CredentialFile, d: Document, selected: Selection,
                           givenName: Option<string>, promptedName: string,
                           fields: Result<seq<ServiceSetup.RequiredField>>, answers: seq<string>)
    : Result<Added>
    requires fields.Ok? ==> |answers| == |fields.value|
  {
    var name := GivenOrPrompted(givenName, promptedName);
    if !file.writable then Err(SaveFailure(file.path))
    else if name in d.services then Err(DuplicateName)
    else if fields.Err? then Err(fields.failure)
    else
      var creds := ServiceSetup.CredentialsFrom(ServiceSetup.SortById(fields.value), answers);
      var registered := Handled(reply, n, Remote.AddService(selected.serviceType.id, name, creds, d.token));
      var serviceId := ServiceIdOf(registered);
      if serviceId.None? then Err(if registered.Err? then registered.failure else Crash)
      else Ok(Added(name, ServiceRecord(selected.serviceType.name, serviceId.value, selected.categoryId, creds)))
  }

  /** `str(json_data["result"]["service_id"])` of a handled reply; `None` when absent or not a scalar. */
  function ServiceIdOf(handled: Result<map<string, Value>>): (id: Option<string>)
    ensures id.Some? ==> handled.Ok? && ResultField(handled.value, "service_id").Some?
    ensures handled.Ok? && ResultField(handled.value, "service_id").Some? ==>
      (id.None? <==> ResultField(handled.value, "service_id").value.JArr? || ResultField(handled.value, "service_id").value.JObj?)
    ensures handled.Ok? && ResultField(handled.value, "service_id").Some? && ResultField(handled.value, "service_id").value.JStr? ==>
      id == Some(ResultField(handled.value, "service_id").value.s)
  {
    if handled.Ok? && ResultField(handled.value, "service_id").Some?
    then PyStr(ResultField(handled.value, "service_id").value)
    else None
  }

  /**
   * `remove`: nothing happens unless confirmed; then the service is deleted
   * remotely and only its entry leaves the map.
   */
  method Remove(file: CredentialFile, api: Remote.MyLtt, name: string, confirmed: bool) returns (r: Result<Document>)
    requires file.contents.Some? && name in file.contents.value.services
    modifies file, api
    ensures !confirmed ==> r.Ok? && api.calls == old(api.calls) && file.contents == old(file.contents)
    ensures file.contents.Some?
    ensures r.Err? ==> SameExceptTokens(file.contents.value, old(file.contents).value)
    ensures confirmed && r.Ok? ==> var d := old(file.contents).value;
      && file.contents == Some(r.value)
      && SameExceptTokens(r.value.(services := d.services), d)
      && r.value.services == WithoutService(d.services, name)
      && EndsWithCall(api.calls, Remote.DeleteService(d.services[name].serviceId, r.value.token))
    ensures confirmed ==> SessionRanFirst(api, old(api.calls), old(file.contents).value)
    ensures confirmed && r.Ok? ==> var d := old(file.contents).value;
      var s := SessionResult(api, old(api.calls), file, d);
      && s.Ok? && r.value == s.value.(services := WithoutService(d.services, name))
      && api.calls == old(api.calls) + Session.SessionCalls(api.reply, |old(api.calls)|, d)
                      + [Remote.DeleteService(d.services[name].serviceId, s.value.token)]
    ensures r == RemoveOutcome(api.reply, |old(api.calls)|, file, old(file.contents).value, name, confirmed)
    ensures var s := SessionAt(api.reply, |old(api.calls)|, file, old(file.contents).value);
      && (confirmed && s.Err? ==> file.contents == old(file.contents))
      && (confirmed && s.Ok? && r.Err? ==> file.contents == Some(s.value))
  {
    if !confirmed {
      return Ok(file.contents.value);
    }
    ghost var loaded, n := file.contents.value, |api.calls|;
    var session := Session.GetCredentialsWithUpdatedToken(file, api);
    if session.Err? {
      return Err(session.failure);
    }
    assert |api.calls| == AfterSession(api.reply, n, loaded);
    assert session.value.services == loaded.services;
    r := RemoveAfterSession(file, api, session.value, name);
  }

  /** The part of `remove` after the session step, on the document `d` it handed on. */
  method RemoveAfterSession(file: CredentialFile, api: Remote.MyLtt, d: Document, name: string) returns (r: Result<Document>)
    requires file.contents == Some(d) && name in d.services
    modifies file, api
    ensures r == RemoveStep(api.reply, |old(api.calls)|, file, d, name)
    ensures file.contents == if r.Ok? then Some(r.value) else Some(d)
    ensures api.calls == old(api.calls) + [Remote.DeleteService(d.services[name].serviceId, d.token)]
  {
    var resp := api.Send(Remote.DeleteService(d.services[name].serviceId, d.token));
    var handled := HandleMyLttResponse(resp);
    if handled.Err? {
      return Err(handled.failure);
    }
    r := file.Save(d.(services := WithoutService(d.services, name)));
  }

  /**
   * What `remove` ends with once the session handed on `d`, the deletion
   * being call `n`: the deletion reply's error, the write failure, or `d`
   * without the service.
   */
  function RemoveStep(reply: (nat, Remote.Call) -> Response, n: nat, file: CredentialFile, d: Document, name: string)
    : Result<Document>
    requires name in d.services
  {
    var deleted := Handled(reply, n, Remote.DeleteService(d.services[name].serviceId, d.token));
    if deleted.Err? then Err(deleted.failure)
    else if !file.writable then Err(SaveFailure(file.path))
    else Ok(d.(services := WithoutService(d.services, name)))
  }

  /**
   * What `remove` ends with: the loaded document when not confirmed, else
   * the session's failure, the deletion reply's error, the write failure,
   * or the session's document without the service.
   */
  function RemoveOutcome(reply: (nat, Remote.Call) -> Response, n: nat, file: CredentialFile, d: Document, name: string, confirmed: bool)
    : Result<Document>
    requires name in d.services
  {
    var s := SessionAt(reply, n, file, d);
    if !confirmed then Ok(d)
    else if s.Err? then Err(s.failure)
    else RemoveStep(reply, AfterSession(reply, n, d), file, s.value, name)
  }

  /**
   * `rename`: the new name must be unused; the service is renamed remotely
   * and its record moves, unchanged, to the new key.
   */
  method Rename(file: CredentialFile, api: Remote.MyLtt, name: string, givenNew: Option<string>, promptedNew: string)
    returns (r: Result<Document>)
    requires file.contents.Some? && name in file.contents.value.services
    modifies file, api
    ensures file.contents.Some?
    ensures r.Err? ==> SameExceptTokens(file.contents.value, old(file.contents).value)
    ensures GivenOrPrompted(givenNew, promptedNew) in old(file.contents).value.services ==> r.Err?
    ensures r.Ok? ==> var d, newName := old(file.contents).value, GivenOrPrompted(givenNew, promptedNew);
      && newName !in d.services
      && file.contents == Some(r.value)
      && SameExceptTokens(r.value.(services := d.services), d)
      && r.value.services == Renamed(d.services, name, newName)
      && EndsWithCall(api.calls, Remote.UpdateFriendlyName(newName, d.services[name].serviceId, r.value.token))
    ensures SessionRanFirst(api, old(api.calls), old(file.contents).value)
    ensures r.Ok? ==> var d, newName := old(file.contents).value, GivenOrPrompted(givenNew, promptedNew);
      var s := SessionResult(api, old(api.calls), file, d);
      && s.Ok? && r.value == s.value.(services := Renamed(d.services, name, newName))
      && api.calls == old(api.calls) + Session.SessionCalls(api.reply, |old(api.calls)|, d)
                      + [Remote.UpdateFriendlyName(newName, d.services[name].serviceId, s.value.token)]
    ensures r == RenameOutcome(api.reply, |old(api.calls)|, file, old(file.contents).value, name, givenNew, promptedNew)
    ensures var s := SessionAt(api.reply, |old(api.calls)|, file, old(file.contents).value);
      && (s.Err? ==> file.contents == old(file.contents))
      && (s.Ok? && r.Err? ==> file.contents == Some(s.value))
  {
    ghost var loaded, n := file.contents.value, |api.calls|;
    var session := Session.GetCredentialsWithUpdatedToken(file, api);
    if session.Err? {
      return Err(session.failure);
    }
    ghost var m := |api.calls|;
    assert m == AfterSession(api.reply, n, loaded);
    assert session.value.services == loaded.services;
    var newName := GivenOrPrompted(givenNew, promptedNew);
    r := RenameAfterSession(file, api, session.value, name, newName);
    assert r == RenameStep(api.reply, m, file, session.value, name, newName);
  }

  /** The part of `rename` after the session step, on the document `d` it handed on. */
  method RenameAfterSession(file: CredentialFile, api: Remote.MyLtt, d: Document, name: string, newName: string)
    returns (r: Result<Document>)
    requires file.contents == Some(d) && name in d.services
    modifies file, api
    ensures r == RenameStep(api.reply, |old(api.calls)|, file, d, name, newName)
    ensures file.contents == if r.Ok? then Some(r.value) else Some(d)
    ensures api.calls == old(api.calls)
                         + if newName in d.services then []
                           else [Remote.UpdateFriendlyName(newName, d.services[name].serviceId, d.token)]
  {
    if newName in d.services {
      return Err(DuplicateName);
    }
    var resp := api.Send(Remote.UpdateFriendlyName(newName, d.services[name].serviceId, d.token));
    var handled := HandleMyLttResponse(resp);
    if handled.Err? {
      return Err(handled.failure);
    }
    r := file.Save(d.(services := Renamed(d.services, name, newName)));
  }

  /**
   * What `rename` ends with once the session handed on `d`, the rename
   * being call `n`: a new name already in use, the rename reply's error,
   * the write failure, or `d` with the record moved to the new name.
   */
  function RenameStep(reply: (nat, Remote.Call) -> Response, n: nat, file: CredentialFile, d: Document,
                      name: string, newName: string)
    : Result<Document>
    requires name in d.services
  {
    if newName in d.services then Err(DuplicateName)
    else
      var renamed := Handled(reply, n, Remote.UpdateFriendlyName(newName, d.services[name].serviceId, d.token));
      if renamed.Err? then Err(renamed.failure)
      else if !file.writable then Err(SaveFailure(file.path))
      else Ok(d.(services := Renamed(d.services, name, newName)))
  }

  /**
   * What `rename` ends with: the session's failure, a new name already in
   * use, the rename reply's error, the write failure, or the session's
   * document with the record moved to the new name.
   */
  function RenameOutcome(reply: (nat, Remote.Call) -> Response, n: nat, file: CredentialFile, d: Document, name: string,
                         givenNew: Option<string>, promptedNew: string)
    : Result<Document>
    requires name in d.services
  {
    var s := SessionAt(reply, n, file, d);
    if s.Err? then Err(s.failure)
    else RenameStep(reply, AfterSession(reply, n, d), file, s.value, name, GivenOrPrompted(givenNew, promptedNew))
  }

  /** `top-up`: the voucher (argument, else the typed number) is redeemed for the service. */
  method TopUp(file: CredentialFile, api: Remote.MyLtt, name: string, givenVoucher: Option<string>, promptedVoucher: int)
    returns (r: Result<string>)
    requires file.contents.Some? && name in file.contents.value.services
    modifies file, api
    ensures file.contents.Some? && SameExceptTokens(file.contents.value, old(file.contents).value)
    ensures r.Ok? ==> var service := old(file.contents).value.services[name];
      && r.value == GivenOrPrompted(givenVoucher, IntText(promptedVoucher))
      && EndsWithCall(api.calls, Remote.RechargeVoucher(r.value, service.credentials, service.serviceId,
                                                        file.contents.value.token))
    ensures SessionRanFirst(api, old(api.calls), old(file.contents).value)
    ensures r.Ok? ==> var d := old(file.contents).value;
      var service, s := d.services[name], SessionResult(api, old(api.calls), file, d);
      && s.Ok?
      && api.calls == old(api.calls) + Session.SessionCalls(api.reply, |old(api.calls)|, d)
                      + [Remote.RechargeVoucher(r.value, service.credentials, service.serviceId, s.value.token)]
    ensures r == TopUpOutcome(api.reply, |old(api.calls)|, file, old(file.contents).value, name, givenVoucher, promptedVoucher)
    ensures var s := SessionAt(api.reply, |old(api.calls)|, file, old(file.contents).value);
      file.contents == if s.Ok? then Some(s.value) else old(file.contents)
  {
    ghost var loaded, n := file.contents.value, |api.calls|;
    var session := Session.GetCredentialsWithUpdatedToken(file, api);
    if session.Err? {
      return Err(session.failure);
    }
    assert |api.calls| == AfterSession(api.reply, n, loaded);
    assert session.value.services == loaded.services;
    var d := session.value;
    var service := d.services[name];
    var voucher := GivenOrPrompted(givenVoucher, IntText(promptedVoucher));
    var resp := api.Send(Remote.RechargeVoucher(voucher, service.credentials, service.serviceId, d.token));
    var handled := HandleMyLttResponse(resp);
    if handled.Err? {
      return Err(handled.failure);
    }
    r := Ok(voucher);
  }

  /** What `top-up` ends with: the session's failure, the recharge reply's error, or the voucher used. */
  function TopUpOutcome(reply: (nat, Remote.Call) -> Response, n: nat, file: CredentialFile, d: Document, name: string,
                        givenVoucher: Option<string>, promptedVoucher: int)
    : Result<string>
    requires name in d.services
  {
    var s := SessionAt(reply, n, file, d);
    var voucher := GivenOrPrompted(givenVoucher, IntText(promptedVoucher));
    var service := d.services[name];
    if s.Err? then Err(s.failure)
    else
      var recharged := Handled(reply, AfterSession(reply, n, d),
                               Remote.RechargeVoucher(voucher, service.credentials, service.serviceId, s.value.token));
      if recharged.Err? then Err(recharged.failure) else Ok(voucher)
  }

  /**
   * `auto-recharge`: shows whether automatic re-subscription is on (the
   * truthiness of the reported status) and, if the user confirms, toggles it.
   */
  method AutoRecharge(file: CredentialFile, api: Remote.MyLtt, name: string, confirmed: bool) returns (r: Result<bool>)
    requires file.contents.Some? && name in file.contents.value.services
    modifies file, api
    ensures file.contents.Some? && SameExceptTokens(file.contents.value, old(file.contents).value)
    ensures SessionRanFirst(api, old(api.calls), old(file.contents).value)
    ensures r.Ok? ==> var d := old(file.contents).value;
      var service, s := d.services[name], SessionResult(api, old(api.calls), file, d);
      var step := Session.SessionCalls(api.reply, |old(api.calls)|, d);
      && s.Ok?
      && api.calls == old(api.calls) + step
                      + [Remote.GetAutoRechargeStatus(service.serviceId, s.value.token)]
                      + (if confirmed then [Remote.ToggleAutoRechargeStatus(service.serviceId, s.value.token)] else [])
      && ReportedOn(Handled(api.reply, |old(api.calls)| + |step|, Remote.GetAutoRechargeStatus(service.serviceId, s.value.token)))
         == Some(r.value)
    ensures !confirmed ==> forall i :: |old(api.calls)| <= i < |api.calls| ==> !api.calls[i].ToggleAutoRechargeStatus?
    ensures r == AutoRechargeOutcome(api.reply, |old(api.calls)|, file, old(file.contents).value, name, confirmed)
    ensures var s := SessionAt(api.reply, |old(api.calls)|, file, old(file.contents).value);
      file.contents == if s.Ok? then Some(s.value) else old(file.contents)
  {
    ghost var loaded, n := file.contents.value, |api.calls|;
    var session := Session.GetCredentialsWithUpdatedToken(file, api);
    if session.Err? {
      return Err(session.failure);
    }
    assert |api.calls| == AfterSession(api.reply, n, loaded);
    assert session.value.services == loaded.services;
    var d := session.value;
    r := RechargeStatus(api, d.services[name].serviceId, d.token, confirmed);
  }

  /** What `auto-recharge` ends with: the session's failure, else what its remote part ends with. */
  function AutoRechargeOutcome(reply: (nat, Remote.Call) -> Response, n: nat, file: CredentialFile, d: Document, name: string, confirmed: bool)
    : Result<bool>
    requires name in d.services
  {
    var s := SessionAt(reply, n, file, d);
    if s.Err? then Err(s.failure)
    else RechargeOutcome(reply, AfterSession(reply, n, d), d.services[name].serviceId, s.value.token, confirmed)
  }

  /**
   * What the remote part of `auto-recharge` ends with, for calls from
   * position `n`: the status reply's error, a crash when it reports no
   * status, the toggle reply's error when confirmed, or the status read.
   */
  function RechargeOutcome(reply: (nat, Remote.Call) -> Response, n: nat, serviceId: string, token: string, confirmed: bool): Result<bool>
  {
    var status := Handled(reply, n, Remote.GetAutoRechargeStatus(serviceId, token));
    var toggled := Handled(reply, n + 1, Remote.ToggleAutoRechargeStatus(serviceId, token));
    if status.Err? then Err(status.failure)
    else if ReportedOn(status).None? then Err(Crash)
    else if confirmed && toggled.Err? then Err(toggled.failure)
    else Ok(ReportedOn(status).value)
  }

  /** The remote part of `auto-recharge`: read the status, then toggle it only when confirmed. */
  method RechargeStatus(api: Remote.MyLtt, serviceId: string, token: string, confirmed: bool) returns (r: Result<bool>)
    modifies api
    ensures old(api.calls) <= api.calls
    ensures !confirmed ==> forall i :: |old(api.calls)| <= i < |api.calls| ==> !api.calls[i].ToggleAutoRechargeStatus?
    ensures r.Ok? ==>
      && api.calls == old(api.calls) + [Remote.GetAutoRechargeStatus(serviceId, token)]
                      + (if confirmed then [Remote.ToggleAutoRechargeStatus(serviceId, token)] else [])
      && ReportedOn(Handled(api.reply, |old(api.calls)|, Remote.GetAutoRechargeStatus(serviceId, token))) == Some(r.value)
    ensures r == RechargeOutcome(api.reply, |old(api.calls)|, serviceId, token, confirmed)
  {
    var resp := api.Send(Remote.GetAutoRechargeStatus(serviceId, token));
    var handled := HandleMyLttResponse(resp);
    if handled.Err? {
      return Err(handled.failure);
    }
    var reported := ReportedOn(handled);
    if reported.None? {
      return Err(Crash);
    }
    var on := reported.value;
    if confirmed {
      resp := api.Send(Remote.ToggleAutoRechargeStatus(serviceId, token));
      handled := HandleMyLttResponse(resp);
      if handled.Err? {
        return Err(handled.failure);
      }
    }
    r := Ok(on);
  }

  /** `bool(json_data["result"]["auto_recharge_status"])` of a successful reply. */
  function ReportedOn(handled: Result<map<string, Value>>): (on: Option<bool>)
    ensures on.Some? <==> handled.Ok? && ResultField(handled.value, "auto_recharge_status").Some?
    ensures on.Some? ==> (on.value <==> Truthy(ResultField(handled.value, "auto_recharge_status").value))
    ensures on.Some? && ResultField(handled.value, "auto_recharge_status").value.JBool? ==>
      on.value == ResultField(handled.value, "auto_recharge_status").value.b
  {
    if handled.Ok? && ResultField(handled.value, "auto_recharge_status").Some?
    then Some(Truthy(ResultField(handled.value, "auto_recharge_status").value))
    else None
  }

  /** The package catalog of a service's category: its packages type and its groups of offers. */
  datatype Catalog = Catalog(packagesType: string, groups: seq<Subscribe.OfferGroup>)

  /**
   * The listing and choice of `subscribe`: every offer is listed under its
   * number and the first in-range answer picks the offer listed under it.
   */
  method ChooseOffer(isNumber: string -> bool, catalog: Result<Catalog>, answers: seq<int>) returns (r: Result<string>)
    ensures catalog.Err? ==> r == Err(catalog.failure)
    ensures catalog.Ok? ==>
      var entries := Subscribe.Entries(catalog.value.groups);
      var k := Prompts.FirstInRange(answers, 1, |entries|);
      && (Subscribe.Listing(isNumber, catalog.value.packagesType, entries).None? ==> r == Err(Crash))
      && (Subscribe.Listing(isNumber, catalog.value.packagesType, entries).Some? && k.None? ==> r == Err(NoValidInput))
      && (Subscribe.Listing(isNumber, catalog.value.packagesType, entries).Some? && k.Some? ==>
            r == Ok(entries[answers[k.value] - 1].offer.id))
    ensures r == OfferChoice(isNumber, catalog, answers)
  {
    if catalog.Err? {
      return Err(catalog.failure);
    }
    var listed := Subscribe.ListPackages(isNumber, catalog.value.packagesType, catalog.value.groups);
    if listed.Err? {
      return Err(listed.failure);
    }
    var choices := listed.value.choices;
    var choice, complaints := Prompts.ChoicePrompt(answers, 1, |choices|);
    if choice.None? {
      return Err(NoValidInput);
    }
    r := Ok(choices[choice.value - 1]);
  }

  /**
   * The offer `subscribe` selects: the catalog's failure, a crash when an
   * offer's price cannot be shown, no valid answer, or the id listed under
   * the first in-range answer.
   */
  function OfferChoice(isNumber: string -> bool, catalog: Result<Catalog>, answers: seq<int>): Result<string> {
    if catalog.Err? then Err(catalog.failure)
    else
      var entries := Subscribe.Entries(catalog.value.groups);
      var k := Prompts.FirstInRange(answers, 1, |entries|);
      if Subscribe.Listing(isNumber, catalog.value.packagesType, entries).None? then Err(Crash)
      else if k.None? then Err(NoValidInput)
      else Ok(entries[answers[k.value] - 1].offer.id)
  }

  /**
   * `subscribe`: the catalog's offers are listed, numbered from 1; the first
   * in-range number the user gives selects the offer listed under it, and on
   * confirmation the service is subscribed to that offer. Returns the
   * selected offer's id.
   */
  method SubscribeToOffer(file: CredentialFile, api: Remote.MyLtt, isNumber: string -> bool, name: string,
                          catalog: Result<Catalog>, answers: seq<int>, confirmed: bool)
    returns (r: Result<string>)
    requires file.contents.Some? && name in file.contents.value.services
    modifies file, api
    ensures file.contents.Some? && SameExceptTokens(file.contents.value, old(file.contents).value)
    ensures r.Ok? ==> catalog.Ok?
    ensures r.Ok? ==> var entries := Subscribe.Entries(catalog.value.groups);
      var k := Prompts.FirstInRange(answers, 1, |entries|);
      && Subscribe.Listing(isNumber, catalog.value.packagesType, entries).Some?
      && k.Some? && r.value == entries[answers[k.value] - 1].offer.id
    ensures r.Ok? && confirmed ==> var service := old(file.contents).value.services[name];
      EndsWithCall(api.calls, Remote.SubscribeToPackage(r.value, service.credentials, service.serviceId,
                                                        file.contents.value.token))
    ensures !confirmed ==> forall i :: |old(api.calls)| <= i < |api.calls| ==> !api.calls[i].SubscribeToPackage?
    ensures SessionRanFirst(api, old(api.calls), old(file.contents).value)
    ensures r.Ok? ==> var d := old(file.contents).value;
      var service, s := d.services[name], SessionResult(api, old(api.calls), file, d);
      && s.Ok?
      && api.calls == old(api.calls) + Session.SessionCalls(api.reply, |old(api.calls)|, d)
                      + (if confirmed then [Remote.SubscribeToPackage(r.value, service.credentials, service.serviceId, s.value.token)]
                         else [])
    ensures r == SubscribeOutcome(api.reply, |old(api.calls)|, file, old(file.contents).value, isNumber, name,
                                  catalog, answers, confirmed)
    ensures var s := SessionAt(api.reply, |old(api.calls)|, file, old(file.contents).value);
      file.contents == if s.Ok? then Some(s.value) else old(file.contents)
  {
    ghost var loaded, n := file.contents.value, |api.calls|;
    var session := Session.GetCredentialsWithUpdatedToken(file, api);
    if session.Err? {
      return Err(session.failure);
    }
    assert |api.calls| == AfterSession(api.reply, n, loaded);
    assert session.value.services == loaded.services;
    var d := session.value;
    r := SubscribeAfterSession(api, isNumber, d.services[name], d.token, catalog, answers, confirmed);
  }

  /** The part of `subscribe` after the session step, for the service's record and the token handed on. */
  method SubscribeAfterSession(api: Remote.MyLtt, isNumber: string -> bool, service: ServiceRecord, token: string,
                               catalog: Result<Catalog>, answers: seq<int>, confirmed: bool)
    returns (r: Result<string>)
    modifies api
    ensures r == SubscribeStep(api.reply, |old(api.calls)|, isNumber, service, token, catalog, answers, confirmed)
    ensures var chosen := OfferChoice(isNumber, catalog, answers);
      api.calls == old(api.calls)
                   + if confirmed && chosen.Ok?
                     then [Remote.SubscribeToPackage(chosen.value, service.credentials, service.serviceId, token)]
                     else []
  {
    var chosen := ChooseOffer(isNumber, catalog, answers);
    if chosen.Err? {
      return chosen;
    }
    var packageId := chosen.value;
    if confirmed {
      var resp := api.Send(Remote.SubscribeToPackage(packageId, service.credentials, service.serviceId, token));
      var handled := HandleMyLttResponse(resp);
      if handled.Err? {
        return Err(handled.failure);
      }
    }
    r := Ok(packageId);
  }

  /**
   * What `subscribe` ends with once the session handed on `token`, the
   * subscription being call `n`: the offer choice's failure, the
   * subscription reply's error when confirmed, or the chosen offer's id.
   */
  function SubscribeStep(reply: (nat, Remote.Call) -> Response, n: nat, isNumber: string -> bool, service: ServiceRecord,
                         token: string, catalog: Result<Catalog>, answers: seq<int>, confirmed: bool)
    : Result<string>
  {
    var chosen := OfferChoice(isNumber, catalog, answers);
    if chosen.Err? then chosen
    else
      var subscribed := Handled(reply, n, Remote.SubscribeToPackage(chosen.value, service.credentials, service.serviceId, token));
      if confirmed && subscribed.Err? then Err(subscribed.failure) else chosen
  }

  /**
   * What `subscribe` ends with: the session's failure, the offer choice's
   * failure, the subscription reply's error when confirmed, or the chosen
   * offer's id.
   */
  function SubscribeOutcome(reply: (nat, Remote.Call) -> Response, n: nat, file: CredentialFile, d: Document, isNumber: string -> bool,
                            name: string, catalog: Result<Catalog>, answers: seq<int>, confirmed: bool)
    : Result<string>
    requires name in d.services
  {
    var s := SessionAt(reply, n, file, d);
    if s.Err? then Err(s.failure)
    else SubscribeStep(reply, AfterSession(reply, n, d), isNumber, d.services[name], s.value.token, catalog, answers, confirmed)
  }
}
