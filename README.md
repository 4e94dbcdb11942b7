# pyltt in Dafny

A model of the decision and data-manipulation layer of `pyltt.py`. That script is a command-line client for the MyLTT account API of a Libyan mobile carrier. The model covers the following.

- **Phone numbers.** Typed numbers are normalised: Eastern Arabic digits are translated, everything but ASCII digits is dropped, and the `218` / `00218` / bare `9` prefixes are rewritten to the local leading `0`. The result is then validated.
- **Text helpers.** Unit suffixes, times without seconds, and `date time` stamps.
- **API replies.** Every reply is handled the same way. On success the body is returned. On failure the user sees a fatal error carrying the server's message, or a generic fallback.
- **Command routing.** This covers the `service` group's pre-parse rule, which lets a service name come before the subcommand, and the two group callbacks that guard every subcommand.
- **Session refresh.** The stored token is checked and, only when that check fails, one refresh exchange is made. That exchange replaces the two token fields and nothing else.
- **Credentials document.** The file's map of named services is changed by the commands `add`, `remove` and `rename`. `add` also picks a service type, looks up its category, orders the provider's required fields by id and completes answers with the field's suffix.
- **Choice prompt.** The integer prompt repeats until an answer is in range.
- **Status lines.** The `status` command selects which lines to show: quota, off-peak block, expiration lines and balance.
- **Subscribe listing.** The `subscribe` command numbers the offers from 1, contiguously across groups. The number the user picks selects the offer listed under it.
- **The commands.** `signup`, `delete-account`, `list-all`, `status`, `add`, `remove`, `rename`, `top-up`, `auto-recharge` and `subscribe` run against two objects:
  - the credentials file: the class `Credentials.CredentialFile`, whose `contents` is the document or `None`;
  - the remote API: the class `Remote.MyLtt`. It is an oracle that records every call in order and answers each from a fixed reply function of the call's position and arguments.

User input is given as parameters: typed answers as sequences, confirmations as booleans. A command's outcome is a `Result`. Its failure distinguishes four cases:
- `Fatal` is click's user-visible error;
- `Aborted` is click's abort;
- `Crash` is an uncaught Python exception, such as a missing key;
- `NoValidInput` means the user never gave an acceptable answer.

## Model

| member | source | states |
|---|---|---|
| Phone.CleanNumInput | pyltt.py:79-96 | the loop over the ten-entry translation table yields exactly `Cleaned(input)`, and the result holds only ASCII digits |
| Phone.LocalForm | pyltt.py:101-109 | inputs shorter than nine characters are unchanged, and an all-digit input stays all-digit |
| Phone.FormatPhoneNum | pyltt.py:98-111 | the result is the local form of the cleaned input and holds only ASCII digits |
| Phone.IsValidPhoneNum | pyltt.py:76-77 | a valid number has ten characters and starts with `09` |
| Phone.ValidIsLocal | pyltt.py:76-111 | formatting leaves a valid number unchanged |
| Phone.ValidAfterLocalForm | pyltt.py:76-111 | a cleaned number is valid after formatting exactly when it is one of four shapes: `09`+8 digits, `9`+8, `2189`+8, or `002189`+8 |
| Phone.LocalFormsAgree | pyltt.py:98-111 | the local, trunk-less, `218` and `00218` spellings of a valid number all format to that number |
| Phone.CleanedKeepsAsciiDigits | pyltt.py:79-96 | cleaning leaves an all-ASCII-digit string unchanged |
| Phone.CleanedTranslatesEasternDigits | pyltt.py:79-96 | cleaning maps each Eastern Arabic digit to the Western digit of the same value, position by position |
| Phone.KeepAsciiDigitsAppend | pyltt.py:96 | dropping non-digits distributes over concatenation, so the digits kept stay in their order |
| Json.NatToDecimalValue | pyltt.py:234 | the decimal rendering of a natural number denotes that number and has no leading zero |
| Phone.WrittenFormsFormat | pyltt.py:98-111 | a valid number written with `00218`, with `218` or without its leading `0` formats back to the number itself, so `00218912345678` gives `0912345678` |
| Text.AppendUnit | pyltt.py:125-126 | the value is kept as a prefix; it is unchanged exactly when it is not a number, and otherwise it is followed by exactly one space and the unit, nothing else |
| Text.RemoveSecondsFromTime | pyltt.py:128-133 | the result has at most one colon, and a time with at most one colon is unchanged |
| Text.SecondsDropped | pyltt.py:128-133 | with two colons or more, the result is the text before the second colon |
| Text.FormatDatetime | pyltt.py:135-143 | a stamp without exactly one space comes back unchanged (the try/finally fallback) |
| Text.FormatDatetimeSplitsAtSpace | pyltt.py:135-143 | a one-space stamp becomes the date with `-` replaced by `/`, then ` at `, then the time without seconds |
| Text.FormatDatetimeStamp | pyltt.py:135-143 | `YYYY-MM-DD HH:MM:SS` is shown as `YYYY/MM/DD at HH:MM` |
| Strings.JoinSplit | pyltt.py:130 | joining the pieces of a split with the same separator gives back the text |
| Strings.Split | pyltt.py:130 | a split has one more piece than there are separators, and no piece contains the separator |
| Prompts.FirstInRange | pyltt.py:157-166 | the position found is the first answer in range; with none found, no answer is in range |
| Prompts.ChoicePrompt | pyltt.py:157-166 | the accepted answer is in range and is the first in-range answer, after one complaint per rejected answer; if no answer is in range, there is no choice |
| Prompts.FirstIsAt | pyltt.py:157-166 | an in-range answer preceded only by rejected ones is the one accepted |
| Responses.NestedMessage | pyltt.py:174-175 | `error.message` is picked exactly when `error` is an object holding `message`; a string containing `message`, a list holding that string, or a null, boolean or number `error` is a type fault |
| Responses.SelectMessage | pyltt.py:171-178 | a top-level `message` always wins; with neither `message` nor `error` nothing is picked; a nested pick comes from an `error` object; a type fault needs an `error` that is not an object and no top-level `message` |
| Responses.HandleMyLttResponse | pyltt.py:168-187 | the reply is accepted, with its body, exactly on status 200 when the message lookup does not fault; a fault in the lookup is a crash whatever the status; any other non-200 reply is a fatal error carrying `ErrorMessage` of the picked message |
| Responses.ErrorMessage | pyltt.py:181-182 | the message shown is the picked message when that is truthy, and "Unexpected response from server" otherwise |
| Responses.SuccessNotice | pyltt.py:184-185 | a notice is echoed exactly on status 200 with a truthy picked message, and it is that message |
| Responses.TopLevelMessageWins | pyltt.py:171-172 | a truthy top-level `message` is the error shown |
| Responses.FalsyTopLevelMessageHidesNested | pyltt.py:171-182 | a falsy top-level `message` still wins over `error.message`, so the fallback is shown |
| Responses.NestedMessageUsed | pyltt.py:174-182 | without a top-level `message`, a truthy `error.message` is the error shown |
| Responses.NoMessageFallsBack | pyltt.py:168-182 | a non-200 reply with neither `message` nor `error` shows the fallback |
| Responses.FalsyNestedMessageFallsBack | pyltt.py:174-182 | a falsy `error.message` without a top-level one shows the fallback |
| Router.ParseArgs | pyltt.py:192-196 | the tokens are unchanged or get one `""` in front, and the placeholder is inserted exactly when the first token is a subcommand not followed by another subcommand |
| Router.ServiceArgsResolution | pyltt.py:191-196 | after pre-parsing, a lone subcommand runs with an absent service name; otherwise the first token binds as the service name and the second as the subcommand |
| Router.TopLevelDispatch | pyltt.py:202-218 | with no subcommand, the service view runs when signed up and signup otherwise; a subcommand other than `signup` runs only when signed up; signing up again runs only when confirmed, and is aborted otherwise |
| Router.ServiceDispatch | pyltt.py:275-292 | `status` is the default for a named, existing service and `list-all` the default without a name; `add` and `list-all` always run; any other subcommand runs only for a named, existing service, and the exact failure cases are stated |
| Router.ServiceExamples | pyltt.py:272-292 | `service mysvc status` runs `status` on `mysvc`; `service status` is refused for lack of a service |
| Credentials.CheckIfSignedUp | pyltt.py:151-152 | the loaded object has a `token` key exactly when the file holds a document |
| Credentials.CredentialFile.Load | pyltt.py:35-43 | loading returns what the file holds; no document stands for the empty object of a missing file |
| Credentials.CredentialFile.Remove | pyltt.py:268 | the file no longer holds a document |
| Credentials.CredentialFile.Save | pyltt.py:45-53 | a writable file now holds the document; otherwise the file is unchanged and the error names the file |
| Credentials.SaveThenLoad | pyltt.py:35-53 | loading after saving gives back the saved document (the file holds the document, not its JSON text) |
| Credentials.WithService | pyltt.py:441 | the new name is added with its record, every other entry is kept, and the size grows by one |
| Credentials.WithoutService | pyltt.py:458 | only the named entry leaves the map, and the size shrinks by one |
| Credentials.Renamed | pyltt.py:479 | the record moves unchanged from the old key to the new one, every other entry is kept, and the size is unchanged |
| Credentials.RenameRoundTrip | pyltt.py:474-479 | renaming back restores the map |
| Credentials.AddRemoveRoundTrip | pyltt.py:441 | removing a service just added restores the map |
| Credentials.RenameKeepsRecords | pyltt.py:479 | renaming keeps the set of records, including each provider service id |
| Session.RefreshedDocument | pyltt.py:59-67 | a refresh succeeds exactly when the reply is accepted and carries both tokens; then the two new tokens replace the old ones and nothing else changes; a rejected reply's error is passed on |
| Session.CheckTokenValidity | pyltt.py:55-57 | one validation call is made, and the token is valid exactly when its reply has status 200 |
| Session.UpdateToken | pyltt.py:59-67 | exactly one refresh call is made with the stored refresh token and client credentials, and the refreshed document is saved when the exchange and the write succeed |
| Session.GetCredentialsWithUpdatedToken | pyltt.py:69-74 | a valid token returns the loaded document unchanged after a single validation call; an invalid one adds exactly one refresh call; the calls made are `SessionCalls` and the result is `SessionOutcome` of the loaded document; the file afterwards differs at most in its two token fields |
| Session.SessionCalls | pyltt.py:55-74 | the session step's calls start with the token check, and hold only check and refresh calls |
| Session.SessionOutcome | pyltt.py:59-74 | the document handed on differs from the loaded one at most in its two token fields, and is the loaded one itself when the token is valid |
| Session.RefreshedTokensHandedOn | pyltt.py:59-74 | a step that refreshed and succeeded made two calls, wrote the file, and hands on exactly the two tokens of the refresh reply |
| ServiceSetup.ListServiceTypes | pyltt.py:391-394 | the choices are the catalog's types in order, and line i shows number i+1 with the i-th type's name |
| ServiceSetup.LastMatchingId | pyltt.py:402-406 | the id is that of the last category titled like the type, or empty when no category has that title |
| ServiceSetup.FindCategoryId | pyltt.py:402-406 | the lookup loop finds the last matching category's id |
| ServiceSetup.InsertById | pyltt.py:422 | inserting into an id-ordered list keeps it ordered and adds exactly that field |
| ServiceSetup.SortById | pyltt.py:422 | the fields come out ordered by id, as a permutation of the input |
| ServiceSetup.CompleteSuffix | pyltt.py:425-426 | an answer already ending with the suffix (or a field without one) is unchanged; otherwise the result is exactly the answer followed by the suffix |
| ServiceSetup.CompleteSuffixIdempotent | pyltt.py:425-426 | completing twice is completing once |
| ServiceSetup.CredentialsFrom | pyltt.py:420-427 | the credentials have exactly the fields' names as keys |
| ServiceSetup.CollectCredentials | pyltt.py:420-427 | the prompt loop stores exactly those credentials |
| ServiceSetup.CredentialsOfDistinctFields | pyltt.py:423-427 | with distinct field names, each field's value is its own answer, completed with its suffix |
| Status.StatusLines | pyltt.py:323-380 | the lines run from the header to the footer; the only failure the model has is a crash, for an internet package with a quota cadence and no balances |
| Status.QuotaLineShown | pyltt.py:331-335 | the quota line is shown exactly for an internet quota cadence whose quota amount is all digits |
| Status.OffpeakBlockShown | pyltt.py:340-343 | the off-peak block is shown exactly when the package enables off-peak terms and the balances carry off-peak usage |
| Status.BalanceLineShown | pyltt.py:376-378 | for every group type, the balance line is shown exactly when the credit amount is present and non-empty, and it shows that amount |
| Status.SharedExpirationShownOnce | pyltt.py:345-346 | an off-peak expiration equal to the quota's is not repeated |
| Status.MonthlyInternetWithoutOffpeak | pyltt.py:323-380 | a monthly internet package without off-peak terms or credit shows the header, the package, one quota line, one expiration line, a blank line and the footer |
| Subscribe.OfferDetails | pyltt.py:543-571 | detail lines are only details, none for other packages types, and internet offers start with their speed |
| Subscribe.ListPackages | pyltt.py:533-573 | the nested loop succeeds exactly when every offer has the fields its details read; its lines are the listing of all offers in order and its choices their ids |
| Subscribe.ListingNumbersOffers | pyltt.py:533-540 | the listing's titles number the offers 1, 2, … in listing order |
| Subscribe.ListingDefined | pyltt.py:543-571 | the listing exists exactly when every offer's details do |
| Subscribe.SelectionMatchesListing | pyltt.py:576-577 | number k is printed with the k-th offer's title, and `choices[k-1]` is that offer's id |
| Subscribe.NumberingContinuesAcrossGroups | pyltt.py:533-540 | the numbering of a group continues after the offers of the groups before it |
| Commands.Signup | pyltt.py:223-256 | an invalid formatted number fails before any call; success saves a document with the formatted valid number, the device id, the client credentials of the signup reply, no services and the exchanged tokens, after exactly the four signup calls in order; a failure leaves the file as it was; the result is `SignupOutcome` of the replies, which names the failure of every step: the invalid number, the first rejected reply's error, a crash on a reply lacking the client credentials or the tokens, or the write failure |
| Commands.SignupSucceeds | pyltt.py:223-256 | `signup` succeeds exactly when the number is valid, all four replies are accepted, the signup reply carries the client credentials, the token reply carries both tokens and the file can be written |
| Commands.ObtainClient | pyltt.py:232-240 | the verification request, the code check and the signup are sent in this order, and the client credentials returned are those the signup reply carries; the result is `ClientExchange` of the three replies: the first rejected reply's error, or a crash when the signup reply lacks the credentials |
| Commands.ClientOf | pyltt.py:239-240 | client credentials are found exactly when a successful reply's result holds a `client_id` with a `str` form and a string `client_secret`; the id is that `str` form and the secret that string |
| Commands.DeleteAccount | pyltt.py:261-268 | without confirmation nothing happens; with it, the session step runs first, and on success the account is deleted with the token of the document that step produced, exactly one call after it, and the file removed; the result is `DeleteAccountOutcome`: the session's failure or the deletion reply's error otherwise; after a failed session the file is as before, and after a failed deletion it keeps the refreshed tokens |
| Commands.ListAll | pyltt.py:296-306 | no services is an error; otherwise each service is listed exactly once with its type |
| Commands.ShowStatus | pyltt.py:311-380 | the only calls made are the session step's; the result is `StatusOutcome`: the session's failure, then the failure to read the service information or the catalog type, else the lines chosen for them; the file keeps the refreshed tokens whenever the session step succeeded, and is as before otherwise |
| Commands.SelectServiceType | pyltt.py:388-408 | the type chosen is the one at the first in-range answer, and its category is the last one with its name; the failures are the catalog read's, no valid answer, the category read's and no matching category, in that order (`SelectionFor`) |
| Commands.Add | pyltt.py:385-443 | an existing name is refused; success adds exactly one entry, with the chosen type, its category, the sorted and completed credentials, and the service id from the single `add_service` reply; that call uses the stored token; any failure leaves the file as it was; the result is `AddOutcome`, the selection's failure or what registering ends with |
| Commands.Register | pyltt.py:411-443 | the steps of `add` after the selection, with the same guarantees; the result is `RegisterOutcome`: the write-back failure, the name in use, the field read's failure, the registration reply's error (a crash when it carries no service id), else the new service |
| Commands.Remove | pyltt.py:448-459 | without confirmation nothing happens; with it, the session step runs first, and on success the service is deleted remotely with its id and the token that step produced, and the saved document is that step's document with only the named entry removed; the result is `RemoveOutcome`: the session's failure, the deletion reply's error or the write failure otherwise; a failure after the session keeps the refreshed tokens |
| Commands.RemoveAfterSession | pyltt.py:456-459 | one deletion call with the handed-on token; the result is `RemoveStep`, and the file holds the new document on success and the handed-on one otherwise |
| Commands.Rename | pyltt.py:465-481 | a new name already in use is refused; the session step runs first; on success the service is renamed remotely with its id and the token that step produced, and the saved document is that step's document with the record moved to the new key; the result is `RenameOutcome`: the session's failure, the name in use, the rename reply's error or the write failure otherwise; a failure after the session keeps the refreshed tokens |
| Commands.RenameAfterSession | pyltt.py:473-481 | no call for a name in use, else one rename call with the handed-on token; the result is `RenameStep`, and the file holds the new document on success and the handed-on one otherwise |
| Commands.TopUp | pyltt.py:487-497 | the session step runs first; on success the voucher (the argument, else the typed number) is redeemed for the service's id and credentials with the token that step produced, in exactly one more call; the result is `TopUpOutcome`: the session's failure or the recharge reply's error otherwise; the file keeps the refreshed tokens whenever the session step succeeded |
| Commands.AutoRecharge | pyltt.py:502-514 | the session step runs first; on success the status read uses the token that step produced and the status shown is the truthiness of its reply; the toggle call follows exactly when confirmed and is never made without confirmation; the result is `AutoRechargeOutcome`; the file keeps the refreshed tokens whenever the session step succeeded |
| Commands.RechargeStatus | pyltt.py:508-514 | one status read, then a toggle only when confirmed; the result is `RechargeOutcome`: the status reply's error, a crash when it reports no status, the toggle reply's error when confirmed, else the truthiness of the reported status |
| Commands.ServiceIdOf | pyltt.py:431 | a service id is found only in a successful reply whose result holds `service_id`; it is missing exactly when that value is a list or an object, and a string id is kept as it is |
| Commands.ReportedOn | pyltt.py:510 | a status is found exactly when a successful reply's result holds `auto_recharge_status`; it is that value's truthiness, and a boolean is reported as itself |
| Commands.ChooseOffer | pyltt.py:528-577 | the chosen offer is the one listed under the first in-range answer; the failures are the catalog read's, a crash for a malformed offer and no valid answer (`OfferChoice`) |
| Commands.SubscribeToOffer | pyltt.py:519-580 | the session step runs first; the offer listed under the first in-range answer is subscribed to on confirmation, with the token that step produced, and never without it; the result is `SubscribeOutcome`: the session's failure, the offer choice's failure, or the subscription reply's error when confirmed; the file keeps the refreshed tokens whenever the session step succeeded |
| Commands.SubscribeAfterSession | pyltt.py:576-580 | the subscription call is made exactly when confirmed and an offer was chosen; the result is `SubscribeStep` |
| Commands.SignedUpBeforeCommands | pyltt.py:205-214 | every command other than `signup` runs only with a credentials document present |

## Left out

- Network, terminal and file access are oracles or inputs. Remote calls go through `Remote.MyLtt`, prompts and confirmations are parameters, and whether the credentials file can be written is `CredentialFile.writable`. The data directory and path logic of `get_data_dir_path` and `get_credentials_path` is not modelled.
- The catalog reads are not in the call log. These are `get_services`, `get_package_categories`, `get_service_info`, `get_packages` and `get_user_service_info`. Their decoded payloads (or the failure of reading them) are inputs of the commands.
- JSON decoding and encoding are not modelled. A reply body is a map of JSON values; a body that is not an object and malformed JSON are left out.
- `is_number` is the abstract predicate `isNumber`, because it relies on Python's float parser.
- `convert_cents_to_lyd` and `convert_bytes_to_gib` are not modelled, because they use float division and rounding. Status lines carry the raw amounts.
- Status.StatusLines: the crash of `int()` in the unit conversions is not captured. An off-peak or credit amount that is not an integer crashes the source (the quota amount is guarded by `isdigit`), while the model shows the line.
- `generate_device_id` is not modelled because it is random. The device id is an input of `Commands.Signup`.
- The `phone_details.json` dump in `status` is reduced to whether the file could be written.
- Status.IsDigitText: `str.isdigit` is modelled as non-empty and all ASCII digits. Python also accepts other Unicode digits.
- Prompts.ChoicePrompt: the source's prompt loop never ends. The model reads a finite answer sequence, and running out of answers is `NoValidInput`.
- Commands.ListAll: the listing order is Python's dictionary insertion order, which a Dafny map does not have. The model states only that each service is listed exactly once.
- ServiceSetup.SortById: the stability of Python's sort is not stated, only ordering and permutation.
- Fields that the source reads without a presence test are required fields in the typed payloads. Examples are a package's name and cadence, and a credit balance's date. The model cannot represent a reply lacking them, even where the source would not read them.
- `Json.Value` numbers are integers only. JSON floats are not modelled, and neither are `str()` and truthiness applied to them.
- Commands.Signup, Session.RefreshedDocument: a client secret or token that is not a JSON string is treated as a crash. The source would store the value as it is.
- Commands.Add, Commands.Signup: a service id or client id that is a JSON array or object is treated as a crash. The source would store its Python representation.
- Commands.Signup: the verification code is the integer the user typed, rendered in decimal.
- Subscribe.OfferDetails: offer fields are text. A numeric JSON field would make the source's `append_unit` fail, and that is not modelled. The MMS price line of a phone pay-as-you-go offer shows the SMS price, as the source does.
- Exact output text and layout are not modelled: the header's `=` padding, tabs, the "Updating token..." and "Services list:" lines, and the auto-recharge prompt wording. Lines are modelled as tagged values in order.
