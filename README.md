# Paid-access Telegram bot: verified model of the update handler

This project models the decision layer of a small Telegram bot that sells
an API key. For every inbound update the bot does at most one thing:

- `/start` greets the chat with "hi";
- `/buy` sends a fixed invoice (title "API KEY", payload "1", currency
  "XTR", one price `(123, "20")`);
- `/test_buy`, from the superuser only, fetches a key and sends it;
- a successful payment fetches a key from the credential backend and sends
  it to the chat as Markdown inline code.

Everything else is ignored. Failures come back as `Err("Failed <step>: …")`
strings or as the environment helper's `"<KEY> must be set"`.

Modules:

- `Wrappers` (`wrappers.dfy`): `Option`, and `Result`, which can fail, so
  `var x :- e;` reads like Rust's `?`.
- `Env` (`env.dfy`): `make_err`, `get_env`, `get_env_feature_turned_on`
  from `src/utils.rs`, with an ASCII `Lower` for `to_lowercase`. The
  process environment is a `map<string, string>`.
- `Bot` (`bot.dfy`): updates, outbound requests and actions. `Route` is the
  pure routing decision of `handle_update`. `Perform` carries out the
  chosen action against two oracles. `backend` is the credential endpoint
  behind `get_api_key`. `platform` is `Client.execute`. `HandleUpdate` is
  their composition. It yields an `Effect`: the external calls in order and
  the `Result` of `handle_update`. `HandleAll` handles a stream of updates
  one by one.
- `RouterProperties` (`router_properties.dfy`): what `handle_update`
  promises, stated with the literal strings of the source.
- `Startup` (`startup.dfy`): the required-setting check of `main` and the
  mode choice at the start of `run_bot`.

Behaviour of the code that the model keeps:

- The superuser test lower-cases only the chat's username and compares it
  with `S_USERNAME` as set. A setting with an upper-case letter therefore
  matches nobody (`MixedCaseSettingNeverMatches`).
- A failed credential fetch propagates unchanged, e.g.
  `"API_URL must be set"` or `"Failed get response: …"`. Only a failed
  send carries the handler's label.
- An empty but set `SUPER_API_KEY` passes `get_env`. Whether it parses as
  a header value is up to the HTTP library, which the model leaves to the
  `backend` oracle (stage `ParseApiKey`).
- Commands come from the platform library's bot-command entities; only
  the first is inspected.
- Both key-delivery paths request the key for the fixed user id `"1"`,
  not for the payer (`PaymentDeliversKey`, `TestBuyActsLikePayment`).
- The superuser test reads the username of the chat, not of the sender
  (src/main.rs:131-133). In a public supergroup whose lower-cased
  username equals `S_USERNAME`, every member who sends "/test_buy"
  passes. The model's `Update` carries the chat's username for this
  reason.
- `get_api_key` never looks at the HTTP status (src/main.rs:65-74). The
  body of an error response is delivered as the key. In the model any
  `Body` reply of the backend becomes the key.

## Model

| member | source | states |
|---|---|---|
| Env.MakeErr | src/utils.rs:3-5 | the message is "Failed ", the process label, ": ", then the error text, with the matching length |
| Env.MakeErrInjective | src/utils.rs:3-5 | with colon-free labels, equal messages have the same label and the same error text |
| Env.GetEnv | src/utils.rs:7-9 | Ok exactly when the key is set, holding its value; otherwise the error "<key> must be set" |
| Env.MissingMessageInjective | src/utils.rs:8 | two "must be set" errors are equal only for the same key |
| Env.Lower | src/utils.rs:14 | same length, each character lower-cased (ASCII letters only) |
| Env.LowerIdempotent | src/utils.rs:14 | lower-casing twice equals lower-casing once |
| Env.FeatureTurnedOn | src/utils.rs:11-18 | a flag that is on is set, its value is 1 to 4 characters long and holds no blank (no trimming) |
| Env.FeatureUnsetIsOff | src/utils.rs:11-17 | an unset flag is off |
| Env.FeatureSetIff | src/utils.rs:12-14 | a set flag is on exactly when its lower-cased value is one of "ok", "1", "yes", "y", "true" |
| Env.FeatureCaseInsensitive | src/utils.rs:12-14 | a value and its lower-cased form switch the flag the same way |
| Env.FeatureAcceptsAnyCase | src/utils.rs:13-14 | "TRUE", "Yes" and "Y" switch the flag on |
| Env.FeatureRejectsOthers | src/utils.rs:13-14 | " true", "" and "no" leave the flag off |
| Bot.KeyText | src/main.rs:95 | the credential text is "Your API KEY:\n\n", a backtick, the key verbatim and a closing backtick |
| Bot.IsSuperuser | src/main.rs:131-136 | a superuser has a username, `S_USERNAME` is set, of the same length and without upper-case letters |
| Bot.Route | src/main.rs:127-159 | an action always targets the update's own chat; key deliveries use user id "1"; a test-buy delivery happens only for the superuser |
| Bot.FetchApiKey | src/main.rs:41-75 | no request unless `SUPER_API_KEY` and `API_URL` are both set, else the "must be set" error of the first missing one (`SUPER_API_KEY` first); otherwise exactly one use of the credential backend (client build, header parsing, POST to `API_URL` authorised by `SUPER_API_KEY`) for the given user; the key is the reply's body, a failure is "Failed <step>: …" |
| Bot.Send | src/main.rs:33-36 | exactly one execute of the request; Ok exactly when the platform delivered it, otherwise "Failed <label>: …" |
| Bot.Perform | src/main.rs:77-125 | no call and Ok for no action; at most a fetch then a send; a fetch only for a key delivery; every send to the action's chat; no send after a failed fetch |
| Bot.HandleUpdate | src/main.rs:127-159 | no call and Ok for a non-message update; at most one fetch then at most one send; every send to the update's own chat; no send after a failed fetch |
| Bot.HandleAll | src/main.rs:11-21 | one result per update, each equal to handling that update alone with its own backend and platform replies (no state, a failure does not stop later updates) |
| RouterProperties.SuperuserIff | src/main.rs:131-136 | superuser exactly when the chat has a username, `S_USERNAME` is set and the lower-cased username equals it |
| RouterProperties.MixedCaseSettingNeverMatches | src/main.rs:131-136 | an `S_USERNAME` holding an upper-case letter makes nobody superuser |
| RouterProperties.SuperuserIgnoresUsernameCase | src/main.rs:131-136 | usernames equal up to case have the same status |
| RouterProperties.StartGreets | src/main.rs:77-89 | first command "/start": exactly one send of "hi", plain, to the same chat; a rejected send is "Failed send start: …" |
| RouterProperties.BuyInvoices | src/main.rs:23-39 | first command "/buy": exactly one invoice with the fixed fields to the same chat, for any user; a rejected send is "Failed send invoice: …" |
| RouterProperties.TestBuyDeniedSilently | src/main.rs:144-145 | first command "/test_buy" without superuser: no call and Ok |
| RouterProperties.FirstCommandOnly | src/main.rs:139-141 | two texts with the same first bot command are handled identically |
| RouterProperties.UnknownCommandIgnored | src/main.rs:139-147 | no bot command, or an unrecognised first one: no call and Ok |
| RouterProperties.OtherUpdatesIgnored | src/main.rs:152-158 | non-message updates and other message kinds: no call and Ok |
| RouterProperties.PaymentDeliversKey | src/main.rs:91-108 | a payment reads `SUPER_API_KEY` then `API_URL` (a missing one is the error, no call); otherwise it fetches for user "1" and only on success sends the key message, Markdown, to the same chat; the fetch error propagates as is; a rejected send is "Failed send api key: …" |
| RouterProperties.PaymentContentsIgnored | src/main.rs:149-151 | two payments in the same chat are handled identically whatever they contain |
| RouterProperties.TestBuyActsLikePayment | src/main.rs:110-125 | the superuser's "/test_buy" makes the same calls as a payment; results differ only in the "test buy" label of a failed send |
| RouterProperties.FailuresNameTheirStep | src/main.rs:23-125 | the errors of different steps (four sends, five fetch stages) are never equal |
| RouterProperties.DuplicatePaymentFetchesTwice | src/main.rs:15-21 | the same payment delivered twice fetches the same request twice; each delivery sends the key of its own reply, or nothing if its fetch failed |
| RouterProperties.ScenarioStart | src/main.rs:142 | "/start" in chat 7 sends "hi" to chat 7 |
| RouterProperties.ScenarioTestBuy | src/main.rs:144 | superuser "root" with backend key "SECRET123": the fetch, then "Your API KEY:\n\n`SECRET123`" as Markdown to chat 7 |
| Startup.FirstMissing | src/main.rs:202-205 | None exactly when every key is set; otherwise an unset key all of whose predecessors are set |
| Startup.CheckRequired | src/main.rs:202-205 | Ok exactly when all four required settings are set; otherwise the "must be set" message of one that is unset |
| Startup.CheckRequiredReportsFirstMissing | src/main.rs:202-205 | `main` succeeds exactly when all four settings are set, else fails with "<first missing> must be set" |
| Startup.LaunchMode | src/main.rs:161-172 | Ok exactly when the four required settings are set and, if `WEBHOOK_FEATURE` is on, `WEBHOOK_ADDRESS` too; webhook mode uses that address; every error is the "must be set" message of an unset key |
| Startup.LaunchModeDecision | src/main.rs:161-194 | a missing required setting wins; then `WEBHOOK_FEATURE` alone picks webhook or long polling, and only webhook mode requires `WEBHOOK_ADDRESS` |

## Left out

- Env.GetEnv: the environment map holds only variables whose values are valid Unicode. `std::env::var` also fails for a variable that is set to a non-Unicode value, and the source then reports "<key> must be set" although the key is set. The model cannot express such a value.
- Bot.FetchApiKey: a `Fetch` call stands for one use of the credential backend as a whole. It is recorded even when the client build or a header parse fails before anything is POSTed (src/main.rs:45-53).
- Env.Lower: models `to_lowercase` on ASCII letters only. Other characters are left unchanged, so non-ASCII usernames and flag values are not lower-cased as Rust would do it.
- `Client.execute` is the `platform` oracle. The send, the invoice, `SetWebhook`, `DeleteWebhook`, the `WebhookServer` and `LongPoll` loops are network I/O through a library outside the model.
- The HTTP exchange of `get_api_key` (src/main.rs:45-72) is the `backend` oracle. That covers the client build, the header parsing and the POST with its body read. The oracle returns either the body or the failing stage with its error text. The model keeps the two settings read before the request and the labels of the stages. It does not model the JSON serialization of the body or the order of the stages inside the request.
- The `Debug` rendering of foreign errors is an opaque string. So is the `error!` log line of `Handler.handle`, and `tracing_subscriber` setup is left out.
- `Message.get_bot_commands` (entity extraction, any `@botname` suffix) belongs to the platform library. A text is given as its list of commands.
- After the mode choice, `run_bot` (src/main.rs:173-194) registers the webhook, parses `HOST` as an IP address and `PORT` as a `u16`, and runs the server or the poller. These are library parsers and network calls. The panic of `Client::new(token).expect(…)` is left out too.
- Concurrent handling of updates by the async runtime is left out. `HandleAll` handles updates in delivery order, each with its own backend and platform replies.
- Message kinds other than text and successful payment are all `OtherData`. Update kinds other than messages are all `OtherUpdate`.
