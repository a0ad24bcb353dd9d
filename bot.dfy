/** The per-update decision layer of src/main.rs.

    `handle_update` is split in two: `Route` is the pure decision (which one
    action an update asks for), and `Perform` runs that action against two
    oracles standing for code outside the model: `backend`, the credential
    endpoint behind `get_api_key`'s HTTP request, and `platform`, the chat
    platform's `Client.execute`. The outcome of handling one update is an
    `Effect`: the external calls made, in order, and the `Result` that
    `handle_update` returns. */
module Bot {
  import opened Wrappers
  import opened Env

  // -------------------------------------------------------------------
  // Inbound updates

  /** `ChatPeerId`: the address of every outbound send. */
  type ChatId = int

  /** The contents of a successful payment. The handler never looks at them. */
  datatype PaymentDetails = PaymentDetails(
    currency: string,
    totalAmount: int,
    invoicePayload: string,
    telegramChargeId: string,
    providerChargeId: string)

  /** The message kinds the handler distinguishes. `Text` carries the bot
      commands the platform library found in the text, in order; an empty
      sequence is a text without commands. */
  datatype MessageData =
    | Text(botCommands: seq<string>)
    | SuccessfulPayment(payment: PaymentDetails)
    | OtherData

  /** An inbound update: a message in a chat (whose username may be absent)
      or any other kind of update. */
  datatype Update =
    | Message(chat: ChatId, username: Option<string>, data: MessageData)
    | OtherUpdate

  // -------------------------------------------------------------------
  // Outbound requests and oracles

  datatype ParseMode = Plain | Markdown

  datatype LabeledPrice = LabeledPrice(amount: int, priceLabel: string)

  /** The two kinds of request the handler hands to `Client.execute`. */
  datatype Outbound =
    | SendMessage(chat: ChatId, text: string, parseMode: ParseMode)
    | SendInvoice(chat: ChatId, title: string, description: string,
                  payload: string, currency: string, prices: seq<LabeledPrice>)

  /** What `Client.execute` reports: delivered, or an error (its `Debug` text). */
  datatype Delivery = Delivered | Rejected(debug: string)

  /** The credential request `get_api_key` builds: POST to `API_URL` with the
      `Authorization` and `Content-Type` headers and a JSON body holding the
      user id. */
  datatype Request = Request(url: string, authorization: string, contentType: string, userId: string)

  /** The steps of `get_api_key` after its two environment lookups that can
      fail, in the source's order. */
  datatype Stage = BuildClient | ParseApiKey | ParseContentType | GetResponse | GetResponseBody

  /** What the credential backend yields: the response body, verbatim, or
      the step that failed together with the `Debug` text of its error. */
  datatype Reply = Body(text: string) | Failure(stage: Stage, debug: string)

  /** One external call made while handling an update. A `Fetch` is one use
      of the credential backend as a whole, covering the client build, the
      header parsing and the POST; a failure of any of these steps is still
      that one `Fetch`. */
  datatype Call = Fetch(request: Request) | Execute(outbound: Outbound)

  /** The external calls made while handling one update, in order, and the
      result of `handle_update`. */
  datatype Effect = Effect(calls: seq<Call>, result: Result<(), string>)

  // -------------------------------------------------------------------
  // Constants

  const StartCommand := "/start"
  const BuyCommand := "/buy"
  const TestBuyCommand := "/test_buy"

  const Greeting := "hi"

  /** The user id every credential request carries, on both paths. */
  const ApiKeyUserId := "1"

  const InvoiceTitle := "API KEY"
  const InvoiceDescription := "WB API KEY for repricing chrome extension"
  const InvoicePayload := "1"
  const InvoiceCurrency := "XTR"
  const InvoicePrices := [LabeledPrice(123, "20")]

  /** The error labels `make_err` tags each failure with. */
  const SendStartLabel := "send start"
  const SendInvoiceLabel := "send invoice"
  const SendApiKeyLabel := "send api key"
  const TestBuyLabel := "test buy"

  function StageLabel(s: Stage): string {
    match s
    case BuildClient => "build client"
    case ParseApiKey => "parse api key"
    case ParseContentType => "parse content type"
    case GetResponse => "get response"
    case GetResponseBody => "get response body"
  }

  /** Every label an error of the bot can carry: the four sends and the
      five steps of the credential fetch. */
  const ErrorLabels: seq<string> := [
    SendStartLabel, SendInvoiceLabel, SendApiKeyLabel, TestBuyLabel,
    StageLabel(BuildClient), StageLabel(ParseApiKey), StageLabel(ParseContentType),
    StageLabel(GetResponse), StageLabel(GetResponseBody)]

  // -------------------------------------------------------------------
  // Outbound messages

  function StartMessage(chat: ChatId): Outbound {
    SendMessage(chat, Greeting, Plain)
  }

  function InvoiceFor(chat: ChatId): Outbound {
    SendInvoice(chat, InvoiceTitle, InvoiceDescription, InvoicePayload, InvoiceCurrency, InvoicePrices)
  }

  /** The credential message: a fixed heading, a blank line and the key as
      Markdown inline code. */
  function KeyText(key: string): (r: string)
    ensures |r| == |key| + 17
    ensures r[..15] == "Your API KEY:\n\n" && r[15] == '`' && r[|r| - 1] == '`'
    ensures r[16..|r| - 1] == key
  {
    "Your API KEY:\n\n`" + key + "`"
  }

  function KeyMessage(chat: ChatId, key: string): Outbound {
    SendMessage(chat, KeyText(key), Markdown)
  }

  // -------------------------------------------------------------------
  // The decision

  /** The superuser test: the chat has a username, `S_USERNAME` is set, and
      the lower-cased username equals the setting as it stands (the setting
      itself is not lower-cased, so one holding an upper-case letter matches
      nobody). */
  predicate IsSuperuser(username: Option<string>, env: Environment)
    ensures IsSuperuser(username, env) ==>
      && username.Some? && "S_USERNAME" in env
      && |username.value| == |env["S_USERNAME"]|
      && forall i :: 0 <= i < |env["S_USERNAME"]| ==> !IsUpper(env["S_USERNAME"][i])
  {
    username.Some? &&
    match GetEnv(env, "S_USERNAME")
    case Ok(name) => Lower(username.value) == name
    case Err(_) => false
  }

  /** The one action an update asks for. */
  datatype Action =
    | Greet(chat: ChatId)
    | Invoice(chat: ChatId)
    | DeliverKey(chat: ChatId, userId: string, errorLabel: string)
    | NoOp

  /** The action for a text whose first bot command is `command`. */
  function CommandAction(chat: ChatId, command: string, superuser: bool): Action {
    if command == StartCommand then Greet(chat)
    else if command == BuyCommand then Invoice(chat)
    else if command == TestBuyCommand && superuser then DeliverKey(chat, ApiKeyUserId, TestBuyLabel)
    else NoOp
  }

  /** The routing of `handle_update`: only a message can ask for anything;
      of a text, only the first bot command is looked at; a successful
      payment always asks for a key delivery. */
  function Route(u: Update, env: Environment): (a: Action)
    ensures a.NoOp? || (u.Message? && a.chat == u.chat)
    ensures a.DeliverKey? ==> a.userId == ApiKeyUserId
    ensures a.DeliverKey? && a.errorLabel == TestBuyLabel ==> IsSuperuser(u.username, env)
  {
    match u
    case OtherUpdate => NoOp
    case Message(chat, username, data) =>
      var superuser := IsSuperuser(username, env);
      match data
      case Text(commands) =>
        if |commands| == 0 then NoOp else CommandAction(chat, commands[0], superuser)
      case SuccessfulPayment(_) => DeliverKey(chat, ApiKeyUserId, SendApiKeyLabel)
      case OtherData => NoOp
  }

  // -------------------------------------------------------------------
  // Carrying the action out

  /** `get_api_key(user_id)`: `SUPER_API_KEY` is read before `API_URL`; a
      missing one is the error, and no request is made. Otherwise one
      request goes to the backend, whose body is the key and whose failure
      is tagged with the failing step. */
  function FetchApiKey(env: Environment, userId: string, backend: Request -> Reply): (r: (seq<Call>, Result<string, string>))
    ensures r.0 == [] <==> !("SUPER_API_KEY" in env && "API_URL" in env)
    ensures r.0 == [] ==>
      r.1 == Err((if "SUPER_API_KEY" !in env then "SUPER_API_KEY" else "API_URL") + " must be set")
    ensures r.0 != [] ==>
      && r.0 == [Fetch(Request(env["API_URL"], env["SUPER_API_KEY"], "application/json", userId))]
      && (r.1.Ok? <==> backend(r.0[0].request).Body?)
      && (r.1.Ok? ==> r.1.value == backend(r.0[0].request).text)
      && (r.1.Err? ==> r.1.error == MakeErr(backend(r.0[0].request).debug, StageLabel(backend(r.0[0].request).stage)))
  {
    match GetEnv(env, "SUPER_API_KEY")
    case Err(e) => ([], Err(e))
    case Ok(apiKey) =>
      match GetEnv(env, "API_URL")
      case Err(e) => ([], Err(e))
      case Ok(apiUrl) =>
        var request := Request(apiUrl, apiKey, "application/json", userId);
        var key := match backend(request)
                   case Body(text) => Ok(text)
                   case Failure(stage, debug) => Err(MakeErr(debug, StageLabel(stage)));
        ([Fetch(request)], key)
  }

  /** One `client.execute(cmd)`, its error tagged with `errorLabel`. */
  function Send(o: Outbound, errorLabel: string, platform: Outbound -> Delivery): (r: Effect)
    ensures r.calls == [Execute(o)]
    ensures r.result.Ok? <==> platform(o) == Delivered
    ensures r.result.Err? ==> r.result.error == MakeErr(platform(o).debug, errorLabel)
  {
    var result := match platform(o)
                  case Delivered => Ok(())
                  case Rejected(debug) => Err(MakeErr(debug, errorLabel));
    Effect([Execute(o)], result)
  }

  /** `send_start`, `send_invoice`, `send_api_key` and `test_buy`: one send,
      or for a key delivery a fetch and, only when it succeeded, one send. */
  function Perform(a: Action, env: Environment, backend: Request -> Reply, platform: Outbound -> Delivery): (r: Effect)
    ensures a.NoOp? ==> r == Effect([], Ok(()))
    ensures |r.calls| <= 2
    ensures |r.calls| == 2 ==> r.calls[0].Fetch? && r.calls[1].Execute?
    ensures forall i :: 0 <= i < |r.calls| && r.calls[i].Fetch? ==> a.DeliverKey? && i == 0
    ensures forall i :: 0 <= i < |r.calls| && r.calls[i].Execute? ==> !a.NoOp? && r.calls[i].outbound.chat == a.chat
    ensures forall i :: 0 <= i < |r.calls| && r.calls[i].Fetch? && backend(r.calls[i].request).Failure? ==>
      |r.calls| == 1 && r.result.Err?
  {
    match a
    case Greet(chat) => Send(StartMessage(chat), SendStartLabel, platform)
    case Invoice(chat) => Send(InvoiceFor(chat), SendInvoiceLabel, platform)
    case DeliverKey(chat, userId, errorLabel) =>
      var (fetchCalls, key) := FetchApiKey(env, userId, backend);
      (match key
       case Err(e) => Effect(fetchCalls, Err(e))
       case Ok(k) =>
         var sent := Send(KeyMessage(chat, k), errorLabel, platform);
         Effect(fetchCalls + sent.calls, sent.result))
    case NoOp => Effect([], Ok(()))
  }

  /** `handle_update`. Whatever the update: no call at all unless it is a
      message; at most one fetch, which comes first, and at most one send;
      every send goes to the update's own chat; a failed fetch is never
      followed by a send. */
  function HandleUpdate(u: Update, env: Environment, backend: Request -> Reply, platform: Outbound -> Delivery): (r: Effect)
    ensures u.OtherUpdate? ==> r == Effect([], Ok(()))
    ensures |r.calls| <= 2
    ensures |r.calls| == 2 ==> r.calls[0].Fetch? && r.calls[1].Execute?
    ensures forall i :: 0 <= i < |r.calls| && r.calls[i].Execute? ==> u.Message? && r.calls[i].outbound.chat == u.chat
    ensures forall i :: 0 <= i < |r.calls| && r.calls[i].Fetch? && backend(r.calls[i].request).Failure? ==>
      |r.calls| == 1 && r.result.Err?
  {
    Perform(Route(u, env), env, backend, platform)
  }

  /** The handler keeps no state between updates: every update is handled
      on its own and a failure does not stop the ones after it. The backend
      and the platform are free to answer each update differently, so
      update `i` meets `backends[i]` and `platforms[i]`. */
  function HandleAll(us: seq<Update>, env: Environment,
                     backends: seq<Request -> Reply>, platforms: seq<Outbound -> Delivery>): (r: seq<Effect>)
    requires |backends| == |us| && |platforms| == |us|
    ensures |r| == |us|
    ensures forall i :: 0 <= i < |us| ==> r[i] == HandleUpdate(us[i], env, backends[i], platforms[i])
  {
    if us == [] then []
    else [HandleUpdate(us[0], env, backends[0], platforms[0])] + HandleAll(us[1..], env, backends[1..], platforms[1..])
  }
}
