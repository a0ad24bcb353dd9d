/** What `handle_update` promises, stated over whole effects with the
    literal strings of src/main.rs. */
module RouterProperties {
  import opened Wrappers
  import opened Env
  import opened Bot

  // -------------------------------------------------------------------
  // Superuser

  /** The superuser test in terms of the environment map. */
  lemma SuperuserIff(username: Option<string>, env: Environment)
    ensures IsSuperuser(username, env) <==>
      username.Some? && "S_USERNAME" in env && Lower(username.value) == env["S_USERNAME"]
  {
  }

  /** The setting is compared as it stands: a setting holding an upper-case
      letter (at position `i`) matches no username at all. */
  lemma MixedCaseSettingNeverMatches(username: Option<string>, env: Environment, i: int)
    requires "S_USERNAME" in env && 0 <= i < |env["S_USERNAME"]|
    requires IsUpper(env["S_USERNAME"][i])
    ensures !IsSuperuser(username, env)
  {
  }

  /** The username's case does not matter. */
  lemma SuperuserIgnoresUsernameCase(n1: string, n2: string, env: Environment)
    requires Lower(n1) == Lower(n2)
    ensures IsSuperuser(Some(n1), env) == IsSuperuser(Some(n2), env)
  {
  }

  // -------------------------------------------------------------------
  // Commands

  /** "/start" sends "hi" to the same chat and nothing else; a rejected
      send is reported as "Failed send start: …". */
  lemma StartGreets(chat: ChatId, username: Option<string>, commands: seq<string>,
                    env: Environment, backend: Request -> Reply, platform: Outbound -> Delivery)
    requires |commands| > 0 && commands[0] == "/start"
    ensures var e := HandleUpdate(Message(chat, username, Text(commands)), env, backend, platform);
      var o := SendMessage(chat, "hi", Plain);
      && e.calls == [Execute(o)]
      && (platform(o) == Delivered ==> e.result == Ok(()))
      && (platform(o).Rejected? ==> e.result == Err("Failed send start: " + platform(o).debug))
  {
    var o := SendMessage(chat, "hi", Plain);
    if platform(o).Rejected? {
      MakeErrSplit(platform(o).debug, "send start");
      assert "Failed " + "send start" + ": " == "Failed send start: ";
    }
  }

  /** "/buy" sends the fixed invoice to the same chat, whoever asks. */
  lemma BuyInvoices(chat: ChatId, username: Option<string>, commands: seq<string>,
                    env: Environment, backend: Request -> Reply, platform: Outbound -> Delivery)
    requires |commands| > 0 && commands[0] == "/buy"
    ensures var e := HandleUpdate(Message(chat, username, Text(commands)), env, backend, platform);
      var o := SendInvoice(chat, "API KEY", "WB API KEY for repricing chrome extension", "1", "XTR",
                           [LabeledPrice(123, "20")]);
      && e.calls == [Execute(o)]
      && (platform(o) == Delivered ==> e.result == Ok(()))
      && (platform(o).Rejected? ==> e.result == Err("Failed send invoice: " + platform(o).debug))
  {
    var o := InvoiceFor(chat);
    if platform(o).Rejected? {
      MakeErrSplit(platform(o).debug, "send invoice");
      assert "Failed " + "send invoice" + ": " == "Failed send invoice: ";
    }
  }

  /** "/test_buy" from anyone but the superuser does nothing and reports
      success. */
  lemma TestBuyDeniedSilently(chat: ChatId, username: Option<string>, commands: seq<string>,
                              env: Environment, backend: Request -> Reply, platform: Outbound -> Delivery)
    requires |commands| > 0 && commands[0] == "/test_buy"
    requires !IsSuperuser(username, env)
    ensures HandleUpdate(Message(chat, username, Text(commands)), env, backend, platform) == Effect([], Ok(()))
  {
  }

  /** Only the first bot command is looked at. */
  lemma FirstCommandOnly(chat: ChatId, username: Option<string>, c1: seq<string>, c2: seq<string>,
                         env: Environment, backend: Request -> Reply, platform: Outbound -> Delivery)
    requires |c1| > 0 && |c2| > 0 && c1[0] == c2[0]
    ensures HandleUpdate(Message(chat, username, Text(c1)), env, backend, platform)
         == HandleUpdate(Message(chat, username, Text(c2)), env, backend, platform)
  {
  }

  /** A text without bot commands, or whose first command is not one of
      the three, does nothing and reports success. */
  lemma UnknownCommandIgnored(chat: ChatId, username: Option<string>, commands: seq<string>,
                              env: Environment, backend: Request -> Reply, platform: Outbound -> Delivery)
    requires |commands| == 0 || commands[0] !in ["/start", "/buy", "/test_buy"]
    ensures HandleUpdate(Message(chat, username, Text(commands)), env, backend, platform) == Effect([], Ok(()))
  {
  }

  /** Updates that are not messages, and messages that are neither text nor
      a successful payment, do nothing and report success. */
  lemma OtherUpdatesIgnored(chat: ChatId, username: Option<string>,
                            env: Environment, backend: Request -> Reply, platform: Outbound -> Delivery)
    ensures HandleUpdate(OtherUpdate, env, backend, platform) == Effect([], Ok(()))
    ensures HandleUpdate(Message(chat, username, OtherData), env, backend, platform) == Effect([], Ok(()))
  {
  }

  // -------------------------------------------------------------------
  // Key delivery

  /** The request every key delivery makes, when both settings are present. */
  function KeyRequest(env: Environment): Request
    requires "SUPER_API_KEY" in env && "API_URL" in env
  {
    Request(env["API_URL"], env["SUPER_API_KEY"], "application/json", "1")
  }

  /** A successful payment, whatever it contains: `SUPER_API_KEY` then
      `API_URL` must be set, or that lookup's error is the result and no call
      is made; otherwise the key is fetched for user "1" and, only if that
      worked, sent to the same chat as Markdown inline code. A failed fetch
      is the result as it stands; a failed send is "Failed send api key: …". */
  lemma PaymentDeliversKey(chat: ChatId, username: Option<string>, p: PaymentDetails,
                           env: Environment, backend: Request -> Reply, platform: Outbound -> Delivery)
    ensures var e := HandleUpdate(Message(chat, username, SuccessfulPayment(p)), env, backend, platform);
      && ("SUPER_API_KEY" !in env ==> e == Effect([], Err("SUPER_API_KEY must be set")))
      && ("SUPER_API_KEY" in env && "API_URL" !in env ==> e == Effect([], Err("API_URL must be set")))
      && ("SUPER_API_KEY" in env && "API_URL" in env ==>
            var req := KeyRequest(env);
            && (backend(req).Failure? ==>
                  e == Effect([Fetch(req)], Err("Failed " + StageLabel(backend(req).stage) + ": " + backend(req).debug)))
            && (backend(req).Body? ==>
                  var o := SendMessage(chat, "Your API KEY:\n\n`" + backend(req).text + "`", Markdown);
                  && e.calls == [Fetch(req), Execute(o)]
                  && (platform(o) == Delivered ==> e.result == Ok(()))
                  && (platform(o).Rejected? ==> e.result == Err("Failed send api key: " + platform(o).debug))))
  {
    assert Route(Message(chat, username, SuccessfulPayment(p)), env) == DeliverKey(chat, "1", "send api key");
    assert "SUPER_API_KEY" + " must be set" == "SUPER_API_KEY must be set";
    assert "API_URL" + " must be set" == "API_URL must be set";
    if "SUPER_API_KEY" in env && "API_URL" in env {
      var req := KeyRequest(env);
      if backend(req).Failure? {
        MakeErrSplit(backend(req).debug, StageLabel(backend(req).stage));
      } else {
        var o := KeyMessage(chat, backend(req).text);
        if platform(o).Rejected? {
          MakeErrSplit(platform(o).debug, "send api key");
          assert "Failed " + "send api key" + ": " == "Failed send api key: ";
        }
      }
    }
  }

  /** The payment's contents are never inspected. */
  lemma PaymentContentsIgnored(chat: ChatId, username: Option<string>, p1: PaymentDetails, p2: PaymentDetails,
                               env: Environment, backend: Request -> Reply, platform: Outbound -> Delivery)
    ensures HandleUpdate(Message(chat, username, SuccessfulPayment(p1)), env, backend, platform)
         == HandleUpdate(Message(chat, username, SuccessfulPayment(p2)), env, backend, platform)
  {
  }

  /** The superuser's "/test_buy" makes exactly the calls a payment in the
      same chat makes; the results agree except that a failed send is
      tagged "test buy" instead of "send api key". */
  lemma TestBuyActsLikePayment(chat: ChatId, username: Option<string>, commands: seq<string>, p: PaymentDetails,
                               env: Environment, backend: Request -> Reply, platform: Outbound -> Delivery)
    requires |commands| > 0 && commands[0] == "/test_buy"
    requires IsSuperuser(username, env)
    ensures var t := HandleUpdate(Message(chat, username, Text(commands)), env, backend, platform);
      var q := HandleUpdate(Message(chat, username, SuccessfulPayment(p)), env, backend, platform);
      && t.calls == q.calls
      && (t.result.Ok? <==> q.result.Ok?)
      && (t.result != q.result ==>
            exists d :: t.result == Err("Failed test buy: " + d) && q.result == Err("Failed send api key: " + d))
  {
    var t := HandleUpdate(Message(chat, username, Text(commands)), env, backend, platform);
    var q := HandleUpdate(Message(chat, username, SuccessfulPayment(p)), env, backend, platform);
    if t.result != q.result {
      var req := KeyRequest(env);
      var o := KeyMessage(chat, backend(req).text);
      var d := platform(o).debug;
      MakeErrSplit(d, "test buy");
      MakeErrSplit(d, "send api key");
      assert "Failed " + "test buy" + ": " == "Failed test buy: ";
      assert "Failed " + "send api key" + ": " == "Failed send api key: ";
      assert t.result == Err("Failed test buy: " + d);
    }
  }

  // -------------------------------------------------------------------
  // Every update

  /** Distinct error labels give distinct messages, so an error of the bot
      tells which step failed. */
  lemma {:induction false} FailuresNameTheirStep(d1: string, d2: string, l1: string, l2: string)
    requires l1 in ErrorLabels && l2 in ErrorLabels && l1 != l2
    ensures MakeErr(d1, l1) != MakeErr(d2, l2)
  {
    ErrorLabelsColonFree(l1);
    ErrorLabelsColonFree(l2);
    if MakeErr(d1, l1) == MakeErr(d2, l2) {
      MakeErrInjective(d1, l1, d2, l2);
    }
  }

  /** No error label holds a ':'. */
  lemma ErrorLabelsColonFree(l: string)
    requires l in ErrorLabels
    ensures ':' !in l
  {
  }

  /** Delivering the same payment twice makes two fetches of the same
      request: nothing is remembered between updates. Each delivery meets
      the backend and the platform afresh; a delivery whose fetch worked
      sends the key of its own reply, one whose fetch failed sends nothing. */
  lemma {:induction false} DuplicatePaymentFetchesTwice(chat: ChatId, username: Option<string>, p: PaymentDetails,
                                                        env: Environment, backends: seq<Request -> Reply>,
                                                        platforms: seq<Outbound -> Delivery>)
    requires "SUPER_API_KEY" in env && "API_URL" in env
    requires |backends| == 2 && |platforms| == 2
    ensures var u := Message(chat, username, SuccessfulPayment(p));
      var r := HandleAll([u, u], env, backends, platforms);
      var req := KeyRequest(env);
      && |r| == 2
      && forall i :: 0 <= i < 2 ==>
           && (backends[i](req).Failure? ==> r[i].calls == [Fetch(req)])
           && (backends[i](req).Body? ==>
                 r[i].calls == [Fetch(req), Execute(SendMessage(chat, "Your API KEY:\n\n`" + backends[i](req).text + "`", Markdown))])
  {
    var u := Message(chat, username, SuccessfulPayment(p));
    PaymentDeliversKey(chat, username, p, env, backends[0], platforms[0]);
    PaymentDeliversKey(chat, username, p, env, backends[1], platforms[1]);
  }

  // -------------------------------------------------------------------
  // Scenarios

  /** "/start" in chat 7 sends "hi" to chat 7. */
  lemma ScenarioStart(backend: Request -> Reply, platform: Outbound -> Delivery, env: Environment)
    ensures HandleUpdate(Message(7, None, Text(["/start"])), env, backend, platform).calls
         == [Execute(SendMessage(7, "hi", Plain))]
  {
  }

  /** The superuser "root" asks for "/test_buy" and the backend answers
      "SECRET123": the key goes to chat 7 as Markdown. */
  lemma ScenarioTestBuy(backend: Request -> Reply, platform: Outbound -> Delivery, env: Environment)
    requires env == map["S_USERNAME" := "root", "SUPER_API_KEY" := "k", "API_URL" := "u"]
    requires backend(Request("u", "k", "application/json", "1")) == Body("SECRET123")
    ensures HandleUpdate(Message(7, Some("root"), Text(["/test_buy"])), env, backend, platform).calls
         == [Fetch(Request("u", "k", "application/json", "1")),
             Execute(SendMessage(7, "Your API KEY:\n\n`SECRET123`", Markdown))]
  {
    assert Lower("root") == "root";
    assert IsSuperuser(Some("root"), env);
    var u := Message(7, Some("root"), Text(["/test_buy"]));
    assert Route(u, env) == DeliverKey(7, "1", "test buy");
    var req := Request("u", "k", "application/json", "1");
    assert FetchApiKey(env, "1", backend) == ([Fetch(req)], Ok("SECRET123"));
    assert KeyText("SECRET123") == "Your API KEY:\n\n`SECRET123`";
  }
}
