/** Start-up of src/main.rs: `main` insists on four settings, in a fixed
    order, before anything else runs; `run_bot` then chooses between the
    webhook server and long polling. */
module Startup {
  import opened Wrappers
  import opened Env

  /** The settings `main` demands, in the order it asks for them. */
  const RequiredKeys: seq<string> := ["TGBOT_TOKEN", "SUPER_API_KEY", "API_URL", "S_USERNAME"]

  /** The first of `keys` that is unset, if any: the reference the
      check below is proved against. */
  function FirstMissing(keys: seq<string>, env: Environment): (r: Option<string>)
    ensures r.None? <==> forall k :: k in keys ==> k in env
    ensures r.Some? ==> exists i :: 0 <= i < |keys| && keys[i] == r.value && r.value !in env
                                   && forall j :: 0 <= j < i ==> keys[j] in env
  {
    if keys == [] then None
    else if keys[0] !in env then Some(keys[0])
    else
      var rest := FirstMissing(keys[1..], env);
      assert forall k :: k in keys[1..] ==> k in keys;
      assert forall k :: k in keys ==> k == keys[0] || k in keys[1..];
      if rest.Some? then
        assert exists i :: 0 <= i < |keys| - 1 && keys[1..][i] == rest.value && rest.value !in env
                          && forall j :: 0 <= j < i ==> keys[1..][j] in env;
        rest
      else rest
  }

  /** The four `get_env(…)?` lines of `main`: success exactly when every
      required setting is present, otherwise the message of an unset one. */
  function CheckRequired(env: Environment): (r: Result<(), string>)
    ensures r.Ok? <==> forall i :: 0 <= i < |RequiredKeys| ==> RequiredKeys[i] in env
    ensures r.Err? ==> exists i :: 0 <= i < |RequiredKeys| && RequiredKeys[i] !in env
                                   && r.error == MissingMessage(RequiredKeys[i])
  {
    assert RequiredKeys[0] == "TGBOT_TOKEN" && RequiredKeys[1] == "SUPER_API_KEY";
    assert RequiredKeys[2] == "API_URL" && RequiredKeys[3] == "S_USERNAME";
    var token :- GetEnv(env, "TGBOT_TOKEN");
    var apiKey :- GetEnv(env, "SUPER_API_KEY");
    var apiUrl :- GetEnv(env, "API_URL");
    var superuser :- GetEnv(env, "S_USERNAME");
    Ok(())
  }

  /** `main` succeeds exactly when all four settings are present, and
      otherwise fails with the message of the first missing one. */
  lemma CheckRequiredReportsFirstMissing(env: Environment)
    ensures FirstMissing(RequiredKeys, env).None? ==> CheckRequired(env) == Ok(())
    ensures FirstMissing(RequiredKeys, env).Some? ==>
      CheckRequired(env) == Err(FirstMissing(RequiredKeys, env).value + " must be set")
  {
    var ks := RequiredKeys;
    assert ks[1..] == ["SUPER_API_KEY", "API_URL", "S_USERNAME"];
    assert ks[1..][1..] == ["API_URL", "S_USERNAME"];
    assert ks[1..][1..][1..] == ["S_USERNAME"];
    assert ks[1..][1..][1..][1..] == [];
    if "TGBOT_TOKEN" !in env {
      assert FirstMissing(ks, env) == Some("TGBOT_TOKEN");
    } else if "SUPER_API_KEY" !in env {
      assert FirstMissing(ks[1..], env) == Some("SUPER_API_KEY");
      assert FirstMissing(ks, env) == Some("SUPER_API_KEY");
    } else if "API_URL" !in env {
      assert FirstMissing(ks[1..][1..], env) == Some("API_URL");
      assert FirstMissing(ks[1..], env) == Some("API_URL");
      assert FirstMissing(ks, env) == Some("API_URL");
    } else if "S_USERNAME" !in env {
      assert FirstMissing(ks[1..][1..][1..], env) == Some("S_USERNAME");
      assert FirstMissing(ks[1..][1..], env) == Some("S_USERNAME");
      assert FirstMissing(ks[1..], env) == Some("S_USERNAME");
      assert FirstMissing(ks, env) == Some("S_USERNAME");
    } else {
      assert FirstMissing(ks[1..][1..][1..][1..], env) == None;
      assert FirstMissing(ks[1..][1..][1..], env) == None;
      assert FirstMissing(ks[1..][1..], env) == None;
      assert FirstMissing(ks[1..], env) == None;
      assert FirstMissing(ks, env) == None;
    }
  }

  /** How the bot receives updates. */
  datatype Mode = Webhook(address: string) | LongPoll

  /** `main` then the start of `run_bot`: the required settings, the bot
      token, the `WEBHOOK_FEATURE` flag, and in webhook mode the public
      `WEBHOOK_ADDRESS`. */
  function LaunchMode(env: Environment): (r: Result<Mode, string>)
    ensures r.Ok? <==>
      && (forall i :: 0 <= i < |RequiredKeys| ==> RequiredKeys[i] in env)
      && (FeatureTurnedOn(env, "WEBHOOK_FEATURE") ==> "WEBHOOK_ADDRESS" in env)
    ensures r.Ok? && r.value.Webhook? ==> "WEBHOOK_ADDRESS" in env && r.value.address == env["WEBHOOK_ADDRESS"]
    ensures r.Err? ==> exists k :: k !in env && r.error == MissingMessage(k)
  {
    var checked :- CheckRequired(env);
    match GetEnv(env, "TGBOT_TOKEN")
    case Err(e) => Err(e)
    case Ok(token) =>
      if FeatureTurnedOn(env, "WEBHOOK_FEATURE") then
        var address :- GetEnv(env, "WEBHOOK_ADDRESS");
        Ok(Webhook(address))
      else
        Ok(LongPoll)
  }

  /** The mode decision: a missing required setting wins over everything;
      with all of them present the flag alone picks the mode, and only
      webhook mode needs `WEBHOOK_ADDRESS`. */
  lemma LaunchModeDecision(env: Environment)
    ensures CheckRequired(env).Err? ==> LaunchMode(env) == Err(CheckRequired(env).error)
    ensures CheckRequired(env).Ok? && !FeatureTurnedOn(env, "WEBHOOK_FEATURE") ==> LaunchMode(env) == Ok(LongPoll)
    ensures CheckRequired(env).Ok? && FeatureTurnedOn(env, "WEBHOOK_FEATURE") ==>
      LaunchMode(env) == (if "WEBHOOK_ADDRESS" in env then Ok(Webhook(env["WEBHOOK_ADDRESS"]))
                          else Err("WEBHOOK_ADDRESS must be set"))
  {
    assert "WEBHOOK_ADDRESS" + " must be set" == "WEBHOOK_ADDRESS must be set";
  }
}
