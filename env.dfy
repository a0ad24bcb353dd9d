/** The environment helpers of src/utils.rs: error-string formatting, a
    fallible environment lookup and a case-insensitive feature flag.

    The process environment is a `map<string, string>`. Rust's Unicode
    `to_lowercase` is modelled on ASCII letters only: `Lower` maps `A`..`Z`
    to `a`..`z` and leaves every other character alone. */
module Env {
  import opened Wrappers

  type Environment = map<string, string>

  /** The words `get_env_feature_turned_on` accepts, in the source's order. */
  const TruthyWords: seq<string> := ["ok", "1", "yes", "y", "true"]

  // ---------------------------------------------------------------------
  // make_err

  /** `make_err(err, process)`: "Failed <process>: <debug of err>". The Rust
      `Debug` rendering of the foreign error is the opaque string `debug`. */
  function MakeErr(debug: string, process: string): (r: string)
    ensures |r| == |process| + |debug| + 9
    ensures r[..7] == "Failed " && r[7 + |process|..9 + |process|] == ": "
    ensures r[7..7 + |process|] == process && r[9 + |process|..] == debug
  {
    "Failed " + process + ": " + debug
  }

  /** The message is its fixed head, "Failed <process>: ", then the error. */
  lemma MakeErrSplit(debug: string, process: string)
    ensures MakeErr(debug, process) == ("Failed " + process + ": ") + debug
  {
  }

  /** In a message built from a colon-free label, the first ':' after
      "Failed " is the one that ends the label. */
  lemma LabelEndsAtColon(d: string, p: string, i: int)
    requires ':' !in p && 0 <= i <= |p|
    ensures MakeErr(d, p)[7 + i] == ':' <==> i == |p|
  {
  }

  /** With a colon-free process label (all labels of the bot are), the
      message determines both the label and the underlying error text: the
      first ':' after "Failed " ends the label. */
  lemma {:induction false} MakeErrInjective(d1: string, p1: string, d2: string, p2: string)
    requires ':' !in p1 && ':' !in p2
    requires MakeErr(d1, p1) == MakeErr(d2, p2)
    ensures p1 == p2 && d1 == d2
  {
    var s := MakeErr(d1, p1);
    assert s == "Failed " + p1 + ": " + d1;
    assert s == "Failed " + p2 + ": " + d2;
    var n := if |p1| < |p2| then |p1| else |p2|;
    LabelEndsAtColon(d1, p1, n);
    LabelEndsAtColon(d2, p2, n);
    assert p1 == s[7..7 + |p1|] == p2;
    assert d1 == s[9 + |p1|..] == d2;
  }

  // ---------------------------------------------------------------------
  // get_env

  /** The message `get_env` returns for an unset key. */
  function MissingMessage(key: string): string {
    key + " must be set"
  }

  /** `get_env(key)`: the value when the key is set, otherwise the fixed
      "<key> must be set" error. */
  function GetEnv(env: Environment, key: string): (r: Result<string, string>)
    ensures r.Ok? <==> key in env
    ensures r.Ok? ==> r.value == env[key]
    ensures r.Err? ==> r.error == key + " must be set"
  {
    if key in env then Ok(env[key]) else Err(MissingMessage(key))
  }

  /** The error of `get_env` names the missing key unambiguously: two
      lookups that fail with the same message were for the same key. */
  lemma {:induction false} MissingMessageInjective(k1: string, k2: string)
    requires MissingMessage(k1) == MissingMessage(k2)
    ensures k1 == k2
  {
    var m := MissingMessage(k1);
    assert |k1| == |k2|;
    assert k1 == m[..|k1|];
    assert k2 == m[..|k2|];
  }

  // ---------------------------------------------------------------------
  // ASCII lower-casing

  predicate IsUpper(c: char) {
    'A' <= c <= 'Z'
  }

  function LowerChar(c: char): (r: char)
    ensures !IsUpper(r)
    ensures IsUpper(c) ==> r as int == c as int + 32
    ensures !IsUpper(c) ==> r == c
  {
    if IsUpper(c) then (c as int + 32) as char else c
  }

  /** `str::to_lowercase`, restricted to ASCII letters. */
  function Lower(s: string): (r: string)
    ensures |r| == |s|
    ensures forall i :: 0 <= i < |s| ==> r[i] == LowerChar(s[i])
  {
    if s == [] then [] else [LowerChar(s[0])] + Lower(s[1..])
  }

  /** Lower-casing twice is lower-casing once. */
  lemma LowerIdempotent(s: string)
    ensures Lower(Lower(s)) == Lower(s)
  {
  }

  // ---------------------------------------------------------------------
  // get_env_feature_turned_on

  /** `get_env_feature_turned_on(key)`: false when the key is unset;
      otherwise whether the lower-cased value is one of the truthy words.
      The value is not trimmed: an accepted value is set, between one and
      four characters long and holds no blank, so " true" and "" are off. */
  predicate FeatureTurnedOn(env: Environment, key: string)
    ensures FeatureTurnedOn(env, key) ==>
      && key in env
      && 1 <= |env[key]| <= 4
      && forall i :: 0 <= i < |env[key]| ==> env[key][i] != ' '
  {
    match GetEnv(env, key)
    case Ok(v) => Lower(v) in TruthyWords
    case Err(_) => false
  }

  /** An unset flag is off. */
  lemma FeatureUnsetIsOff(env: Environment, key: string)
    requires key !in env
    ensures !FeatureTurnedOn(env, key)
  {
  }

  /** A set flag is on exactly when its lower-cased value is a truthy word. */
  lemma FeatureSetIff(env: Environment, key: string)
    requires key in env
    ensures FeatureTurnedOn(env, key) <==> Lower(env[key]) in TruthyWords
  {
  }

  /** Case does not matter: a value and its lower-cased form switch the
      flag identically. */
  lemma {:induction false} FeatureCaseInsensitive(env: Environment, key: string, v: string)
    ensures FeatureTurnedOn(env[key := v], key) == FeatureTurnedOn(env[key := Lower(v)], key)
  {
    LowerIdempotent(v);
  }

  /** Upper- and mixed-case spellings of the truthy words are accepted. */
  lemma FeatureAcceptsAnyCase(env: Environment, key: string)
    ensures FeatureTurnedOn(env[key := "TRUE"], key)
    ensures FeatureTurnedOn(env[key := "Yes"], key)
    ensures FeatureTurnedOn(env[key := "Y"], key)
  {
    assert Lower("TRUE") == "true" == TruthyWords[4];
    assert Lower("Yes") == "yes" == TruthyWords[2];
    assert Lower("Y") == "y" == TruthyWords[3];
  }

  /** A padded, empty or unknown value is not accepted. */
  lemma FeatureRejectsOthers(env: Environment, key: string)
    ensures !FeatureTurnedOn(env[key := " true"], key)
    ensures !FeatureTurnedOn(env[key := ""], key)
    ensures !FeatureTurnedOn(env[key := "no"], key)
  {
  }
}
