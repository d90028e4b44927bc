/**
 * Helpers of the M-Pesa client: configuration lookup, the environment's base
 * URL and certificate, phone-number formatting, and the stored OAuth access
 * token with its freshness and regeneration rules.
 */
module MpesaUtils {
  import opened Common

  // ---------------------------------------------------------------------
  // Configuration
  // ---------------------------------------------------------------------

  /**
   * Where `mpesa_config` looks a key up: the Django settings module first, then
   * the process environment (through `decouple.config`). A settings value of
   * None counts as absent, so a missing map entry models both.
   */
  datatype Configuration = Configuration(settings: map<string, string>, environ: map<string, string>)

  datatype ConfigError = NotFound(key: string) | EnvironmentInvalid

  function Lookup(cfg: Configuration, key: string): (r: Result<string, ConfigError>)
    ensures key in cfg.settings ==> r == Ok(cfg.settings[key])
    ensures key !in cfg.settings && key in cfg.environ ==> r == Ok(cfg.environ[key])
    ensures r.Err? <==> key !in cfg.settings && key !in cfg.environ
    ensures r.Err? ==> r.error == NotFound(key)
  {
    if key in cfg.settings then Ok(cfg.settings[key])
    else if key in cfg.environ then Ok(cfg.environ[key])
    else Err(NotFound(key))
  }

  const EnvironmentKey := "MPESA_ENVIRONMENT"
  const DevelopmentUrl := "https://darajasimulator.azurewebsites.net/"
  const SandboxUrl := "https://sandbox.safaricom.co.ke/"
  const ProductionUrl := "https://api.safaricom.co.ke/"

  predicate KnownEnvironment(env: string) {
    env == "development" || env == "sandbox" || env == "production"
  }

  /** `api_base_url`: one fixed URL per known environment, an error otherwise. */
  function ApiBaseUrl(cfg: Configuration): (r: Result<string, ConfigError>)
    ensures r.Ok? <==> Lookup(cfg, EnvironmentKey).Ok? && KnownEnvironment(Lookup(cfg, EnvironmentKey).value)
    ensures Lookup(cfg, EnvironmentKey).Err? ==> r == Err(NotFound(EnvironmentKey))
    ensures Lookup(cfg, EnvironmentKey).Ok? && !KnownEnvironment(Lookup(cfg, EnvironmentKey).value) ==> r == Err(EnvironmentInvalid)
    ensures r.Ok? ==> |r.value| > 0 && r.value[|r.value| - 1] == '/'
    ensures Lookup(cfg, EnvironmentKey) == Ok("development") ==> r == Ok(DevelopmentUrl)
    ensures Lookup(cfg, EnvironmentKey) == Ok("sandbox") ==> r == Ok(SandboxUrl)
    ensures Lookup(cfg, EnvironmentKey) == Ok("production") ==> r == Ok(ProductionUrl)
  {
    match Lookup(cfg, EnvironmentKey)
    case Err(e) => Err(e)
    case Ok(env) =>
      if env == "development" then Ok(DevelopmentUrl)
      else if env == "sandbox" then Ok(SandboxUrl)
      else if env == "production" then Ok(ProductionUrl)
      else Err(EnvironmentInvalid)
  }

  /** Distinct environments are served from distinct base URLs. */
  lemma ApiBaseUrlInjective(c1: Configuration, c2: Configuration)
    requires ApiBaseUrl(c1).Ok? && ApiBaseUrl(c1) == ApiBaseUrl(c2)
    ensures Lookup(c1, EnvironmentKey) == Lookup(c2, EnvironmentKey)
  {
    var u := ApiBaseUrl(c1).value;
    assert DevelopmentUrl[8] == 'd' && SandboxUrl[8] == 's' && ProductionUrl[8] == 'a';
    assert u[8] == 'd' ==> u == DevelopmentUrl;
  }

  /**
   * The certificate `encrypt_security_credential` encrypts with: the file
   * named after the environment, for the same three environments.
   */
  function CertificateName(cfg: Configuration): (r: Result<string, ConfigError>)
    ensures r.Ok? ==> Lookup(cfg, EnvironmentKey).Ok? && r.value == Lookup(cfg, EnvironmentKey).value + ".cer"
  {
    match Lookup(cfg, EnvironmentKey)
    case Err(e) => Err(e)
    case Ok(env) => if KnownEnvironment(env) then Ok(env + ".cer") else Err(EnvironmentInvalid)
  }

  /** The credential can be encrypted exactly when requests can be addressed, and both fail alike. */
  lemma CertificateAgreesWithUrl(cfg: Configuration)
    ensures CertificateName(cfg).Ok? <==> ApiBaseUrl(cfg).Ok?
    ensures CertificateName(cfg).Err? ==> CertificateName(cfg) == ApiBaseUrl(cfg)
  {
  }

  // ---------------------------------------------------------------------
  // format_phone
  // ---------------------------------------------------------------------

  predicate IsPhoneChar(c: char) {
    IsDigit(c) || c == '+'
  }

  predicate AllPhoneChars(s: string) {
    forall i :: 0 <= i < |s| ==> IsPhoneChar(s[i])
  }

  /** `re.sub(r'[^\d+]', '', s)`: the digits and plus signs of s, in order. */
  function KeepPhoneChars(s: string): (r: string)
    ensures AllPhoneChars(r)
    ensures |r| <= |s|
    ensures |s| == 1 ==> r == (if IsPhoneChar(s[0]) then s else [])
  {
    if s == [] then []
    else (if IsPhoneChar(s[0]) then [s[0]] else []) + KeepPhoneChars(s[1..])
  }

  /** The kept characters of a concatenation are those of each half, in order. */
  lemma {:induction false} KeepPhoneCharsAppend(a: string, b: string)
    ensures KeepPhoneChars(a + b) == KeepPhoneChars(a) + KeepPhoneChars(b)
  {
    if a != [] {
      assert (a + b)[1..] == a[1..] + b;
      KeepPhoneCharsAppend(a[1..], b);
    } else {
      assert a + b == b;
    }
  }

  /** Removing characters that are not kept leaves the kept ones untouched. */
  lemma {:induction false} KeepPhoneCharsOfPhoneChars(s: string)
    requires AllPhoneChars(s)
    ensures KeepPhoneChars(s) == s
  {
    if s != [] {
      KeepPhoneCharsOfPhoneChars(s[1..]);
    }
  }

  /** At most one leading plus sign is removed. */
  function StripPlus(s: string): (r: string)
    ensures StartsWith(s, "+") ==> r == s[1..]
    ensures !StartsWith(s, "+") ==> r == s
  {
    if StartsWith(s, "+") then s[1..] else s
  }

  /** The value after cleaning and stripping, that the prefix rules look at. */
  function Cleaned(s: string): string {
    StripPlus(KeepPhoneChars(s))
  }

  /** The third rule: not caught by the first two, starts with 7, nine characters. */
  predicate SevenRuleFires(c: string) {
    !StartsWith(c, "0") && !(|c| == 9 && IsDigitString(c)) && StartsWith(c, "7") && |c| == 9
  }

  /** The prefix rules applied to a cleaned value. */
  function Reformat(c: string): string {
    if StartsWith(c, "0") then "254" + c[1..]
    else if |c| == 9 && IsDigitString(c) then "254" + c
    else if StartsWith(c, "7") && |c| == 9 then "254" + c
    else c
  }

  /** `format_phone`: a falsy value (None or "") is returned as it is. */
  function FormatPhone(phone: Option<string>): (r: Option<string>)
    ensures phone.None? || phone == Some("") ==> r == phone
    ensures r.Some? <==> phone.Some?
  {
    if phone.None? || phone.value == "" then phone else Some(Reformat(Cleaned(phone.value)))
  }

  /** What each rule does to a non-empty input. */
  lemma FormatPhoneCases(s: string)
    requires s != ""
    ensures var c := Cleaned(s); var r := FormatPhone(Some(s)).value;
      (StartsWith(c, "0") ==> r == "254" + c[1..] && |r| == |c| + 2) &&
      (!StartsWith(c, "0") && |c| == 9 && (AllDigits(c) || StartsWith(c, "7")) ==> r == "254" + c) &&
      (!StartsWith(c, "0") && !(|c| == 9 && (AllDigits(c) || StartsWith(c, "7"))) ==> r == c)
  {
  }

  /** The output keeps nothing but digits and plus signs. */
  lemma FormatPhoneChars(s: string)
    requires s != ""
    ensures AllPhoneChars(FormatPhone(Some(s)).value)
  {
    var c := Cleaned(s);
    var r := FormatPhone(Some(s)).value;
    assert AllPhoneChars(c);
    assert AllPhoneChars("254");
    if StartsWith(c, "0") {
      assert r == "254" + c[1..];
    } else if |c| == 9 && (IsDigitString(c) || StartsWith(c, "7")) {
      assert r == "254" + c;
    } else {
      assert r == c;
    }
  }

  /**
   * The rule for values starting with 7 only sees those the all-digit rule
   * rejected: nine characters, starting with 7, with a plus sign inside.
   */
  lemma SevenRuleNeedsEmbeddedPlus(c: string)
    requires AllPhoneChars(c)
    ensures SevenRuleFires(c) <==> |c| == 9 && c[0] == '7' && exists i :: 0 < i < |c| && c[i] == '+'
  {
    if |c| == 9 && c[0] == '7' && !AllDigits(c) {
      var i :| 0 <= i < |c| && !IsDigit(c[i]);
      assert c[i] == '+' && i > 0;
    }
  }

  /** A plus sign survives at the front exactly when the cleaned input began with two. */
  lemma LeadingPlusSurvives(s: string)
    requires s != ""
    ensures var r := FormatPhone(Some(s)).value;
      (|r| > 0 && r[0] == '+') <==> StartsWith(KeepPhoneChars(s), "++")
  {
    var k := KeepPhoneChars(s);
    var c := Cleaned(s);
    var r := FormatPhone(Some(s)).value;
    if StartsWith(k, "++") {
      assert c == k[1..] && c[0] == '+';
      assert !IsDigit(c[0]);
      assert r == c;
    }
    if |r| > 0 && r[0] == '+' {
      assert r == c;
      assert StartsWith(k, "+");
      assert c == k[1..];
      assert k[1] == '+';
    }
  }

  // ---------------------------------------------------------------------
  // The stored access token
  // ---------------------------------------------------------------------

  /** An `AccessToken` row; `created_at` is set on creation, in seconds. */
  datatype AccessTokenRow = AccessTokenRow(token: string, createdAt: int)

  /**
   * What one `generate_access_token_request` brought back: an HTTP reply
   * (with the `access_token` field of its JSON body, if any), a connection
   * failure, or any other exception from the request.
   */
  datatype Reply = Response(status: int, accessToken: Option<string>) | ConnectionFailed | RequestCrashed

  datatype TokenError =
    | Misconfigured(config: ConfigError)  // MpesaConfigurationException
    | ConnectionError                     // MpesaConnectionError
    | Crashed                             // the request's other exceptions
    | Rejected                            // MpesaError after two non-200 replies
    | NoTokenField                        // KeyError on the JSON body

  /** The configuration a request reads before it is sent. */
  function RequestConfig(cfg: Configuration): (r: Outcome<ConfigError>)
    ensures r.Pass? <==>
      ApiBaseUrl(cfg).Ok? && Lookup(cfg, "MPESA_CONSUMER_KEY").Ok? && Lookup(cfg, "MPESA_CONSUMER_SECRET").Ok?
    ensures ApiBaseUrl(cfg).Err? ==> r == Fail(ApiBaseUrl(cfg).error)
    ensures ApiBaseUrl(cfg).Ok? && Lookup(cfg, "MPESA_CONSUMER_KEY").Err? ==> r == Fail(NotFound("MPESA_CONSUMER_KEY"))
    ensures ApiBaseUrl(cfg).Ok? && Lookup(cfg, "MPESA_CONSUMER_KEY").Ok? && Lookup(cfg, "MPESA_CONSUMER_SECRET").Err? ==>
      r == Fail(NotFound("MPESA_CONSUMER_SECRET"))
  {
    if ApiBaseUrl(cfg).Err? then Fail(ApiBaseUrl(cfg).error)
    else if Lookup(cfg, "MPESA_CONSUMER_KEY").Err? then Fail(NotFound("MPESA_CONSUMER_KEY"))
    else if Lookup(cfg, "MPESA_CONSUMER_SECRET").Err? then Fail(NotFound("MPESA_CONSUMER_SECRET"))
    else Pass
  }

  function FailureOf(r: Reply): TokenError
    requires !r.Response?
  {
    if r.ConnectionFailed? then ConnectionError else Crashed
  }

  function TokenOf(r: Reply): (t: Result<string, TokenError>)
    requires r.Response?
  {
    if r.accessToken.Some? then Ok(r.accessToken.value) else Err(NoTokenField)
  }

  datatype Generation = Generation(outcome: Result<string, TokenError>, requests: nat)

  /**
   * The outcome of `generate_access_token` given the replies its first and
   * (possible) second request would get, and how many requests it sent.
   */
  function Generate(cfg: Configuration, first: Reply, second: Reply): (g: Generation)
    ensures g.requests <= 2
    ensures g.requests == 0 <==> RequestConfig(cfg).Fail?
    ensures g.requests == 2 <==> RequestConfig(cfg).Pass? && first.Response? && first.status != 200
    ensures g.outcome == Err(Rejected) <==>
      RequestConfig(cfg).Pass? && first.Response? && first.status != 200 && second.Response? && second.status != 200
    ensures RequestConfig(cfg).Fail? ==> g.outcome == Err(Misconfigured(RequestConfig(cfg).error))
    ensures RequestConfig(cfg).Pass? && !first.Response? ==>
      g == Generation(Err(if first.ConnectionFailed? then ConnectionError else Crashed), 1)
    ensures RequestConfig(cfg).Pass? && first.Response? && first.status == 200 ==>
      g == Generation(if first.accessToken.Some? then Ok(first.accessToken.value) else Err(NoTokenField), 1)
    ensures RequestConfig(cfg).Pass? && first.Response? && first.status != 200 && !second.Response? ==>
      g == Generation(Err(if second.ConnectionFailed? then ConnectionError else Crashed), 2)
    ensures RequestConfig(cfg).Pass? && first.Response? && first.status != 200 && second.Response? && second.status == 200 ==>
      g == Generation(if second.accessToken.Some? then Ok(second.accessToken.value) else Err(NoTokenField), 2)
  {
    if RequestConfig(cfg).Fail? then Generation(Err(Misconfigured(RequestConfig(cfg).error)), 0)
    else if !first.Response? then Generation(Err(FailureOf(first)), 1)
    else if first.status == 200 then Generation(TokenOf(first), 1)
    else if !second.Response? then Generation(Err(FailureOf(second)), 2)
    else if second.status == 200 then Generation(TokenOf(second), 2)
    else Generation(Err(Rejected), 2)
  }

  /**
   * A token comes back exactly when the configuration is complete and the
   * reply that decides, the first or (after a non-200 first reply) the second,
   * is a 200 carrying the field; the second reply matters only in that case.
   */
  lemma GenerateOutcome(cfg: Configuration, first: Reply, second: Reply, other: Reply)
    ensures Generate(cfg, first, second).outcome.Ok? <==>
      RequestConfig(cfg).Pass? && first.Response? &&
      ((first.status == 200 && first.accessToken.Some?) ||
       (first.status != 200 && second.Response? && second.status == 200 && second.accessToken.Some?))
    ensures !(RequestConfig(cfg).Pass? && first.Response? && first.status != 200) ==>
      Generate(cfg, first, second) == Generate(cfg, first, other)
  {
  }

  /**
   * `mpesa_access_token`'s rule: a new token is needed when none is stored,
   * or when the whole minutes since the first stored token was created
   * exceed 50. `first()` on a model without an ordering takes the row with
   * the smallest primary key, the head of the sequence.
   */
  predicate NeedsRefresh(tokens: seq<AccessTokenRow>, now: int) {
    tokens == [] || (now - tokens[0].createdAt) / 60 > 50
  }

  /** More than 50 whole minutes means at least 51 minutes, 3060 seconds. */
  lemma NeedsRefreshThreshold(tokens: seq<AccessTokenRow>, now: int)
    ensures NeedsRefresh(tokens, now) <==> tokens == [] || now - tokens[0].createdAt >= 3060
  {
    if tokens != [] {
      var d := now - tokens[0].createdAt;
      assert d == 60 * (d / 60) + d % 60 && 0 <= d % 60 < 60;
    }
  }

  /** A token stored at `now` is reused for the next 3060 seconds and no longer. */
  lemma FreshTokenIsReused(row: AccessTokenRow, later: int)
    ensures !NeedsRefresh([row], later) <==> later < row.createdAt + 3060
  {
    NeedsRefreshThreshold([row], later);
  }

  datatype Fetched = Fetched(outcome: Result<string, TokenError>, requests: nat, tokens: seq<AccessTokenRow>)

  /**
   * `mpesa_access_token` on a table holding `tokens`: the token returned,
   * the requests sent and the table afterwards.
   */
  function Fetch(tokens: seq<AccessTokenRow>, cfg: Configuration, first: Reply, second: Reply, now: int): (f: Fetched)
    ensures !NeedsRefresh(tokens, now) ==> f == Fetched(Ok(tokens[0].token), 0, tokens)
    ensures NeedsRefresh(tokens, now) ==>
      f.outcome == Generate(cfg, first, second).outcome &&
      f.requests == Generate(cfg, first, second).requests &&
      f.tokens == (if f.outcome.Ok? then [AccessTokenRow(f.outcome.value, now)] else tokens)
  {
    if !NeedsRefresh(tokens, now) then Fetched(Ok(tokens[0].token), 0, tokens)
    else
      var g := Generate(cfg, first, second);
      Fetched(g.outcome, g.requests, if g.outcome.Ok? then [AccessTokenRow(g.outcome.value, now)] else tokens)
  }

  /** After a fetch the table holds at most one row unless it was left alone. */
  lemma FetchLeavesOneRow(tokens: seq<AccessTokenRow>, cfg: Configuration, first: Reply, second: Reply, now: int)
    ensures var f := Fetch(tokens, cfg, first, second, now);
      f.tokens == tokens || (|f.tokens| == 1 && f.tokens[0] == AccessTokenRow(f.outcome.value, now))
    ensures var f := Fetch(tokens, cfg, first, second, now);
      f.outcome.Ok? && f.tokens != tokens ==> !NeedsRefresh(f.tokens, now)
  {
  }

  /** The `AccessToken` table. */
  class TokenStore {
    var tokens: seq<AccessTokenRow>

    constructor (rows: seq<AccessTokenRow>)
      ensures tokens == rows
    {
      tokens := rows;
    }

    /**
     * `generate_access_token`: on success every stored token is deleted and
     * the new one, created at `now`, is the only row; on failure the table is
     * as it was.
     */
    method GenerateAccessToken(cfg: Configuration, first: Reply, second: Reply, now: int)
      returns (r: Result<AccessTokenRow, TokenError>, requests: nat)
      modifies this
      ensures requests == Generate(cfg, first, second).requests
      ensures Generate(cfg, first, second).outcome.Ok? ==>
        r == Ok(AccessTokenRow(Generate(cfg, first, second).outcome.value, now)) && tokens == [r.value]
      ensures Generate(cfg, first, second).outcome.Err? ==>
        r == Err(Generate(cfg, first, second).outcome.error) && tokens == old(tokens)
    {
      var g := Generate(cfg, first, second);
      requests := g.requests;
      if g.outcome.Err? {
        r := Err(g.outcome.error);
        return;
      }
      tokens := [];
      var row := AccessTokenRow(g.outcome.value, now);
      tokens := tokens + [row];
      r := Ok(row);
    }

    /**
     * `mpesa_access_token`: the stored token while it is fresh, otherwise a
     * newly generated one.
     */
    method MpesaAccessToken(cfg: Configuration, first: Reply, second: Reply, now: int)
      returns (r: Result<string, TokenError>, requests: nat)
      modifies this
      ensures Fetched(r, requests, tokens) == Fetch(old(tokens), cfg, first, second, now)
    {
      if !NeedsRefresh(tokens, now) {
        r := Ok(tokens[0].token);
        requests := 0;
        return;
      }
      var g;
      g, requests := GenerateAccessToken(cfg, first, second, now);
      r := if g.Ok? then Ok(g.value.token) else Err(g.error);
    }
  }
}
