/**
 * The M-Pesa API client `MpesaAPI`: flattening of the STK push callback,
 * the STK push request with its password, and the B2C payment request with
 * its parameter checks and the three command-id wrappers. Each request is
 * modelled up to the point where it would be posted: what comes back over
 * HTTP is outside the model, the access token it needs is fetched from the
 * token table, and the RSA encryption of the initiator credential is left
 * symbolic.
 */
module MpesaClient {
  import opened Common
  import opened MpesaUtils
  import Base64

  // ---------------------------------------------------------------------
  // The STK push callback
  // ---------------------------------------------------------------------

  /** A JSON value as the callback carries it; numbers are whole (floats, lists and objects are JOther). */
  datatype Json = JNull | JBool(b: bool) | JInt(i: int) | JStr(s: string) | JOther

  /** One `CallbackMetadata.Item` entry; `value` is None when the entry has no `Value` key. */
  datatype Item = Item(name: string, value: Option<Json>)

  /**
   * `CallbackMetadata`: absent or falsy (missing, null or empty), a non-empty
   * object without an `Item` list, or an object with its items.
   */
  datatype Metadata = NoMetadata | NoItems | Items(items: seq<Item>)

  /** `Body.stkCallback` of a callback already parsed from JSON. */
  datatype StkCallback = StkCallback(
    resultCode: Json,
    resultDesc: Json,
    merchantRequestId: Json,
    checkoutRequestId: Json,
    metadata: Metadata)

  /** Iterating over a missing `Item` list raises TypeError. */
  datatype ParseError = ItemsNotIterable

  /** The four fields copied from every callback. */
  function FixedFields(cb: StkCallback): (m: map<string, Json>)
    ensures m.Keys == {"ResultCode", "ResultDesc", "MerchantRequestID", "CheckoutRequestID"}
  {
    map["ResultCode" := cb.resultCode, "ResultDesc" := cb.resultDesc,
        "MerchantRequestID" := cb.merchantRequestId, "CheckoutRequestID" := cb.checkoutRequestId]
  }

  /** `item.get('Value')`: Python's None when the key is absent. */
  function ValueOf(item: Item): Json {
    item.value.GetOr(JNull)
  }

  /** The items stored one after another into `data`, as the loop does. */
  function Flatten(data: map<string, Json>, items: seq<Item>): map<string, Json>
  {
    if items == [] then data
    else Flatten(data, items[..|items| - 1])[items[|items| - 1].name := ValueOf(items[|items| - 1])]
  }

  predicate NamedAt(items: seq<Item>, k: string, i: int) {
    0 <= i < |items| && items[i].name == k
  }

  /** The position of the last item named k. */
  function LastNamed(items: seq<Item>, k: string): (r: Option<nat>)
    ensures r.Some? ==> NamedAt(items, k, r.value) && forall j :: r.value < j < |items| ==> items[j].name != k
    ensures r.None? <==> forall j :: 0 <= j < |items| ==> items[j].name != k
  {
    if items == [] then None
    else if items[|items| - 1].name == k then Some(|items| - 1)
    else
      var r := LastNamed(items[..|items| - 1], k);
      assert forall j :: 0 <= j < |items| - 1 ==> items[j] == items[..|items| - 1][j];
      r
  }

  /**
   * After the loop, a key holds the value of the last item of that name, or
   * its value from before the loop when no item has that name; the keys are
   * the old keys and the item names.
   */
  lemma {:induction false} FlattenLastWins(data: map<string, Json>, items: seq<Item>, k: string)
    ensures k in Flatten(data, items) <==> k in data || LastNamed(items, k).Some?
    ensures LastNamed(items, k).Some? ==> Flatten(data, items)[k] == ValueOf(items[LastNamed(items, k).value])
    ensures LastNamed(items, k).None? && k in data ==> Flatten(data, items)[k] == data[k]
  {
    if items != [] {
      var init := items[..|items| - 1];
      FlattenLastWins(data, init, k);
      if items[|items| - 1].name != k {
        assert LastNamed(items, k) == LastNamed(init, k);
      }
    }
  }

  /** `parse_stk_result` on the parsed callback. */
  function StkResult(cb: StkCallback): Result<map<string, Json>, ParseError> {
    match cb.metadata
    case NoMetadata => Ok(FixedFields(cb))
    case NoItems => Err(ItemsNotIterable)
    case Items(items) => Ok(Flatten(FixedFields(cb), items))
  }

  /** Without metadata the result is exactly the four copied fields. */
  lemma StkResultWithoutMetadata(cb: StkCallback)
    requires cb.metadata.NoMetadata?
    ensures StkResult(cb).Ok?
    ensures StkResult(cb).value.Keys == {"ResultCode", "ResultDesc", "MerchantRequestID", "CheckoutRequestID"}
    ensures StkResult(cb).value["CheckoutRequestID"] == cb.checkoutRequestId
    ensures StkResult(cb).value["ResultCode"] == cb.resultCode
  {
  }

  /**
   * With items, each key maps to the value of its last item, the four copied
   * fields survive unless an item of the same name overwrites them, and
   * nothing else appears.
   */
  lemma StkResultWithItems(cb: StkCallback, k: string)
    requires cb.metadata.Items?
    ensures var items := cb.metadata.items; var r := StkResult(cb);
      r.Ok? &&
      (k in r.value <==> k in FixedFields(cb) || LastNamed(items, k).Some?) &&
      (LastNamed(items, k).Some? ==> r.value[k] == ValueOf(items[LastNamed(items, k).value])) &&
      (LastNamed(items, k).None? && k in FixedFields(cb) ==> r.value[k] == FixedFields(cb)[k])
  {
    FlattenLastWins(FixedFields(cb), cb.metadata.items, k);
  }

  // ---------------------------------------------------------------------
  // Requests
  // ---------------------------------------------------------------------

  const StkPath := "mpesa/stkpush/v1/processrequest"
  const B2cPath := "mpesa/b2c/v1/paymentrequest"

  /** The initiator credential as RSA-encrypted with the certificate file named here. */
  datatype Encrypted = Encrypted(certificate: string, plaintext: string)

  datatype StkRequest = StkRequest(
    url: string,
    bearer: string,
    businessShortCode: string,
    password: string,
    timestamp: string,
    transactionType: string,
    amount: Json,
    partyA: Option<string>,
    partyB: string,
    phoneNumber: Option<string>,
    callBackUrl: string,
    accountReference: string,
    transactionDesc: string)

  datatype B2cRequest = B2cRequest(
    url: string,
    bearer: string,
    initiatorName: string,
    securityCredential: Encrypted,
    commandId: string,
    amount: Json,
    partyA: string,
    partyB: Option<string>,
    remarks: string,
    queueTimeOutUrl: string,
    resultUrl: string,
    occassion: string)

  datatype InvalidParameter = BlankDescription | AmountNotInteger

  datatype MpesaFailure =
    | Invalid(parameter: InvalidParameter)  // MpesaInvalidParameterException
    | Config(config: ConfigError)           // MpesaConfigurationException
    | Token(token: TokenError)              // raised while fetching the access token

  /** A `strftime('%Y%m%d%H%M%S')` timestamp. */
  predicate IsTimestamp(t: string) {
    |t| == 14 && AllDigits(t)
  }

  /** The STK password: base64 of the UTF-8 bytes of shortcode, passkey and timestamp. */
  function StkPassword(shortcode: string, passkey: string, timestamp: string): string {
    Base64.Encode(Base64.Utf8(shortcode + passkey + timestamp))
  }

  /** The password decodes to the three parts; for ASCII parts, one byte per character. */
  lemma StkPasswordDecodes(shortcode: string, passkey: string, timestamp: string)
    requires IsTimestamp(timestamp)
    ensures Base64.Decode(StkPassword(shortcode, passkey, timestamp)) ==
      Some(Base64.Utf8(shortcode) + Base64.Utf8(passkey) + Base64.Utf8(timestamp))
    ensures |Base64.Utf8(timestamp)| == 14
  {
    Base64.DecodeEncode(Base64.Utf8(shortcode + passkey + timestamp));
    Base64.Utf8Append(shortcode + passkey, timestamp);
    Base64.Utf8Append(shortcode, passkey);
    Base64.Utf8OfAscii(timestamp);
  }

  /**
   * The STK push request once the access token fetch has produced `token`:
   * the token's failure first, then the base URL's.
   */
  function StkOutcome(cfg: Configuration, token: Result<string, TokenError>, shortcode: string, passkey: string,
                      timestamp: string, phone: Option<string>, amount: Json, accountReference: string,
                      transactionDesc: string, callbackUrl: string, transactionType: string): (r: Result<StkRequest, MpesaFailure>)
    ensures token.Err? ==> r == Err(Token(token.error))
    ensures token.Ok? && ApiBaseUrl(cfg).Err? ==> r == Err(Config(ApiBaseUrl(cfg).error))
    ensures r.Ok? <==> token.Ok? && ApiBaseUrl(cfg).Ok?
    ensures r.Ok? ==>
      r.value.partyA == r.value.phoneNumber == FormatPhone(phone) &&
      r.value.partyB == r.value.businessShortCode == shortcode &&
      r.value.password == StkPassword(shortcode, passkey, timestamp) &&
      r.value.timestamp == timestamp &&
      r.value.bearer == token.value &&
      r.value.url == ApiBaseUrl(cfg).value + StkPath
    ensures r.Ok? ==>
      r.value.amount == amount && r.value.callBackUrl == callbackUrl &&
      r.value.accountReference == accountReference && r.value.transactionDesc == transactionDesc &&
      r.value.transactionType == transactionType
  {
    if token.Err? then Err(Token(token.error))
    else if ApiBaseUrl(cfg).Err? then Err(Config(ApiBaseUrl(cfg).error))
    else
      var formatted := FormatPhone(phone);
      Ok(StkRequest(ApiBaseUrl(cfg).value + StkPath, token.value, shortcode,
                    StkPassword(shortcode, passkey, timestamp), timestamp, transactionType, amount,
                    formatted, shortcode, formatted, callbackUrl, accountReference, transactionDesc))
  }

  // ---------------------------------------------------------------------
  // B2C parameter checks
  // ---------------------------------------------------------------------

  /** Python's str.isspace() for one character. */
  predicate IsSpace(c: char) {
    var n := c as int;
    (0x09 <= n <= 0x0D) || (0x1C <= n <= 0x20) || n == 0x85 || n == 0xA0 || n == 0x1680 ||
    (0x2000 <= n <= 0x200A) || n == 0x2028 || n == 0x2029 || n == 0x202F || n == 0x205F || n == 0x3000
  }

  function StripLeft(s: string): (r: string)
    ensures |r| <= |s| && s[|s| - |r|..] == r
    ensures r == [] || !IsSpace(r[0])
    ensures forall i :: 0 <= i < |s| - |r| ==> IsSpace(s[i])
  {
    if s == [] || !IsSpace(s[0]) then s else StripLeft(s[1..])
  }

  function StripRight(s: string): (r: string)
    ensures |r| <= |s| && s[..|r|] == r
    ensures r == [] || !IsSpace(r[|r| - 1])
    ensures forall i :: |r| <= i < |s| ==> IsSpace(s[i])
  {
    if s == [] || !IsSpace(s[|s| - 1]) then s else StripRight(s[..|s| - 1])
  }

  /** Python's str.strip() with no argument. */
  function Strip(s: string): string {
    StripRight(StripLeft(s))
  }

  /** Stripping leaves nothing exactly when every character is whitespace. */
  lemma StripEmpty(s: string)
    ensures Strip(s) == "" <==> forall i :: 0 <= i < |s| ==> IsSpace(s[i])
  {
    StripRightKeepsFirst(StripLeft(s));
    if forall i :: 0 <= i < |s| ==> IsSpace(s[i]) {
      StripLeftOfSpaces(s);
    }
  }

  /** A string starting with a non-space keeps at least that character. */
  lemma StripRightKeepsFirst(s: string)
    ensures s != [] && !IsSpace(s[0]) ==> StripRight(s) != []
  {
  }

  lemma {:induction false} StripLeftOfSpaces(s: string)
    requires forall i :: 0 <= i < |s| ==> IsSpace(s[i])
    ensures StripLeft(s) == ""
  {
    if s != [] {
      StripLeftOfSpaces(s[1..]);
    }
  }

  /** `isinstance(amount, int)`: true also for booleans, which are ints in Python. */
  predicate IsPythonInt(amount: Json) {
    amount.JInt? || amount.JBool?
  }

  /** The two checks `b2c_payment` makes before anything else, in their order. */
  function B2cCheck(desc: string, amount: Json): (r: Outcome<InvalidParameter>)
    ensures r == Pass <==> Strip(desc) != "" && IsPythonInt(amount)
    ensures r == Fail(AmountNotInteger) ==> Strip(desc) != ""
    ensures Strip(desc) == "" ==> r == Fail(BlankDescription)
    ensures Strip(desc) != "" && !IsPythonInt(amount) ==> r == Fail(AmountNotInteger)
  {
    if Strip(desc) == "" then Fail(BlankDescription)
    else if !IsPythonInt(amount) then Fail(AmountNotInteger)
    else Pass
  }

  datatype B2cSettings = B2cSettings(url: string, shortcode: string, initiator: string, credential: Encrypted)

  /** The configuration `b2c_payment` reads, in its order: base URL, shortcode, initiator, credential. */
  function ReadB2cSettings(cfg: Configuration): (r: Result<B2cSettings, ConfigError>)
    ensures r.Ok? ==> ApiBaseUrl(cfg).Ok? && r.value.url == ApiBaseUrl(cfg).value + B2cPath
    ensures r.Ok? ==> Lookup(cfg, "MPESA_SHORTCODE").Ok? && r.value.shortcode == Lookup(cfg, "MPESA_SHORTCODE").value
    ensures r.Ok? ==> (CertificateName(cfg).Ok? && Lookup(cfg, "MPESA_INITIATOR_SECURITY_CREDENTIAL").Ok? &&
      r.value.credential == Encrypted(CertificateName(cfg).value, Lookup(cfg, "MPESA_INITIATOR_SECURITY_CREDENTIAL").value))
    ensures r.Ok? ==> (Lookup(cfg, "MPESA_INITIATOR_USERNAME").Ok? &&
      r.value.initiator == Lookup(cfg, "MPESA_INITIATOR_USERNAME").value)
    ensures r.Ok? <==> (ApiBaseUrl(cfg).Ok? && Lookup(cfg, "MPESA_SHORTCODE").Ok? &&
      Lookup(cfg, "MPESA_INITIATOR_USERNAME").Ok? && Lookup(cfg, "MPESA_INITIATOR_SECURITY_CREDENTIAL").Ok?)
    ensures ApiBaseUrl(cfg).Err? ==> r == Err(ApiBaseUrl(cfg).error)
    ensures ApiBaseUrl(cfg).Ok? && Lookup(cfg, "MPESA_SHORTCODE").Err? ==> r == Err(NotFound("MPESA_SHORTCODE"))
    ensures ApiBaseUrl(cfg).Ok? && Lookup(cfg, "MPESA_SHORTCODE").Ok? && Lookup(cfg, "MPESA_INITIATOR_USERNAME").Err? ==>
      r == Err(NotFound("MPESA_INITIATOR_USERNAME"))
    ensures (ApiBaseUrl(cfg).Ok? && Lookup(cfg, "MPESA_SHORTCODE").Ok? && Lookup(cfg, "MPESA_INITIATOR_USERNAME").Ok? &&
      Lookup(cfg, "MPESA_INITIATOR_SECURITY_CREDENTIAL").Err?) ==> r == Err(NotFound("MPESA_INITIATOR_SECURITY_CREDENTIAL"))
  {
    CertificateAgreesWithUrl(cfg);
    if ApiBaseUrl(cfg).Err? then Err(ApiBaseUrl(cfg).error)
    else match Lookup(cfg, "MPESA_SHORTCODE")
      case Err(e) => Err(e)
      case Ok(shortcode) =>
        match Lookup(cfg, "MPESA_INITIATOR_USERNAME")
        case Err(e) => Err(e)
        case Ok(initiator) =>
          match Lookup(cfg, "MPESA_INITIATOR_SECURITY_CREDENTIAL")
          case Err(e) => Err(e)
          case Ok(secret) =>
            Ok(B2cSettings(ApiBaseUrl(cfg).value + B2cPath, shortcode, initiator,
                           Encrypted(CertificateName(cfg).value, secret)))
  }

  datatype B2cResult = B2cResult(outcome: Result<B2cRequest, MpesaFailure>, requests: nat, tokens: seq<AccessTokenRow>)

  /**
   * `b2c_payment` on a token table holding `tokens`: the checks, then the
   * settings, then the access token, then the request.
   */
  function B2cOutcome(tokens: seq<AccessTokenRow>, cfg: Configuration, first: Reply, second: Reply, now: int,
                      phone: Option<string>, amount: Json, desc: string, callbackUrl: string,
                      occassion: string, commandId: string): (res: B2cResult)
  {
    if B2cCheck(desc, amount).Fail? then B2cResult(Err(Invalid(B2cCheck(desc, amount).error)), 0, tokens)
    else match ReadB2cSettings(cfg)
      case Err(e) => B2cResult(Err(Config(e)), 0, tokens)
      case Ok(st) => B2cSend(tokens, cfg, first, second, now, st, phone, amount, desc, callbackUrl, occassion, commandId)
  }

  /** The part of `b2c_payment` after the settings are read: the access token, then the payload. */
  function B2cSend(tokens: seq<AccessTokenRow>, cfg: Configuration, first: Reply, second: Reply, now: int,
                   st: B2cSettings, phone: Option<string>, amount: Json, desc: string, callbackUrl: string,
                   occassion: string, commandId: string): (res: B2cResult)
  {
    var f := Fetch(tokens, cfg, first, second, now);
    if f.outcome.Err? then B2cResult(Err(Token(f.outcome.error)), f.requests, f.tokens)
    else
      var q := B2cRequest(st.url, f.outcome.value, st.initiator, st.credential, commandId, amount,
                          st.shortcode, FormatPhone(phone), desc, callbackUrl, callbackUrl, occassion);
      B2cResult(Ok(q), f.requests, f.tokens)
  }

  /** What `b2c_payment` promises: its checks first, then the settings, then the token, then the payload. */
  lemma B2cOutcomeCases(tokens: seq<AccessTokenRow>, cfg: Configuration, first: Reply, second: Reply, now: int,
                        phone: Option<string>, amount: Json, desc: string, callbackUrl: string,
                        occassion: string, commandId: string, res: B2cResult)
    requires res == B2cOutcome(tokens, cfg, first, second, now, phone, amount, desc, callbackUrl, occassion, commandId)
    ensures B2cCheck(desc, amount).Fail? ==>
      res == B2cResult(Err(Invalid(B2cCheck(desc, amount).error)), 0, tokens)
    ensures B2cCheck(desc, amount).Pass? && ReadB2cSettings(cfg).Err? ==>
      res == B2cResult(Err(Config(ReadB2cSettings(cfg).error)), 0, tokens)
    ensures B2cCheck(desc, amount).Pass? && ReadB2cSettings(cfg).Ok? ==>
      var f := Fetch(tokens, cfg, first, second, now);
      res.requests == f.requests && res.tokens == f.tokens &&
      (f.outcome.Err? ==> res.outcome == Err(Token(f.outcome.error))) &&
      (f.outcome.Ok? ==> res.outcome.Ok?)
    ensures res.outcome.Ok? ==>
      var q := res.outcome.value;
      q.queueTimeOutUrl == q.resultUrl == callbackUrl &&
      q.partyA == Lookup(cfg, "MPESA_SHORTCODE").value &&
      q.partyB == FormatPhone(phone) &&
      q.commandId == commandId && q.amount == amount && q.remarks == desc &&
      IsPythonInt(q.amount) && Strip(q.remarks) != ""
    ensures res.outcome.Ok? ==>
      var q := res.outcome.value;
      var st := ReadB2cSettings(cfg);
      st.Ok? && q.url == st.value.url && q.initiatorName == st.value.initiator &&
      q.securityCredential == st.value.credential && q.occassion == occassion &&
      q.bearer == Fetch(tokens, cfg, first, second, now).outcome.value
  {
  }

  const BusinessPaymentId := "BusinessPayment"
  const CustomerRefundId := "CustomerRefund"
  const PromotionPaymentId := "PromotionPayment"

  // ---------------------------------------------------------------------
  // The client
  // ---------------------------------------------------------------------

  /**
   * `MpesaAPI`: the shortcode and passkey read from the settings when it is
   * made, and the token table its requests draw the access token from.
   */
  class MpesaApi {
    const shortcode: string
    const passkey: string
    const store: TokenStore

    constructor (shortcode: string, passkey: string, store: TokenStore)
      ensures this.shortcode == shortcode && this.passkey == passkey && this.store == store
    {
      this.shortcode := shortcode;
      this.passkey := passkey;
      this.store := store;
    }

    /** `parse_stk_result`: the fixed fields, then every metadata item in order. */
    method ParseStkResult(cb: StkCallback) returns (r: Result<map<string, Json>, ParseError>)
      ensures r == StkResult(cb)
    {
      var data: map<string, Json> := map[];
      data := data["ResultCode" := cb.resultCode];
      data := data["ResultDesc" := cb.resultDesc];
      data := data["MerchantRequestID" := cb.merchantRequestId];
      data := data["CheckoutRequestID" := cb.checkoutRequestId];
      assert data == FixedFields(cb);
      match cb.metadata {
        case NoMetadata =>
          r := Ok(data);
        case NoItems =>
          r := Err(ItemsNotIterable);
        case Items(items) =>
          var i := 0;
          while i < |items|
            invariant 0 <= i <= |items|
            invariant data == Flatten(FixedFields(cb), items[..i])
          {
            assert items[..i + 1][..i] == items[..i];
            data := data[items[i].name := ValueOf(items[i])];
            i := i + 1;
          }
          assert items[..i] == items;
          r := Ok(data);
      }
    }

    /**
     * `stk_push` up to the POST: the phone is formatted, the access token
     * fetched, and the payload built with the password for `timestamp`.
     */
    method StkPush(cfg: Configuration, first: Reply, second: Reply, now: int, timestamp: string,
                   phone: Option<string>, amount: Json, accountReference: string, transactionDesc: string,
                   callbackUrl: string, transactionType: string)
      returns (r: Result<StkRequest, MpesaFailure>, requests: nat)
      requires IsTimestamp(timestamp)
      modifies store
      ensures var f := Fetch(old(store.tokens), cfg, first, second, now);
        store.tokens == f.tokens && requests == f.requests &&
        r == StkOutcome(cfg, f.outcome, shortcode, passkey, timestamp, phone, amount,
                        accountReference, transactionDesc, callbackUrl, transactionType)
    {
      var formatted := FormatPhone(phone);
      var token;
      token, requests := store.MpesaAccessToken(cfg, first, second, now);
      if token.Err? {
        r := Err(Token(token.error));
        return;
      }
      var password := StkPassword(shortcode, passkey, timestamp);
      var base := ApiBaseUrl(cfg);
      if base.Err? {
        r := Err(Config(base.error));
        return;
      }
      r := Ok(StkRequest(base.value + StkPath, token.value, shortcode, password, timestamp, transactionType,
                         amount, formatted, shortcode, formatted, callbackUrl, accountReference, transactionDesc));
    }

    /** `b2c_payment` up to the POST. */
    method B2cPayment(cfg: Configuration, first: Reply, second: Reply, now: int, phone: Option<string>,
                      amount: Json, desc: string, callbackUrl: string, occassion: string, commandId: string)
      returns (r: Result<B2cRequest, MpesaFailure>, requests: nat)
      modifies store
      ensures B2cResult(r, requests, store.tokens) ==
        B2cOutcome(old(store.tokens), cfg, first, second, now, phone, amount, desc, callbackUrl, occassion, commandId)
    {
      var check := B2cCheck(desc, amount);
      var settings := ReadB2cSettings(cfg);
      if check.Fail? {
        r, requests := Err(Invalid(check.error)), 0;
      } else if settings.Err? {
        r, requests := Err(Config(settings.error)), 0;
      } else {
        assert B2cOutcome(store.tokens, cfg, first, second, now, phone, amount, desc, callbackUrl, occassion, commandId) ==
          B2cSend(store.tokens, cfg, first, second, now, settings.value, phone, amount, desc, callbackUrl, occassion, commandId);
        r, requests := SendB2c(cfg, first, second, now, settings.value, phone, amount, desc, callbackUrl,
                               occassion, commandId);
      }
    }

    /** The token fetch and the payload of `b2c_payment`, once its settings are read. */
    method SendB2c(cfg: Configuration, first: Reply, second: Reply, now: int, st: B2cSettings,
                   phone: Option<string>, amount: Json, desc: string, callbackUrl: string, occassion: string,
                   commandId: string)
      returns (r: Result<B2cRequest, MpesaFailure>, requests: nat)
      modifies store
      ensures B2cResult(r, requests, store.tokens) ==
        B2cSend(old(store.tokens), cfg, first, second, now, st, phone, amount, desc, callbackUrl, occassion, commandId)
    {
      var formatted := FormatPhone(phone);
      var token;
      token, requests := store.MpesaAccessToken(cfg, first, second, now);
      if token.Err? {
        r := Err(Token(token.error));
        return;
      }
      r := Ok(B2cRequest(st.url, token.value, st.initiator, st.credential, commandId, amount,
                         st.shortcode, formatted, desc, callbackUrl, callbackUrl, occassion));
    }

    method BusinessPayment(cfg: Configuration, first: Reply, second: Reply, now: int, phone: Option<string>,
                           amount: Json, desc: string, callbackUrl: string, occassion: string)
      returns (r: Result<B2cRequest, MpesaFailure>, requests: nat)
      modifies store
      ensures B2cResult(r, requests, store.tokens) ==
        B2cOutcome(old(store.tokens), cfg, first, second, now, phone, amount, desc, callbackUrl, occassion, BusinessPaymentId)
    {
      r, requests := B2cPayment(cfg, first, second, now, phone, amount, desc, callbackUrl, occassion, BusinessPaymentId);
    }

    method CustomerRefund(cfg: Configuration, first: Reply, second: Reply, now: int, phone: Option<string>,
                          amount: Json, desc: string, callbackUrl: string, occassion: string)
      returns (r: Result<B2cRequest, MpesaFailure>, requests: nat)
      modifies store
      ensures B2cResult(r, requests, store.tokens) ==
        B2cOutcome(old(store.tokens), cfg, first, second, now, phone, amount, desc, callbackUrl, occassion, CustomerRefundId)
    {
      r, requests := B2cPayment(cfg, first, second, now, phone, amount, desc, callbackUrl, occassion, CustomerRefundId);
    }

    method PromotionPayment(cfg: Configuration, first: Reply, second: Reply, now: int, phone: Option<string>,
                            amount: Json, desc: string, callbackUrl: string, occassion: string)
      returns (r: Result<B2cRequest, MpesaFailure>, requests: nat)
      modifies store
      ensures B2cResult(r, requests, store.tokens) ==
        B2cOutcome(old(store.tokens), cfg, first, second, now, phone, amount, desc, callbackUrl, occassion, PromotionPaymentId)
    {
      r, requests := B2cPayment(cfg, first, second, now, phone, amount, desc, callbackUrl, occassion, PromotionPaymentId);
    }
  }
}
