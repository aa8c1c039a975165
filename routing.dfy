/**
 * The gateway to the metered routing engine: it attaches the session's L402 credential to
 * every engine it builds and turns the engine's 402 failures into payment-required records,
 * while every other failure propagates unchanged.
 */
module Routing {
  import opened Wrappers
  import opened Json
  import opened L402

  const DefaultValhallaUrl: string := "https://routing.trotters.cc"
  /**
   * The message of the degraded record, character for character as the program holds it:
   * its dash is an em dash encoded twice, the three characters U+00E2, U+20AC and U+201D.
   */
  const DegradedMessage: string := "Payment required \U{E2}\U{20AC}\U{201D} could not parse invoice details."

  /**
   * A failure raised by an engine call: the engine's own error with its HTTP status and the
   * body as JSON.parse sees it (None when the text is not valid JSON), or anything else.
   */
  datatype EngineError =
    | ValhallaError(status: int, body: Option<Json>)
    | OtherError(cause: string)

  /** What an engine call produced: its result, or the failure it raised. */
  datatype EngineOutcome<R> = Ok(result: R) | Err(error: EngineError)

  /** What a gateway call returns: the engine's result, a payment challenge, or a rethrow. */
  datatype Gated<R> = Result(value: R) | Challenge(challenge: PaymentRequired) | Rethrow(error: EngineError)

  /** An engine as the gateway configures it: base URL and request headers. */
  datatype Engine = Engine(baseUrl: string, headers: map<string, string>)

  /** The optional configuration object and its optional URL. */
  datatype Config = Config(valhallaUrl: Option<string>)

  /** `config?.valhallaUrl ?? 'https://routing.trotters.cc'`. */
  function ConfiguredUrl(config: Option<Config>): (url: string)
    ensures config.Some? && config.value.valhallaUrl.Some? ==> url == config.value.valhallaUrl.value
    ensures config.None? || config.value.valhallaUrl.None? ==> url == DefaultValhallaUrl
  {
    if config.Some? && config.value.valhallaUrl.Some? then config.value.valhallaUrl.value
    else DefaultValhallaUrl
  }

  /** A body field that is present and not null. */
  predicate Supplied(body: Json, key: string)
  {
    body.JObject? && key in body.fields && !body.fields[key].JNull?
  }

  /** `body.payment_hash ?? ''`: the hash the record carries and the polling URL ends with. */
  function HashOf(body: Json): (h: Json)
    requires !body.JNull?
    ensures Supplied(body, "payment_hash") ==> h == body.fields["payment_hash"]
    ensures !Supplied(body, "payment_hash") ==> h == JString("")
  {
    Coalesce(Property(body, "payment_hash"), JString(""))
  }

  /**
   * The challenge built from a 402 whose body was read as the JSON value body (not null)
   * and whose hash converts to text: each field the body supplies is taken as it is, a
   * missing or null one gets its default, and the polling URL ends with the hash as text.
   */
  function BodyChallenge(valhallaUrl: string, body: Json): (c: PaymentRequired)
    requires !body.JNull? && !ConversionThrows(HashOf(body))
    ensures c.status == PaymentRequiredStatus && c.message == FreeTierMessage
    ensures Supplied(body, "invoice") ==> c.invoice == body.fields["invoice"]
    ensures !Supplied(body, "invoice") ==> c.invoice == JString("")
    ensures Supplied(body, "macaroon") ==> c.macaroon == body.fields["macaroon"]
    ensures !Supplied(body, "macaroon") ==> c.macaroon == JString("")
    ensures Supplied(body, "payment_hash") ==> c.paymentHash == body.fields["payment_hash"]
    ensures !Supplied(body, "payment_hash") ==> c.paymentHash == JString("")
    ensures Supplied(body, "amount_sats") ==> c.amountSats == body.fields["amount_sats"]
    ensures !Supplied(body, "amount_sats") ==> c.amountSats == JNumber(DefaultAmountSats)
    ensures c.paymentUrl == valhallaUrl + InvoiceStatusPath + TemplateString(c.paymentHash).value
  {
    var hash := HashOf(body);
    PaymentRequired(
      status := PaymentRequiredStatus,
      message := FreeTierMessage,
      invoice := Coalesce(Property(body, "invoice"), JString("")),
      macaroon := Coalesce(Property(body, "macaroon"), JString("")),
      paymentHash := hash,
      paymentUrl := valhallaUrl + InvoiceStatusPath + TemplateString(hash).value,
      amountSats := Coalesce(Property(body, "amount_sats"), JNumber(DefaultAmountSats)))
  }

  /**
   * The challenge returned when the 402 body could not be parsed or read: no invoice
   * details at all, the default amount, and the engine's base URL to poll.
   */
  function DegradedChallenge(valhallaUrl: string): (c: PaymentRequired)
    ensures c.status == PaymentRequiredStatus && c.message == DegradedMessage
    ensures c.invoice == JString("") && c.macaroon == JString("") && c.paymentHash == JString("")
    ensures c.paymentUrl == valhallaUrl && c.amountSats == JNumber(DefaultAmountSats)
  {
    PaymentRequired(
      status := PaymentRequiredStatus,
      message := DegradedMessage,
      invoice := JString(""),
      macaroon := JString(""),
      paymentHash := JString(""),
      paymentUrl := valhallaUrl,
      amountSats := JNumber(DefaultAmountSats))
  }

  /**
   * A body the handler can read: valid JSON, not `null`, with a hash that converts to text.
   */
  predicate ReadableBody(err: EngineError)
    requires err.ValhallaError?
  {
    err.body.Some? && !err.body.value.JNull? && !ConversionThrows(HashOf(err.body.value))
  }

  /**
   * The gateway's error handler. An engine error with status 402 always becomes a
   * payment-required record. With a readable body its fields come from the body or default.
   * Otherwise it is the degraded record: the body is invalid JSON, or JSON `null` (on which
   * the field access throws), or its hash is a value whose conversion to text throws. Every other error is rethrown unchanged; a result is never produced.
   */
  function HandleError<R>(valhallaUrl: string, err: EngineError): (g: Gated<R>)
    ensures !g.Result?
    ensures g.Rethrow? <==> !(err.ValhallaError? && err.status == 402)
    ensures g.Rethrow? ==> g.error == err
    ensures g.Challenge? ==> g.challenge.status == PaymentRequiredStatus
    ensures g.Challenge? && !ReadableBody(err) ==> g.challenge == DegradedChallenge(valhallaUrl)
    ensures g.Challenge? && ReadableBody(err) ==>
      var body := err.body.value;
      var c := g.challenge;
      && c.message == FreeTierMessage
      && c.paymentHash == HashOf(body)
      && (Supplied(body, "invoice") ==> c.invoice == body.fields["invoice"])
      && (!Supplied(body, "invoice") ==> c.invoice == JString(""))
      && (Supplied(body, "macaroon") ==> c.macaroon == body.fields["macaroon"])
      && (!Supplied(body, "macaroon") ==> c.macaroon == JString(""))
      && (Supplied(body, "payment_hash") ==> c.paymentHash == body.fields["payment_hash"])
      && (!Supplied(body, "payment_hash") ==> c.paymentHash == JString(""))
      && (Supplied(body, "amount_sats") ==> c.amountSats == body.fields["amount_sats"])
      && (!Supplied(body, "amount_sats") ==> c.amountSats == JNumber(DefaultAmountSats))
      && c.paymentUrl == valhallaUrl + InvoiceStatusPath + TemplateString(c.paymentHash).value
  {
    if err.ValhallaError? && err.status == 402 then
      match err.body
      case None => Challenge(DegradedChallenge(valhallaUrl))
      case Some(body) =>
        if body.JNull? || TemplateString(HashOf(body)).None? then Challenge(DegradedChallenge(valhallaUrl))
        else Challenge(BodyChallenge(valhallaUrl, body))
    else
      Rethrow(err)
  }

  /**
   * One gateway call (route, isochrone or matrix): the engine's result is returned as it is,
   * and a failure goes through the error handler.
   */
  function Dispatch<R>(valhallaUrl: string, outcome: EngineOutcome<R>): (g: Gated<R>)
    ensures g.Result? <==> outcome.Ok?
    ensures outcome.Ok? ==> g.value == outcome.result
    ensures outcome.Err? ==> g == HandleError(valhallaUrl, outcome.error)
  {
    match outcome
    case Ok(r) => Result(r)
    case Err(e) => HandleError(valhallaUrl, e)
  }

  /** A payment-required record as the JSON object the caller receives. */
  function ChallengeJson(c: PaymentRequired): Json
  {
    JObject(map[
      "status" := JString(c.status),
      "message" := JString(c.message),
      "invoice" := c.invoice,
      "macaroon" := c.macaroon,
      "payment_hash" := c.paymentHash,
      "payment_url" := JString(c.paymentUrl),
      "amount_sats" := c.amountSats])
  }

  /** The type guard: a non-null object whose `status` is "payment_required". */
  predicate IsPaymentRequired(x: Json)
    ensures !x.JObject? ==> !IsPaymentRequired(x)
    ensures x.JObject? && "status" !in x.fields ==> !IsPaymentRequired(x)
    ensures x.JObject? && "status" in x.fields && x.fields["status"] != JString(PaymentRequiredStatus) ==> !IsPaymentRequired(x)
  {
    x.JObject? && "status" in x.fields && x.fields["status"] == JString(PaymentRequiredStatus)
  }

  /**
   * The guard recognises every record the gateway or the header parser produces, and no
   * object that lacks a status field (an engine result).
   */
  lemma IsPaymentRequiredDiscriminates<R>(valhallaUrl: string, err: EngineError, header: string, fields: map<string, Json>)
    ensures HandleError<R>(valhallaUrl, err).Challenge? ==>
      IsPaymentRequired(ChallengeJson(HandleError<R>(valhallaUrl, err).challenge))
    ensures Parse402(header, valhallaUrl).Some? ==>
      IsPaymentRequired(ChallengeJson(Parse402(header, valhallaUrl).value))
    ensures "status" !in fields ==> !IsPaymentRequired(JObject(fields))
    ensures !IsPaymentRequired(JNull)
  {
  }

  /** A 402 body carrying all four fields: each is passed through, and the URL ends with the hash. */
  lemma PaidBodyExample<R>(valhallaUrl: string, body: Json)
    requires body == JObject(map[
      "invoice" := JString("lnbc..."), "macaroon" := JString("mac"),
      "payment_hash" := JString("hash"), "amount_sats" := JNumber(1000)])
    ensures HandleError<R>(valhallaUrl, ValhallaError(402, Some(body))) ==
      Challenge(PaymentRequired(PaymentRequiredStatus, FreeTierMessage, JString("lnbc..."), JString("mac"),
                                JString("hash"), valhallaUrl + "/invoice-status/hash", JNumber(1000)))
  {
  }

  /** An empty JSON object: every field defaults, and the URL ends with the bare path. */
  lemma EmptyBodyDefaults<R>(valhallaUrl: string)
    ensures HandleError<R>(valhallaUrl, ValhallaError(402, Some(JObject(map[])))) ==
      Challenge(PaymentRequired(PaymentRequiredStatus, FreeTierMessage, JString(""), JString(""),
                                JString(""), valhallaUrl + InvoiceStatusPath, JNumber(DefaultAmountSats)))
  {
  }

  /**
   * A hash that cannot be turned into text, here an object with its own `toString` key or an
   * array holding one, makes the template literal throw: the degraded record, as for a body
   * that is not JSON at all.
   */
  lemma UnconvertibleHashDegrades<R>(valhallaUrl: string)
    ensures HandleError<R>(valhallaUrl, ValhallaError(402, Some(JObject(map[
      "payment_hash" := JObject(map["toString" := JNumber(1)])])))) ==
      Challenge(DegradedChallenge(valhallaUrl))
    ensures HandleError<R>(valhallaUrl, ValhallaError(402, Some(JObject(map[
      "payment_hash" := JArray([JString("a"), JArray([JObject(map["toString" := JNull])])])])))) ==
      Challenge(DegradedChallenge(valhallaUrl))
  {
  }

  /** The degraded message carries the mis-encoded dash, not a single em dash. */
  lemma DegradedMessageDash()
    ensures DegradedMessage[17] == 0xE2 as char && DegradedMessage[18] == 0x20AC as char
    ensures DegradedMessage[19] == 0x201D as char
    ensures DegradedMessage != "Payment required \U{2014} could not parse invoice details."
  {
  }

  /** An object hash without its own `toString` key converts to "[object Object]". */
  lemma ObjectHashText<R>(valhallaUrl: string)
    ensures HandleError<R>(valhallaUrl, ValhallaError(402, Some(JObject(map[
      "payment_hash" := JObject(map["id" := JNumber(7)])])))).challenge.paymentUrl ==
      valhallaUrl + InvoiceStatusPath + "[object Object]"
  {
  }

  /** The gateway owned by one session: the engine's base URL and the session's credentials. */
  class RoutingClient {
    const valhallaUrl: string
    const l402: L402State

    constructor (config: Option<Config>)
      ensures valhallaUrl == ConfiguredUrl(config)
      ensures fresh(l402) && l402.GetAuthHeader() == None
    {
      valhallaUrl := ConfiguredUrl(config);
      l402 := new L402State();
    }

    /** Store L402 credentials after the user pays an invoice. */
    method StoreL402Credentials(macaroon: string, preimage: string)
      modifies l402
      ensures l402.macaroon == Some(macaroon) && l402.preimage == Some(preimage)
      ensures l402.GetAuthHeader() == if macaroon != "" && preimage != "" then Some(HeaderValue(macaroon, preimage)) else None
    {
      l402.Store(macaroon, preimage);
    }

    /**
     * Build an engine with the current auth headers: an Authorization header exactly when
     * the session holds a credential, and no other header.
     */
    method GetEngine() returns (engine: Engine)
      ensures engine.baseUrl == valhallaUrl
      ensures engine.headers.Keys <= {"Authorization"}
      ensures "Authorization" in engine.headers <==> l402.GetAuthHeader().Some?
      ensures "Authorization" in engine.headers ==> engine.headers["Authorization"] == l402.GetAuthHeader().value
    {
      var headers: map<string, string> := map[];
      var auth := l402.GetAuthHeader();
      if auth.Some? && auth.value != "" {
        headers := headers["Authorization" := auth.value];
      }
      engine := Engine(valhallaUrl, headers);
    }

    /**
     * A gateway call (computeRoute, computeIsochrone or computeRouteMatrix): the engine is
     * built with the current headers, the network call is represented by its outcome, and
     * the outcome is dispatched.
     */
    method Compute<R>(outcome: EngineOutcome<R>) returns (engine: Engine, g: Gated<R>)
      ensures engine.baseUrl == valhallaUrl
      ensures engine.headers.Keys <= {"Authorization"}
      ensures "Authorization" in engine.headers <==> l402.GetAuthHeader().Some?
      ensures "Authorization" in engine.headers ==> engine.headers["Authorization"] == l402.GetAuthHeader().value
      ensures outcome.Ok? ==> g == Result(outcome.result)
      ensures outcome.Err? && outcome.error.ValhallaError? && outcome.error.status == 402 ==> g.Challenge?
      ensures outcome.Err? && !(outcome.error.ValhallaError? && outcome.error.status == 402) ==> g == Rethrow(outcome.error)
      ensures g == Dispatch(valhallaUrl, outcome)
    {
      engine := GetEngine();
      match outcome {
        case Ok(r) => g := Result(r);
        case Err(e) => g := HandleError(valhallaUrl, e);
      }
    }
  }

  /**
   * A session: after credentials are stored, the next engine carries them as its only
   * header; a default-configured client talks to the default URL.
   */
  method StoreThenBuild(macaroon: string, preimage: string) returns (engine: Engine)
    requires macaroon != "" && preimage != ""
    ensures engine == Engine(DefaultValhallaUrl, map["Authorization" := "L402 " + macaroon + ":" + preimage])
  {
    var client := new RoutingClient(None);
    client.StoreL402Credentials(macaroon, preimage);
    engine := client.GetEngine();
  }
}
