/**
 * The open checkout endpoint: no sign-in, no customer lookup. Guards on the
 * secret key and the price id, then one session request built from the body
 * with `||` defaults taken from the request's `origin` header.
 */
module CreateCheckoutSession {
  import opened Wrappers
  import opened CheckoutCommon
  import JsValues

  /** `origin` is the value of the `origin` header, None when it is absent. */
  datatype Request = Preflight | Post(body: ParsedBody, origin: Option<string>)

  datatype SessionParams = SessionParams(lineItems: seq<LineItem>, mode: string, successUrl: string, cancelUrl: string)

  /** The reply, and the session request sent to the provider (None when none was sent). */
  datatype Outcome = Outcome(reply: Reply, requested: Option<SessionParams>)

  const KeyMissing := "STRIPE_SECRET_KEY not found in environment variables"
  const PriceRequired := "priceId is required"

  /** The parameters of the one `sessions.create` call, for a truthy price id. */
  function ParamsFor(priceId: string, body: CheckoutBody, origin: Option<string>): (p: SessionParams)
    ensures p.lineItems == [LineItem(Some(priceId), 1)] && p.mode == "payment"
    ensures JsValues.Truthy(body.successUrl) ==> p.successUrl == body.successUrl.value
    ensures !JsValues.Truthy(body.successUrl) ==>
      p.successUrl == JsValues.ShowNull(origin) + "/success?session_id=" + SessionIdPlaceholder
    ensures JsValues.Truthy(body.cancelUrl) ==> p.cancelUrl == body.cancelUrl.value
    ensures !JsValues.Truthy(body.cancelUrl) ==> p.cancelUrl == JsValues.ShowNull(origin) + "#pricing"
  {
    SessionParams(
      [LineItem(Some(priceId), 1)],
      "payment",
      JsValues.OrElse(body.successUrl, JsValues.ShowNull(origin) + "/success?session_id=" + SessionIdPlaceholder),
      JsValues.OrElse(body.cancelUrl, JsValues.ShowNull(origin) + "#pricing"))
  }

  /** One request to the endpoint; `secretKey` is `STRIPE_SECRET_KEY`, `provider` what the session request yields. */
  function Serve(req: Request, secretKey: Option<string>, provider: SessionResult): (o: Outcome)
    ensures req.Preflight? ==> o == Outcome(Reply(200, Empty), None)
    ensures req.Post? && !JsValues.Truthy(secretKey) ==> o == Outcome(Reply(500, Error(KeyMissing)), None)
    ensures req.Post? && JsValues.Truthy(secretKey) && req.body.Unparsable? ==>
      o == Outcome(Reply(500, Error(req.body.message)), None)
    ensures req.Post? && JsValues.Truthy(secretKey) && req.body.Parsed? && !JsValues.Truthy(req.body.body.priceId) ==>
      o == Outcome(Reply(500, Error(PriceRequired)), None)
    ensures o.requested.Some? <==>
      req.Post? && JsValues.Truthy(secretKey) && req.body.Parsed? && JsValues.Truthy(req.body.body.priceId)
    ensures o.requested.Some? ==>
      && o.requested.value == ParamsFor(req.body.body.priceId.value, req.body.body, req.origin)
      && o.reply == (match provider
                     case Created(url) => Reply(200, Url(url))
                     case Failed(message) => Reply(500, Error(message)))
    ensures o.reply.status == 200 || o.reply.status == 500
  {
    match req
    case Preflight => Outcome(Reply(200, Empty), None)
    case Post(parsed, origin) =>
      if !JsValues.Truthy(secretKey) then Outcome(Reply(500, Error(KeyMissing)), None)
      else
        match parsed
        case Unparsable(message) => Outcome(Reply(500, Error(message)), None)
        case Parsed(body) =>
          if !JsValues.Truthy(body.priceId) then Outcome(Reply(500, Error(PriceRequired)), None)
          else
            var params := ParamsFor(body.priceId.value, body, origin);
            match provider
            case Created(url) => Outcome(Reply(200, Url(url)), Some(params))
            case Failed(message) => Outcome(Reply(500, Error(message)), Some(params))
  }

  /** A missing or empty secret key is reported before the body is looked at: every body gets the same reply. */
  lemma KeyCheckPrecedesBody(a: ParsedBody, b: ParsedBody, origin: Option<string>, key: Option<string>, provider: SessionResult)
    requires !JsValues.Truthy(key)
    ensures Serve(Post(a, origin), key, provider) == Serve(Post(b, origin), key, provider)
  {
  }
}
