/**
 * What the two checkout-session endpoints share: the JSON body they read,
 * the line item they send, the result of asking the payment provider for a
 * session, and the JSON replies.
 */
module CheckoutCommon {
  import opened Wrappers

  /** `{priceId, successUrl, cancelUrl}`; a field the caller left out is None. */
  datatype CheckoutBody = CheckoutBody(priceId: Option<string>, successUrl: Option<string>, cancelUrl: Option<string>)

  /** What `await req.json()` yields: the body, or the message of the error it threw. */
  datatype ParsedBody = Parsed(body: CheckoutBody) | Unparsable(message: string)

  datatype LineItem = LineItem(price: Option<string>, quantity: int)

  /** What `stripe.checkout.sessions.create` yields: the hosted page's URL, or the provider's error message. */
  datatype SessionResult = Created(url: string) | Failed(message: string)

  /** No body (the preflight answer), `{url}`, or `{error}`. */
  datatype Body = Empty | Url(url: string) | Error(message: string)

  datatype Reply = Reply(status: int, body: Body)

  /** The token the provider replaces with the session id when it redirects. */
  const SessionIdPlaceholder := "{CHECKOUT_SESSION_ID}"
}
