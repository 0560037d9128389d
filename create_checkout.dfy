/**
 * The checkout endpoint that knows the signed-in user. With an
 * `Authorization` header and a user behind it, the user's provider customer
 * is looked up in `stripe_customers` or, failing that, created at the
 * provider and recorded; the session then names that customer. Without one
 * the provider is told to create a customer at checkout.
 *
 * The provider's and the database's answers are inputs:
 * - `authUser` is what `auth.getUser()` returns;
 * - `readOk` says whether the `stripe_customers` read succeeded (a failed
 *   read yields null data, which the handler takes for "no mapping");
 * - `newCustomer` is what `customers.create` would return;
 * - `insertOk` says whether the database accepts the mapping insert (its
 *   result is not checked);
 * - `provider` is what `sessions.create` returns.
 */
module CreateCheckout {
  import opened Wrappers
  import opened CustomerDirectory
  import opened CheckoutCommon
  import JsValues

  datatype User = User(id: UserId, email: Option<string>)

  /** `authorization` is the value of the `Authorization` header, None when it is absent. */
  datatype Request = Preflight | Post(body: ParsedBody, authorization: Option<string>)

  /** A customer created at the provider, with the email and the `supabase_user_id` metadata it was given. */
  datatype ProviderCustomer = ProviderCustomer(id: CustomerId, email: Option<string>, supabaseUserId: UserId)

  /** What `stripe.customers.create` yields: the new customer's id, or the provider's error message. */
  datatype CustomerResult = CustomerCreated(id: CustomerId) | CustomerFailed(message: string)

  /** The session parameters; `customer`, `metadata.user_id` and `customer_creation` are None when not set. */
  datatype SessionConfig = SessionConfig(
    paymentMethodTypes: seq<string>,
    lineItems: seq<LineItem>,
    mode: string,
    successUrl: string,
    cancelUrl: Option<string>,
    customer: Option<CustomerId>,
    metadataUserId: Option<string>,
    customerCreation: Option<string>)

  const PlaceholderKey := "your_stripe_secret_key_here"
  const KeyNotConfigured := "Stripe secret key is not configured"

  /** The secret key is usable when it is set, non-empty and not the template placeholder. */
  predicate KeyConfigured(key: Option<string>) {
    JsValues.Truthy(key) && key.value != PlaceholderKey
  }

  /**
   * The session parameters for a body, the resolved customer id (if any) and
   * the signed-in user's id (if any): one card line item of quantity 1 in
   * payment mode, the success URL with the session-id query appended, the
   * cancel URL as given, and either the customer or `customer_creation`.
   */
  function ConfigFor(body: CheckoutBody, customerId: Option<CustomerId>, userId: Option<UserId>): (c: SessionConfig)
    ensures c.paymentMethodTypes == ["card"] && c.mode == "payment"
    ensures c.lineItems == [LineItem(body.priceId, 1)]
    ensures c.successUrl == JsValues.ShowUndefined(body.successUrl) + "&session_id=" + SessionIdPlaceholder
    ensures c.cancelUrl == body.cancelUrl
    ensures c.customer.Some? <==> c.customerCreation.None?
    ensures JsValues.Truthy(customerId) ==>
      c.customer == customerId && c.metadataUserId == Some(JsValues.OrElse(userId, ""))
    ensures !JsValues.Truthy(customerId) ==>
      c.customerCreation == Some("always") && c.metadataUserId.None?
  {
    var base := SessionConfig(["card"], [LineItem(body.priceId, 1)], "payment",
                              JsValues.ShowUndefined(body.successUrl) + "&session_id=" + SessionIdPlaceholder,
                              body.cancelUrl, None, None, None);
    if JsValues.Truthy(customerId) then
      base.(customer := customerId, metadataUserId := Some(JsValues.OrElse(userId, "")))
    else
      base.(customerCreation := Some("always"))
  }

  /** `.select('customer_id').eq('user_id', u).maybeSingle()`: null data when the read fails. */
  function ExistingCustomer(rows: seq<Mapping>, u: UserId, readOk: bool): (r: Option<CustomerId>)
    ensures r.Some? ==> Mapping(u, r.value) in rows
    ensures !readOk ==> r.None?
  {
    if readOk then CustomerOfUser(rows, u) else None
  }

  /** The customer id the resolve-or-create step settles on, if it succeeds. */
  function Resolved(rows: seq<Mapping>, user: User, newCustomer: CustomerResult, readOk: bool): Option<CustomerId> {
    match ExistingCustomer(rows, user.id, readOk)
    case Some(existing) => Some(existing)
    case None => if newCustomer.CustomerCreated? then Some(newCustomer.id) else None
  }

  /**
   * A failed read for a user who already has a mapping makes the endpoint
   * create a second provider customer: the session names the new one, and
   * the mapping insert for it is refused because the user id is taken.
   */
  lemma FailedReadOfMappedUser(rows: seq<Mapping>, user: User, existing: CustomerId, created: CustomerId)
    requires Unique(rows) && CustomerOfUser(rows, user.id) == Some(existing)
    ensures Resolved(rows, user, CustomerCreated(created), false) == Some(created)
    ensures !Insertable(rows, Mapping(user.id, created))
  {
    assert Mapping(user.id, existing) in rows;
    var k :| 0 <= k < |rows| && rows[k] == Mapping(user.id, existing);
    assert rows[k].userId == user.id;
  }

  /** The user the handler works for: the one `getUser` returns, but only when an `Authorization` header is present. */
  function SignedIn(req: Request, authUser: Option<User>): Option<User>
    requires req.Post?
  {
    if JsValues.Truthy(req.authorization) then authUser else None
  }

  class CheckoutService {
    /** The `stripe_customers` table. */
    var mappings: seq<Mapping>
    /** Customers this endpoint has created at the provider. */
    var providerCustomers: seq<ProviderCustomer>
    /** Sessions this endpoint has created at the provider. */
    var sessions: seq<SessionConfig>

    ghost predicate Valid()
      reads this
    {
      Unique(mappings)
    }

    constructor (mappings: seq<Mapping>)
      requires Unique(mappings)
      ensures Valid()
      ensures this.mappings == mappings && providerCustomers == [] && sessions == []
    {
      this.mappings := mappings;
      providerCustomers := [];
      sessions := [];
    }

    /**
     * Resolve-or-create: reuse the user's mapping when there is one;
     * otherwise create one provider customer and insert one mapping for it.
     */
    method ResolveCustomer(user: User, newCustomer: CustomerResult, readOk: bool, insertOk: bool)
      returns (r: Result<CustomerId, string>)
      requires Valid()
      modifies this
      ensures Valid()
      ensures sessions == old(sessions)
      ensures r.Ok? <==> Resolved(old(mappings), user, newCustomer, readOk).Some?
      ensures r.Ok? ==> r.value == Resolved(old(mappings), user, newCustomer, readOk).value
      ensures ExistingCustomer(old(mappings), user.id, readOk).Some? || newCustomer.CustomerFailed? ==>
        mappings == old(mappings) && providerCustomers == old(providerCustomers)
      ensures ExistingCustomer(old(mappings), user.id, readOk).None? && newCustomer.CustomerFailed? ==>
        r == Err(newCustomer.message)
      ensures ExistingCustomer(old(mappings), user.id, readOk).None? && newCustomer.CustomerCreated? ==>
        && providerCustomers == old(providerCustomers) + [ProviderCustomer(newCustomer.id, user.email, user.id)]
        && mappings == (if insertOk && Insertable(old(mappings), Mapping(user.id, newCustomer.id))
                        then old(mappings) + [Mapping(user.id, newCustomer.id)]
                        else old(mappings))
    {
      var existing := ExistingCustomer(mappings, user.id, readOk);
      if existing.Some? {
        return Ok(existing.value);
      }
      match newCustomer {
        case CustomerFailed(message) =>
          return Err(message);
        case CustomerCreated(id) =>
          providerCustomers := providerCustomers + [ProviderCustomer(id, user.email, user.id)];
          if insertOk {
            var inserted := Insert(mappings, Mapping(user.id, id));
            if inserted.Some? {
              mappings := inserted.value;
            }
          }
          r := Ok(id);
      }
    }

    /** Serves one request to the endpoint. */
    method Handle(req: Request, secretKey: Option<string>, authUser: Option<User>, readOk: bool,
                  newCustomer: CustomerResult, insertOk: bool, provider: SessionResult)
      returns (reply: Reply)
      requires Valid()
      modifies this
      ensures Valid()
      ensures req.Preflight? ==> reply == Reply(200, Empty) && unchanged(this)
      ensures req.Post? && req.body.Unparsable? ==> reply == Reply(400, Error(req.body.message)) && unchanged(this)
      ensures req.Post? && req.body.Parsed? && !KeyConfigured(secretKey) ==>
        reply == Reply(400, Error(KeyNotConfigured)) && unchanged(this)
      ensures reply.status == 200 || reply.status == 400
      // nothing is looked up or created for a request without a signed-in user
      ensures req.Post? && SignedIn(req, authUser).None? ==>
        mappings == old(mappings) && providerCustomers == old(providerCustomers)
      // resolve-or-create for a signed-in user
      ensures req.Post? && req.body.Parsed? && KeyConfigured(secretKey) && SignedIn(req, authUser).Some? ==>
        var user := SignedIn(req, authUser).value;
        var existing := ExistingCustomer(old(mappings), user.id, readOk);
        && (existing.Some? ==> mappings == old(mappings) && providerCustomers == old(providerCustomers))
        && (existing.None? && newCustomer.CustomerFailed? ==>
              && reply == Reply(400, Error(newCustomer.message))
              && mappings == old(mappings) && providerCustomers == old(providerCustomers) && sessions == old(sessions))
        && (existing.None? && newCustomer.CustomerCreated? ==>
              && providerCustomers == old(providerCustomers) + [ProviderCustomer(newCustomer.id, user.email, user.id)]
              && mappings == (if insertOk && Insertable(old(mappings), Mapping(user.id, newCustomer.id))
                              then old(mappings) + [Mapping(user.id, newCustomer.id)]
                              else old(mappings)))
      // at most one provider customer, one mapping and one session per request
      ensures |providerCustomers| <= |old(providerCustomers)| + 1
      ensures old(mappings) <= mappings && |mappings| <= |old(mappings)| + 1
      ensures sessions == old(sessions) || (|sessions| == |old(sessions)| + 1 && sessions[..|old(sessions)|] == old(sessions))
      // a session is created exactly when every step before it succeeded
      ensures |sessions| == |old(sessions)| + 1 <==>
        && req.Post? && req.body.Parsed? && KeyConfigured(secretKey) && provider.Created?
        && (SignedIn(req, authUser).Some? ==> Resolved(old(mappings), SignedIn(req, authUser).value, newCustomer, readOk).Some?)
      // a failed session request is answered 400 with the provider's message
      ensures req.Post? && req.body.Parsed? && KeyConfigured(secretKey) && provider.Failed?
              && (SignedIn(req, authUser).Some? ==> Resolved(old(mappings), SignedIn(req, authUser).value, newCustomer, readOk).Some?) ==>
        reply == Reply(400, Error(provider.message)) && sessions == old(sessions)
      ensures |sessions| == |old(sessions)| + 1 ==>
        && reply == Reply(200, Url(provider.url))
        && var user := SignedIn(req, authUser);
           sessions[|old(sessions)|] ==
             ConfigFor(req.body.body,
                       if user.Some? then Resolved(old(mappings), user.value, newCustomer, readOk) else None,
                       if user.Some? then Some(user.value.id) else None)
    {
      if req.Preflight? {
        return Reply(200, Empty);
      }
      if req.body.Unparsable? {
        return Reply(400, Error(req.body.message));
      }
      var body := req.body.body;
      if !KeyConfigured(secretKey) {
        return Reply(400, Error(KeyNotConfigured));
      }
      var user: Option<User> := None;
      var customerId: Option<CustomerId> := None;
      if JsValues.Truthy(req.authorization) {
        user := authUser;
        if user.Some? {
          var resolved := ResolveCustomer(user.value, newCustomer, readOk, insertOk);
          if resolved.Err? {
            return Reply(400, Error(resolved.error));
          }
          customerId := Some(resolved.value);
        }
      }
      var userId := if user.Some? then Some(user.value.id) else None;
      var config := SessionConfig(["card"], [LineItem(body.priceId, 1)], "payment",
                                  JsValues.ShowUndefined(body.successUrl) + "&session_id=" + SessionIdPlaceholder,
                                  body.cancelUrl, None, None, None);
      if JsValues.Truthy(customerId) {
        config := config.(customer := customerId, metadataUserId := Some(JsValues.OrElse(userId, "")));
      } else {
        config := config.(customerCreation := Some("always"));
      }
      match provider {
        case Created(url) =>
          sessions := sessions + [config];
          reply := Reply(200, Url(url));
        case Failed(message) =>
          reply := Reply(400, Error(message));
      }
    }
  }
}
