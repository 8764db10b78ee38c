/** The first checkout handler (api/createTransaction.js): POST only, three
    required body fields, a private key, then one POST of a flat transaction
    record to the gateway, whose answer is forwarded as 200 or 400. */
module CreateTransaction {
  import opened Js
  import opened Checkout

  const ProductionTransactionsUrl := "https://production.wompi.co/v1/transactions"
  const SandboxTransactionsUrl := "https://sandbox.wompi.co/v1/transactions"
  const DefaultRedirect := "https://noda.tech/payment/confirmation"

  datatype Metadata = Metadata(productName: Value)

  /** The record the handler serialises as the POST body; `payment_method_type`
      is the generic field it adds after building the literal. */
  datatype TransactionBody = TransactionBody(
    amountInCents: Option<int>,
    currency: Value,
    customerEmail: Value,
    reference: Value,
    redirectUrl: string,
    metadata: Metadata,
    paymentMethodType: Value)

  /** The endpoint this handler posts to, written out in full for each
      environment: production exactly for the selector `production`. */
  function TransactionsUrl(env: Config): (url: string)
    ensures url == ProductionTransactionsUrl <==> IsProduction(env)
    ensures url == SandboxTransactionsUrl <==> !IsProduction(env)
    ensures url == ApiBase(env) + "/transactions"
  {
    if IsProduction(env) then ProductionTransactionsUrl else SandboxTransactionsUrl
  }

  /** The transaction body built from the destructured fields, the environment
      and the clock. */
  function BuildBody(f: Fields, env: Config, now: nat): (b: TransactionBody)
    ensures b.amountInCents == AmountInCents(f.amount)
    ensures b.currency == f.currency
    ensures b.customerEmail == f.customerEmail
    ensures b.paymentMethodType == f.paymentMethod
    ensures Truthy(f.reference) ==> b.reference == f.reference
    ensures !Truthy(f.reference) ==> b.reference == Str(GeneratedReference(now))
    ensures IsSet(env.paymentReturnUrl) ==> b.redirectUrl == env.paymentReturnUrl.value
    ensures !IsSet(env.paymentReturnUrl) ==> b.redirectUrl == DefaultRedirect
    ensures Truthy(f.productName) ==> b.metadata.productName == f.productName
    ensures !Truthy(f.productName) ==> b.metadata.productName == Str("")
  {
    var body := TransactionBody(
      AmountInCents(f.amount),
      f.currency,
      f.customerEmail,
      Or(f.reference, Str(GeneratedReference(now))),
      RedirectUrl(env, DefaultRedirect),
      Metadata(Or(f.productName, Str(""))),
      Undefined);
    body.(paymentMethodType := f.paymentMethod)
  }

  /** Every check passed, so the handler goes on to call the gateway. */
  predicate Proceeds(req: Request, env: Config) {
    && req.httpMethod == "POST"
    && !Nullish(req.body)
    && !MissingRequired(Destructure(req.body).value)
    && IsSet(env.privateKey)
  }

  /** The handler, given the request, `process.env`, `Date.now()` and the
      gateway's reply to the transaction POST. */
  function Handle(req: Request, env: Config, now: nat, reply: Reply): (o: Outcome<TransactionBody>)
    // Any method but POST: 405, and nothing else is looked at or called.
    ensures req.httpMethod != "POST" ==> o == Outcome([], ErrorResponse(405, "Method not allowed"))
    // At most one outbound request, and it is issued exactly when every check passed.
    ensures |o.calls| <= 1
    ensures |o.calls| == 1 <==> Proceeds(req, env)
    // Destructuring a missing body throws inside the try block.
    ensures req.httpMethod == "POST" && Nullish(req.body) ==> o.response == Crash
    ensures req.httpMethod == "POST" && !Nullish(req.body) && MissingRequired(Destructure(req.body).value)
            ==> o.response == ErrorResponse(400, "Missing required fields")
    ensures req.httpMethod == "POST" && !Nullish(req.body) && !MissingRequired(Destructure(req.body).value)
            && !IsSet(env.privateKey)
            ==> o.response == ErrorResponse(500, "WOMPI_PRIVATE_KEY not configured")
    // The one request: the transaction endpoint of the selected environment,
    // the private key as bearer token, the body built from the fields.
    ensures Proceeds(req, env) ==>
              && o.calls[0].Post?
              && o.calls[0].url == TransactionsUrl(env)
              && o.calls[0].authorization == Bearer(env.privateKey.value)
              && o.calls[0].payload == BuildBody(Destructure(req.body).value, env, now)
              && o.response == Forward(reply)
  {
    if req.httpMethod != "POST" then
      Outcome([], ErrorResponse(405, "Method not allowed"))
    else
      match Destructure(req.body)
      case None => Outcome([], Crash)
      case Some(f) =>
        if MissingRequired(f) then
          Outcome([], ErrorResponse(400, "Missing required fields"))
        else if !IsSet(env.privateKey) then
          Outcome([], ErrorResponse(500, "WOMPI_PRIVATE_KEY not configured"))
        else
          var body := BuildBody(f, env, now);
          Outcome([Post(TransactionsUrl(env), Bearer(env.privateKey.value), body)], Forward(reply))
  }

  /** The handler's own messages (405, 400 and the missing-key 500) are given
      before any outbound request; a forwarded gateway body comes only after
      the one request, and then the answer is the gateway's status class. */
  lemma ValidationPrecedesCall(req: Request, env: Config, now: nat, reply: Reply)
    ensures var o := Handle(req, env, now, reply);
            o.response.body.Message? ==> o.calls == []
    ensures var o := Handle(req, env, now, reply);
            o.response.body.Forwarded? ==> |o.calls| == 1
    ensures var o := Handle(req, env, now, reply);
            o.calls != [] ==> o.response == Forward(reply)
  {
  }

  /** The gateway reply only matters once the request was sent: an early answer
      is the same whatever the gateway would have said. */
  lemma EarlyAnswerIgnoresGateway(req: Request, env: Config, now: nat, r1: Reply, r2: Reply)
    requires !Proceeds(req, env)
    ensures Handle(req, env, now, r1) == Handle(req, env, now, r2)
  {
  }

  /** Two requests that reach the gateway in different milliseconds without a
      caller reference carry different references. */
  lemma DistinctClocksDistinctReferences(f: Fields, env: Config, t1: nat, t2: nat)
    requires !Truthy(f.reference) && t1 != t2
    ensures BuildBody(f, env, t1).reference != BuildBody(f, env, t2).reference
  {
    GeneratedReferenceInjective(t1, t2);
  }
}
