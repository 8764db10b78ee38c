/** The second, later transaction-creation handler (api/webhook.js; despite its
    file name it processes no webhook). It answers GET with a health message,
    requires both gateway keys, looks up the merchant to obtain an acceptance
    token, and posts a transaction whose `payment_method` is a tagged variant. */
module Webhook {
  import opened Js
  import opened Checkout
  import CreateTransaction

  const HealthMessage := "\U{2705} API funcionando correctamente en Vercel"
  const DefaultRedirect := "https://nodos.vercel.app/pago-exitoso.html"
  const DefaultProductName := Str("Producto Nodos")

  /** The `payment_method` object, one variant per branch of the source. */
  datatype PaymentMethod =
    | Nequi(phoneNumber: Value)
    | Pse(userType: int, userLegalId: string, userLegalIdType: string)
    | Other(kind: Value)

  /** The `type` field each variant is serialised with: the fixed tag of NEQUI
      and PSE, the caller's value otherwise. */
  function TypeField(pm: PaymentMethod): (t: Value)
    ensures pm.Nequi? ==> t == Str("NEQUI")
    ensures pm.Pse? ==> t == Str("PSE")
    ensures pm.Other? ==> t == pm.kind
  {
    match pm
    case Nequi(_) => Str("NEQUI")
    case Pse(_, _, _) => Str("PSE")
    case Other(kind) => kind
  }

  datatype Metadata = Metadata(productName: Value)

  /** The record the handler serialises as the transaction POST body. */
  datatype TransactionBody = TransactionBody(
    amountInCents: Option<int>,
    currency: Value,
    customerEmail: Value,
    reference: string,
    acceptanceToken: Value,
    redirectUrl: string,
    paymentMethod: PaymentMethod,
    metadata: Metadata)

  /** `${baseUrl}/merchants/${publicKey}`: the API root of the selected
      environment, then the merchants path, then the public key verbatim. */
  function MerchantUrl(env: Config, publicKey: string): (url: string)
    ensures |url| == |ApiBase(env)| + 11 + |publicKey|
    ensures url[..|ApiBase(env)|] == ApiBase(env)
    ensures url[|ApiBase(env)|..|ApiBase(env)| + 11] == "/merchants/"
    ensures url[|ApiBase(env)| + 11..] == publicKey
  {
    ApiBase(env) + "/merchants/" + publicKey
  }

  /** `${baseUrl}/transactions`: the same endpoint the first handler writes out
      in full for each environment. */
  function TransactionsUrl(env: Config): (url: string)
    ensures url == CreateTransaction.TransactionsUrl(env)
    ensures url == CreateTransaction.ProductionTransactionsUrl <==> IsProduction(env)
  {
    ApiBase(env) + "/transactions"
  }

  /** The merchant-lookup URL determines both the environment and the public
      key it was built from. */
  lemma MerchantUrlInjective(e1: Config, k1: string, e2: Config, k2: string)
    requires MerchantUrl(e1, k1) == MerchantUrl(e2, k2)
    ensures IsProduction(e1) == IsProduction(e2)
    ensures k1 == k2
  {
    var u := MerchantUrl(e1, k1);
    assert u[8] == MerchantUrl(e2, k2)[8];
    assert ApiBase(e1)[8] == u[8] == ApiBase(e2)[8];
    var n := |ApiBase(e1) + "/merchants/"|;
    assert u[n..] == k1;
    assert MerchantUrl(e2, k2)[n..] == k2;
  }

  /** The merchant lookup and the transaction POST never go to the same URL. */
  lemma MerchantAndTransactionUrlsDiffer(env: Config, publicKey: string)
    ensures MerchantUrl(env, publicKey) != TransactionsUrl(env)
  {
    var n := |ApiBase(env)|;
    assert MerchantUrl(env, publicKey)[n + 1] == 'm';
    assert TransactionsUrl(env)[n + 1] == 't';
  }

  /** `merchantData.data.presigned_acceptance.acceptance_token`. A nullish
      `data` or `presigned_acceptance` makes the read throw (None); a missing
      `acceptance_token` under an existing object reads as `undefined`. */
  function AcceptanceToken(merchantData: Value): (token: Option<Value>)
    // The read succeeds exactly when neither the reply, nor `data`, nor
    // `presigned_acceptance` is missing or nullish.
    ensures token.Some? <==>
              && !Nullish(merchantData)
              && merchantData.Obj? && "data" in merchantData.fields
              && !Nullish(merchantData.fields["data"])
              && merchantData.fields["data"].Obj? && "presigned_acceptance" in merchantData.fields["data"].fields
              && !Nullish(merchantData.fields["data"].fields["presigned_acceptance"])
    // A well-formed reply yields its token.
    ensures merchantData.Obj? && "data" in merchantData.fields
            && merchantData.fields["data"].Obj? && "presigned_acceptance" in merchantData.fields["data"].fields
            && merchantData.fields["data"].fields["presigned_acceptance"].Obj?
            && "acceptance_token" in merchantData.fields["data"].fields["presigned_acceptance"].fields
            ==> token == Some(merchantData.fields["data"].fields["presigned_acceptance"].fields["acceptance_token"])
    ensures token.Some? && token.value != Undefined ==>
              && merchantData.Obj? && "data" in merchantData.fields
              && merchantData.fields["data"].Obj? && "presigned_acceptance" in merchantData.fields["data"].fields
              && merchantData.fields["data"].fields["presigned_acceptance"].Obj?
              && "acceptance_token" in merchantData.fields["data"].fields["presigned_acceptance"].fields
              && token.value == merchantData.fields["data"].fields["presigned_acceptance"].fields["acceptance_token"]
    ensures Nullish(merchantData) || (merchantData.Obj? && "data" !in merchantData.fields) ==> token.None?
  {
    match Prop(merchantData, "data")
    case None => None
    case Some(data) =>
      match Prop(data, "presigned_acceptance")
      case None => None
      case Some(presigned) => Prop(presigned, "acceptance_token")
  }

  /** The if / else-if / else that overwrites `payment_method`. */
  function ShapePaymentMethod(paymentMethod: Value, phone: Value): (pm: PaymentMethod)
    ensures TypeField(pm) == paymentMethod
    ensures pm.Nequi? <==> paymentMethod == Str("NEQUI")
    ensures pm.Pse? <==> paymentMethod == Str("PSE")
    ensures pm.Nequi? ==> pm.phoneNumber == phone
    ensures pm.Pse? ==> pm == Pse(0, "123456789", "CC")
  {
    if paymentMethod == Str("NEQUI") then Nequi(phone)
    else if paymentMethod == Str("PSE") then Pse(0, "123456789", "CC")
    else Other(paymentMethod)
  }

  /** The transaction body built from the destructured fields, the environment,
      the clock and the acceptance token. */
  function BuildBody(f: Fields, env: Config, now: nat, token: Value): (b: TransactionBody)
    ensures b.amountInCents == AmountInCents(f.amount)
    ensures b.currency == f.currency
    ensures b.customerEmail == f.customerEmail
    ensures b.reference == GeneratedReference(now)
    ensures b.acceptanceToken == token
    ensures IsSet(env.paymentReturnUrl) ==> b.redirectUrl == env.paymentReturnUrl.value
    ensures !IsSet(env.paymentReturnUrl) ==> b.redirectUrl == DefaultRedirect
    ensures b.paymentMethod == ShapePaymentMethod(f.paymentMethod, f.phone)
    ensures TypeField(b.paymentMethod) == f.paymentMethod
    ensures Truthy(f.productName) ==> b.metadata.productName == f.productName
    ensures !Truthy(f.productName) ==> b.metadata.productName == DefaultProductName
  {
    TransactionBody(
      AmountInCents(f.amount),
      f.currency,
      f.customerEmail,
      GeneratedReference(now),
      token,
      RedirectUrl(env, DefaultRedirect),
      ShapePaymentMethod(f.paymentMethod, f.phone),
      Metadata(Or(f.productName, DefaultProductName)))
  }

  /** Any caller-supplied reference is ignored. */
  lemma ReferenceIgnoresCaller(f: Fields, env: Config, now: nat, token: Value, reference: Value)
    ensures BuildBody(f.(reference := reference), env, now, token) == BuildBody(f, env, now, token)
  {
  }

  /** Every check passed, so the handler goes on to look up the merchant. */
  predicate LooksUpMerchant(req: Request, env: Config) {
    && req.httpMethod == "POST"
    && !Nullish(req.body)
    && !MissingRequired(Destructure(req.body).value)
    && IsSet(env.privateKey)
    && IsSet(env.publicKey)
  }

  /** The merchant lookup also produced an acceptance token. */
  predicate PostsTransaction(req: Request, env: Config, merchant: Reply) {
    && LooksUpMerchant(req, env)
    && Parsed(merchant)
    && AcceptanceToken(merchant.json.value).Some?
  }

  /** The handler, given the request, `process.env`, `Date.now()` and the
      gateway's replies to the merchant lookup and to the transaction POST. */
  function Handle(req: Request, env: Config, now: nat, merchant: Reply, transaction: Reply)
    : (o: Outcome<TransactionBody>)
    ensures req.httpMethod == "GET" ==> o == Outcome([], Response(200, Message("message", HealthMessage)))
    ensures req.httpMethod != "GET" && req.httpMethod != "POST"
            ==> o == Outcome([], ErrorResponse(405, "Method not allowed"))
    // Nothing is called before every check passed; then the merchant lookup
    // comes first and the transaction POST, if any, second.
    ensures |o.calls| <= 2
    ensures o.calls != [] <==> LooksUpMerchant(req, env)
    ensures |o.calls| == 2 <==> PostsTransaction(req, env, merchant)
    ensures req.httpMethod == "POST" && Nullish(req.body) ==> o.response == Crash
    ensures req.httpMethod == "POST" && !Nullish(req.body) && MissingRequired(Destructure(req.body).value)
            ==> o.response == ErrorResponse(400, "Missing required fields")
    ensures req.httpMethod == "POST" && !Nullish(req.body) && !MissingRequired(Destructure(req.body).value)
            && !(IsSet(env.privateKey) && IsSet(env.publicKey))
            ==> o.response == ErrorResponse(500, "WOMPI keys not configured")
    ensures LooksUpMerchant(req, env) ==> o.calls[0] == Get(MerchantUrl(env, env.publicKey.value))
    // A failed or malformed merchant lookup ends in the catch block's 500.
    ensures LooksUpMerchant(req, env) && !PostsTransaction(req, env, merchant) ==> o.response == Crash
    ensures PostsTransaction(req, env, merchant) ==>
              && o.calls[1].Post?
              && o.calls[1].url == TransactionsUrl(env)
              && o.calls[1].authorization == Bearer(env.privateKey.value)
              && o.calls[1].payload == BuildBody(Destructure(req.body).value, env, now, AcceptanceToken(merchant.json.value).value)
              && o.response == Forward(transaction)
  {
    if req.httpMethod == "GET" then
      Outcome([], Response(200, Message("message", HealthMessage)))
    else if req.httpMethod != "POST" then
      Outcome([], ErrorResponse(405, "Method not allowed"))
    else
      match Destructure(req.body)
      case None => Outcome([], Crash)
      case Some(f) =>
        if MissingRequired(f) then
          Outcome([], ErrorResponse(400, "Missing required fields"))
        else if !IsSet(env.privateKey) || !IsSet(env.publicKey) then
          Outcome([], ErrorResponse(500, "WOMPI keys not configured"))
        else
          var lookup := Get(MerchantUrl(env, env.publicKey.value));
          if !Parsed(merchant) then
            Outcome([lookup], Crash)
          else
            match AcceptanceToken(merchant.json.value)
            case None => Outcome([lookup], Crash)
            case Some(token) =>
              var body := BuildBody(f, env, now, token);
              Outcome([lookup, Post(TransactionsUrl(env), Bearer(env.privateKey.value), body)], Forward(transaction))
  }

  /** The `ok` flag of the merchant lookup is never consulted: only its parsed
      body matters. */
  lemma MerchantStatusIgnored(req: Request, env: Config, now: nat, json: Option<Value>, transaction: Reply)
    ensures Handle(req, env, now, Reply(true, json), transaction) == Handle(req, env, now, Reply(false, json), transaction)
  {
  }

  /** A merchant reply without a `data` object never leads to a transaction. */
  lemma MissingMerchantDataCrashes(req: Request, env: Config, now: nat, fields: map<string, Value>, transaction: Reply)
    requires LooksUpMerchant(req, env)
    requires "data" !in fields
    ensures var o := Handle(req, env, now, Reply(true, Some(Obj(fields))), transaction);
            |o.calls| == 1 && o.response == Crash
  {
  }

  /** A card payment with no caller reference and the environment unset: one
      lookup on the sandbox, then one POST to the sandbox whose
      `payment_method` is `{ type: 'CARD' }`, whose currency is the default
      and whose amount is 5000000 cents. */
  lemma CardCheckoutOnSandbox(publicKey: string, now: nat, token: Value, transaction: Reply)
    requires publicKey != ""
    ensures
      var body := Obj(map["amount" := Num(50000), "customerEmail" := Str("a@b.com"), "paymentMethod" := Str("CARD")]);
      var env := Config(None, Some("prv_test"), Some(publicKey), None);
      var merchant := Reply(true, Some(Obj(map["data" := Obj(map["presigned_acceptance" := Obj(map["acceptance_token" := token])])])));
      var o := Handle(Request("POST", body), env, now, merchant, transaction);
      && |o.calls| == 2
      && o.calls[0] == Get(SandboxApi + "/merchants/" + publicKey)
      && o.calls[1].url == SandboxApi + "/transactions"
      && o.calls[1].payload.amountInCents == Some(5000000)
      && o.calls[1].payload.paymentMethod == Other(Str("CARD"))
      && o.calls[1].payload.currency == DefaultCurrency
      && o.calls[1].payload.acceptanceToken == token
  {
    var body := Obj(map["amount" := Num(50000), "customerEmail" := Str("a@b.com"), "paymentMethod" := Str("CARD")]);
    var env := Config(None, Some("prv_test"), Some(publicKey), None);
    var merchantData := Obj(map["data" := Obj(map["presigned_acceptance" := Obj(map["acceptance_token" := token])])]);
    var f := Destructure(body).value;
    assert f.amount == Num(50000) && f.customerEmail == Str("a@b.com") && f.paymentMethod == Str("CARD");
    assert f.currency == DefaultCurrency;
    assert LooksUpMerchant(Request("POST", body), env);
    assert AcceptanceToken(merchantData) == Some(token);
    assert ApiBase(env) == SandboxApi;
  }
}
