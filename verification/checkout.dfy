/** What the two checkout handlers share: the request and response shapes, the
    environment they read, the outbound calls they issue to the Wompi gateway,
    the gateway's replies, the body fields they destructure, the generated
    `NODA_<clock>` reference and the mapping of the final gateway reply to the
    handler's own response. */
module Checkout {
  import opened Js

  /** The environment variables the handlers read from `process.env`; an unset
      variable is None. */
  datatype Config = Config(
    wompiEnv: Option<string>,          // WOMPI_ENV
    privateKey: Option<string>,        // WOMPI_PRIVATE_KEY
    publicKey: Option<string>,         // WOMPI_PUBLIC_KEY
    paymentReturnUrl: Option<string>)  // PAYMENT_RETURN_URL

  /** Truthiness of an environment variable: set and not empty. */
  predicate IsSet(v: Option<string>) {
    v.Some? && v.value != ""
  }

  /** Production is selected only by the exact value `production`. */
  predicate IsProduction(env: Config) {
    env.wompiEnv == Some("production")
  }

  const ProductionApi := "https://production.wompi.co/v1"
  const SandboxApi := "https://sandbox.wompi.co/v1"

  /** The gateway's API root: production only for the exact selector
      `production`, the sandbox when the selector is unset or anything else. */
  function ApiBase(env: Config): (base: string)
    ensures base == ProductionApi <==> IsProduction(env)
    ensures base == SandboxApi <==> !IsProduction(env)
  {
    if IsProduction(env) then ProductionApi else SandboxApi
  }

  /** `process.env.PAYMENT_RETURN_URL || fallback`. */
  function RedirectUrl(env: Config, fallback: string): (url: string)
    ensures IsSet(env.paymentReturnUrl) ==> url == env.paymentReturnUrl.value
    ensures !IsSet(env.paymentReturnUrl) ==> url == fallback
  {
    if IsSet(env.paymentReturnUrl) then env.paymentReturnUrl.value else fallback
  }

  /** The `Authorization` header sent with the transaction POST. */
  function Bearer(key: string): (header: string)
    ensures |header| == 7 + |key| && header[..7] == "Bearer " && header[7..] == key
  {
    "Bearer " + key
  }

  /** An incoming request: its HTTP method and its (already parsed) body. */
  datatype Request = Request(httpMethod: string, body: Value)

  /** What a handler answers with: `{ key: text }` for its own messages, the
      `{ error: err.message }` of a caught exception (the message text is not
      modelled), or the gateway's JSON forwarded unchanged. */
  datatype ResponseBody =
    | Message(key: string, text: string)
    | Thrown
    | Forwarded(data: Value)

  datatype Response = Response(status: int, body: ResponseBody)

  function ErrorResponse(status: int, text: string): Response {
    Response(status, Message("error", text))
  }

  /** The 500 answer of the handlers' `catch` block. */
  const Crash := Response(500, Thrown)

  /** An outbound request to the gateway; P is the handler's payload record,
      which the source serialises with JSON.stringify. */
  datatype Call<P> =
    | Get(url: string)
    | Post(url: string, authorization: string, payload: P)

  /** The gateway's answer to one call: `fetch` itself rejected, or a response
      with its `ok` flag and its body as `response.json()` parsed it (None when
      that parse rejects). */
  datatype Reply = NetworkFailure | Reply(ok: bool, json: Option<Value>)

  /** The reply got as far as a parsed JSON body. */
  predicate Parsed(reply: Reply) {
    reply.Reply? && reply.json.Some?
  }

  /** A handler's whole observable behaviour: the outbound calls it issued, in
      order, and the response it sent. */
  datatype Outcome<P> = Outcome(calls: seq<Call<P>>, response: Response)

  /** The final step of both handlers: the status is 200 exactly when the
      gateway said ok and 400 when it did not, with its body forwarded
      unchanged; a rejected fetch or an unparsable body ends in the 500 of the
      `catch` block. */
  function Forward(reply: Reply): (resp: Response)
    ensures resp.status == 200 <==> Parsed(reply) && reply.ok
    ensures resp.status == 400 <==> Parsed(reply) && !reply.ok
    ensures resp.status == 500 <==> !Parsed(reply)
    ensures Parsed(reply) ==> resp.body == Forwarded(reply.json.value)
    ensures !Parsed(reply) ==> resp == Crash
  {
    if Parsed(reply) then
      Response(if reply.ok then 200 else 400, Forwarded(reply.json.value))
    else
      Crash
  }

  /** The fields the handlers destructure from `req.body`, with the
      destructuring default of `currency` already applied. */
  datatype Fields = Fields(
    amount: Value,
    currency: Value,
    customerEmail: Value,
    paymentMethod: Value,
    phone: Value,
    productName: Value,
    reference: Value)

  const DefaultCurrency := Str("COP")

  /** An object's own field, or `undefined` when the object has none. */
  function FieldOf(fields: map<string, Value>, key: string): Value {
    if key in fields then fields[key] else Undefined
  }

  /** `const { amount, currency = 'COP', ... } = req.body`. Destructuring
      `undefined` or `null` throws (None). The default replaces a missing or
      `undefined` currency only: a `null` or empty currency is kept. */
  function Destructure(body: Value): (f: Option<Fields>)
    ensures f.None? <==> Nullish(body)
    ensures f.Some? && body.Obj? && "currency" !in body.fields ==> f.value.currency == DefaultCurrency
    ensures f.Some? && body.Obj? && "currency" in body.fields && body.fields["currency"] != Undefined
            ==> f.value.currency == body.fields["currency"]
    ensures f.Some? && body.Obj? && FieldOf(body.fields, "currency") == Undefined ==> f.value.currency == DefaultCurrency
    ensures f.Some? && body.Obj? ==> f.value.amount == FieldOf(body.fields, "amount")
    ensures f.Some? && body.Obj? ==> f.value.customerEmail == FieldOf(body.fields, "customerEmail")
    ensures f.Some? && body.Obj? ==> f.value.paymentMethod == FieldOf(body.fields, "paymentMethod")
    ensures f.Some? && body.Obj? ==> f.value.phone == FieldOf(body.fields, "phone")
    ensures f.Some? && body.Obj? ==> f.value.productName == FieldOf(body.fields, "productName")
    ensures f.Some? && body.Obj? ==> f.value.reference == FieldOf(body.fields, "reference")
    ensures f.Some? && !body.Obj? ==> f.value == Fields(Undefined, DefaultCurrency, Undefined, Undefined, Undefined, Undefined, Undefined)
  {
    if Nullish(body) then None
    else
      Some(Fields(
        Prop(body, "amount").value,
        WithDefault(Prop(body, "currency").value, DefaultCurrency),
        Prop(body, "customerEmail").value,
        Prop(body, "paymentMethod").value,
        Prop(body, "phone").value,
        Prop(body, "productName").value,
        Prop(body, "reference").value))
  }

  /** `!amount || !customerEmail || !paymentMethod`: one of the three required
      fields is one of JavaScript's falsy values. */
  predicate MissingRequired(f: Fields)
    ensures MissingRequired(f) <==>
              f.amount in FalsyValues || f.customerEmail in FalsyValues || f.paymentMethod in FalsyValues
  {
    !Truthy(f.amount) || !Truthy(f.customerEmail) || !Truthy(f.paymentMethod)
  }

  /** `Math.round(Number(amount) * 100)` for the amounts this model covers: a
      whole number of pesos given as a number or as a string of digits. None
      marks any other amount, whose float coercion is not modelled. */
  function AmountInCents(amount: Value): (cents: Option<int>)
    ensures amount.Num? ==> cents == Some(100 * amount.n)
    ensures amount.Str? && IsDigits(amount.s) ==> cents == Some(100 * DigitsValue(amount.s))
    ensures !amount.Num? && !(amount.Str? && IsDigits(amount.s)) ==> cents.None?
    ensures cents.Some? ==> cents.value % 100 == 0
  {
    match amount
    case Num(n) => Some(100 * n)
    case Str(s) =>
      (match NumberOfString(s)
       case Some(n) => Some(100 * n)
       case None => None)
    case _ => None
  }

  /** An amount sent as the text `"149900"` gives the same cents as the number
      149900. */
  lemma AmountTextAgreesWithNumber(pesos: nat)
    ensures AmountInCents(Str(DecimalString(pesos))) == AmountInCents(Num(pesos)) == Some(100 * pesos)
  {
    DigitsValueOfDecimal(pesos);
  }

  const ReferencePrefix := "NODA_"

  /** `NODA_${Date.now()}`: the prefix followed by the clock's decimal digits. */
  function GeneratedReference(now: nat): (r: string)
    ensures |r| > |ReferencePrefix| && r[..|ReferencePrefix|] == ReferencePrefix
    ensures IsCanonicalDecimal(r[|ReferencePrefix|..])
  {
    ReferencePrefix + DecimalString(now)
  }

  /** The clock reading can be read back out of a generated reference. */
  lemma GeneratedReferenceClock(now: nat)
    ensures DigitsValue(GeneratedReference(now)[|ReferencePrefix|..]) == now
  {
    assert GeneratedReference(now)[|ReferencePrefix|..] == DecimalString(now);
    DigitsValueOfDecimal(now);
  }

  /** Generated references collide exactly when the two clock readings are
      equal: two requests served in the same millisecond get the same
      reference, and no others do. */
  lemma GeneratedReferenceInjective(t1: nat, t2: nat)
    ensures GeneratedReference(t1) == GeneratedReference(t2) <==> t1 == t2
  {
    if GeneratedReference(t1) == GeneratedReference(t2) {
      GeneratedReferenceClock(t1);
      GeneratedReferenceClock(t2);
    }
  }
}
