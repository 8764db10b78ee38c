# Nodos checkout handlers, modelled in Dafny

Nodos sells through the Wompi payment gateway. It has two serverless HTTP handlers, and both create a gateway transaction for a buyer's checkout:

- `api/createTransaction.js` is the first variant. It accepts POST only and checks three required body fields (`amount`, `customerEmail`, `paymentMethod`). It picks the sandbox or production transaction endpoint from `WOMPI_ENV` and requires `WOMPI_PRIVATE_KEY`. It then posts a flat transaction record with a generic `payment_method_type`. The gateway's answer is forwarded as 200 or 400.
- `api/webhook.js` is a later variant of the same operation. Despite its file name it processes no webhook. It answers GET with a health message and requires both the private and the public key. It fetches the merchant record to copy out its acceptance token. Then it posts a transaction whose `payment_method` is a tagged variant (NEQUI, PSE or anything else).

Each handler becomes a pure function. It takes:

- the request (HTTP method and parsed body);
- the environment variables (`Checkout.Config`);
- the clock reading that `Date.now()` gives (`now`);
- the gateway's replies (`Checkout.Reply`: a rejected `fetch`, or the `ok` flag with the parsed JSON body).

It returns an `Outcome`: the outbound calls it issues, in order, and the response it sends. JavaScript values are `Js.Value`, and their truthiness is spelled out in `Js.Truthy`.

Modules:

- `Js` (js.dfy): JavaScript values, truthiness, `||`, destructuring defaults, property reads that throw on `undefined`/`null`, the decimal text of a whole number and `Number()` of a digit string, with their round-trip lemmas.
- `Checkout` (checkout.dfy): what both handlers share. This covers the environment, the API root, the redirect default, request and response shapes, gateway replies, destructuring of the body, amount in cents, the generated `NODA_<clock>` reference and the final status mapping.
- `CreateTransaction` (create_transaction.dfy): the first handler.
- `Webhook` (webhook.dfy): the second handler.

Behaviour of the code that a reader might not expect, all of it modelled as the code has it:

- `api/webhook.js` is named and headed like a webhook receiver. It contains no signature check, no event de-duplication and no status processing: it creates transactions.
- `api/webhook.js` passes `phone` into the NEQUI `payment_method` unvalidated, even when it is `undefined` (`Webhook.ShapePaymentMethod`). `api/createTransaction.js` does not read `phone` at all.
- The acceptance-token read throws, and the handler answers 500, when the merchant reply is `null`, or when `data` or `presigned_acceptance` is missing or nullish. A missing `acceptance_token` under an existing `presigned_acceptance` object reads as `undefined`, and the transaction is still posted (`Webhook.AcceptanceToken`).
- The `ok` flag of the merchant lookup is never consulted (`Webhook.MerchantStatusIgnored`).
- The required-field check tests truthiness only, so a negative amount passes it, and so does the text `"0"`, which is then posted as 0 cents (`Checkout.MissingRequired`, `Checkout.AmountInCents`).
- `api/webhook.js` ignores a caller-supplied `reference` and always generates one (`Webhook.ReferenceIgnoresCaller`).
- `api/webhook.js` answers GET with 200; only other non-POST methods get 405.
- `currency = 'COP'` is a destructuring default. It replaces only a missing or `undefined` currency, so a `null` or empty currency is sent as given (`Checkout.Destructure`).

## Model

| member | source | states |
|---|---|---|
| `Js.Truthy` | api/createTransaction.js:17 | A value is truthy exactly when it is not one of the falsy values `undefined`, `null`, `false`, `0`, `""`. |
| `Js.Or` | api/createTransaction.js:41-45 | The logical-or of two values is `a` when `a` is truthy and `b` otherwise; it is truthy exactly when either operand is. |
| `Js.WithDefault` | api/createTransaction.js:10 | A destructuring default replaces `undefined` by the default; every other value, `null` included, is kept. |
| `Js.Prop` | api/webhook.js:34 | A property read throws exactly when the object is `undefined` or `null`. It returns an object's own field when present, and `undefined` otherwise. |
| `Js.DecimalString` | api/createTransaction.js:41 | The template-literal text of a whole number is a non-empty digit string without a superfluous leading zero. |
| `Js.DigitsValueOfDecimal` | api/createTransaction.js:41 | Reading back the decimal text of a number gives that number. |
| `Js.DecimalOfDigitsValue` | api/createTransaction.js:41 | Every canonical digit string is the decimal text of its value, so text and number are in bijection. |
| `Js.DecimalStringInjective` | api/createTransaction.js:41 | Two numbers have the same decimal text if and only if they are equal. |
| `Js.NumberOfString` | api/createTransaction.js:34 | `Number(s)` is covered exactly for digit strings, where it is the non-negative number the digits denote. |
| `Checkout.ApiBase` | api/webhook.js:18-22 | The API root is production if and only if `WOMPI_ENV` is exactly `production`. An unset or other selector gives the sandbox. |
| `Checkout.RedirectUrl` | api/createTransaction.js:43 | `PAYMENT_RETURN_URL` is used when set and non-empty, otherwise the given default. |
| `Checkout.Forward` | api/createTransaction.js:62-68 | Status 200 if and only if the gateway said ok, 400 if and only if it did not. The parsed gateway body is forwarded unchanged. A rejected fetch or unparsable body gives the 500 of the catch block. |
| `Checkout.Destructure` | api/createTransaction.js:8-15 | Destructuring throws exactly for an `undefined`/`null` body. Each of `amount`, `customerEmail`, `paymentMethod`, `phone`, `productName` and `reference` is the body's own field, or `undefined` when absent. `currency` defaults to `COP` when missing or present as `undefined`, and any other present currency is kept. A non-object body yields `currency` = `COP` and every other field `undefined`. |
| `Checkout.MissingRequired` | api/createTransaction.js:17 | The 400 check fires exactly when `amount`, `customerEmail` or `paymentMethod` is one of the falsy values. |
| `Checkout.Bearer` | api/createTransaction.js:56 | The `Authorization` header is `Bearer ` followed by the key verbatim. |
| `Checkout.AmountInCents` | api/createTransaction.js:34 | A numeric amount of n pesos gives `100 * n` cents, and a digit string gives 100 times the number its digits denote (leading zeros allowed, so `"007"` gives 700 and `"0"` gives 0). Any other amount is outside the model (None). |
| `Checkout.AmountTextAgreesWithNumber` | api/createTransaction.js:9-34 | An amount sent as the decimal text of n gives the same cents as the number n, namely `100 * n`. |
| `Checkout.GeneratedReference` | api/createTransaction.js:41 | A generated reference is `NODA_` followed by a canonical decimal number. |
| `Checkout.GeneratedReferenceClock` | api/webhook.js:43 | The clock reading is recovered from the digits of a generated reference. |
| `Checkout.GeneratedReferenceInjective` | api/webhook.js:43 | Two generated references are equal if and only if their clock readings are equal. |
| `CreateTransaction.TransactionsUrl` | api/createTransaction.js:24-27 | The production endpoint if and only if the selector is exactly `production`. It is the API root followed by `/transactions`. |
| `CreateTransaction.BuildBody` | api/createTransaction.js:36-50 | `payment_method_type` is the caller's `paymentMethod` verbatim and `customer_email` is `customerEmail`. `reference` is the caller's when truthy, else `NODA_<clock>`. `metadata.productName` defaults to `''`. The redirect defaults to `https://noda.tech/payment/confirmation`. The amount is in cents. |
| `CreateTransaction.Handle` | api/createTransaction.js:4-70 | A non-POST method gives 405 with no call. A nullish body gives 500, a falsy required field 400, and a missing private key 500, all with no call. Exactly one POST is issued if and only if every check passed. It goes to the selected endpoint with the private key as bearer token and the built body, and the answer is the gateway's status mapping. |
| `CreateTransaction.ValidationPrecedesCall` | api/createTransaction.js:17-30 | Every answer with the handler's own message is given before any outbound call. A forwarded gateway body only follows the one POST. |
| `CreateTransaction.EarlyAnswerIgnoresGateway` | api/createTransaction.js:5-30 | When a check fails, the answer does not depend on what the gateway would have said. |
| `CreateTransaction.DistinctClocksDistinctReferences` | api/createTransaction.js:41 | Without a caller reference, transactions built at different milliseconds carry different references. |
| `Webhook.MerchantUrlInjective` | api/webhook.js:32 | The merchant-lookup URL determines both the environment and the public key. |
| `Webhook.MerchantAndTransactionUrlsDiffer` | api/webhook.js:32-64 | The merchant lookup and the transaction POST never share a URL. |
| `Webhook.MerchantUrl` | api/webhook.js:32 | The lookup URL is the selected API root, then `/merchants/`, then the public key verbatim. |
| `Webhook.TransactionsUrl` | api/webhook.js:64 | The derived `base + "/transactions"` is the endpoint the first handler writes out in full, production exactly for the selector `production`. |
| `Webhook.TypeField` | api/webhook.js:51-60 | The serialised `type` is `NEQUI` or `PSE` for those variants and the caller's value for any other. |
| `Webhook.AcceptanceToken` | api/webhook.js:34 | The read succeeds exactly when the reply, `data` and `presigned_acceptance` are all present and not nullish; otherwise it throws. A well-formed reply yields exactly `data.presigned_acceptance.acceptance_token`, and a defined token is always that field. |
| `Webhook.ShapePaymentMethod` | api/webhook.js:50-61 | NEQUI gives `{type:'NEQUI', phone_number: phone}` with `phone` unvalidated. PSE gives `{type:'PSE', user_type:0, user_legal_id:'123456789', user_legal_id_type:'CC'}`. Anything else gives `{type: paymentMethod}`. In every case `type` equals the caller's `paymentMethod`. |
| `Webhook.BuildBody` | api/webhook.js:37-61 | The reference is always `NODA_<clock>`. The acceptance token is the one looked up. `currency` and `customer_email` are passed through. `productName` defaults to `Producto Nodos` and the redirect to `https://nodos.vercel.app/pago-exitoso.html`. `payment_method` is the NEQUI / PSE / other shape of `Webhook.ShapePaymentMethod`, with `type` the caller's method. |
| `Webhook.ReferenceIgnoresCaller` | api/webhook.js:12-43 | A caller-supplied `reference` has no effect on the transaction body. |
| `Webhook.Handle` | api/webhook.js:2-79 | GET gives 200 with the health message and any other non-POST method gives 405. A nullish body gives 500, a falsy required field 400, and a missing key 500, all with no call. The merchant GET is issued if and only if every check passed. The transaction POST follows it if and only if the lookup yielded a token, and then carries that token. A failed lookup gives 500. The final answer is the gateway's status mapping. |
| `Webhook.MerchantStatusIgnored` | api/webhook.js:32-34 | The outcome does not depend on the merchant lookup's `ok` flag. |
| `Webhook.MissingMerchantDataCrashes` | api/webhook.js:34-77 | A merchant reply without `data` ends after the lookup with the 500 of the catch block. No transaction is posted. |
| `Webhook.CardCheckoutOnSandbox` | api/webhook.js:11-74 | With the environment unset, a CARD checkout of 50000 pesos looks up the sandbox merchant. It then posts to the sandbox with 5000000 cents, `{type:'CARD'}`, currency `COP` and the looked-up token. |

## Left out

- Network and serialisation: `fetch`, `response.json()`, `JSON.stringify` and `res.status().json()` are not modelled. Gateway replies are inputs, and responses and payloads are returned as records. How `JSON.stringify` drops `undefined` fields, such as an absent `phone_number`, is not modelled.
- `process.env` and `Date.now()` are passed in as `Checkout.Config` and a natural number `now`.
- `Checkout.AmountInCents`: `Math.round(Number(amount) * 100)` is modelled only for whole-peso amounts given as numbers or digit strings. Fractional amounts, NaN and the other `Number()` coercions (signs, whitespace, exponents, objects, booleans) give None. `Js.Value` numbers are whole and exact: amounts beyond 2^53 / 100 pesos, or digit strings beyond 2^53, which JavaScript's doubles round, get the exact `100 * n`. A coercion that throws (an object amount such as `{"toString": 1}`, whose conversion methods are not callable) is not modelled either: the code answers 500, before the POST in `api/createTransaction.js` and after the merchant lookup in `api/webhook.js`, while the model gives None and posts the transaction.
- `Js.DecimalString`: JavaScript writes numbers of 10^21 and above in exponent notation. That is not modelled; clock readings are far below it.
- `Js.Prop`: properties that objects inherit from prototypes (`constructor`, `length`, …) are not modelled. The handlers read none of them.
- `Checkout.Destructure` reads all seven body fields for both handlers, although each handler destructures only six of them. Reading a plain data property has no effect, so the outcomes are the same.
- The text of `err.message` in the 500 answer of the catch blocks (`Checkout.Thrown`), and `console.error` logging.
- The `Content-Type` header of the outbound POSTs; only the URL, the bearer token and the payload are modelled.
- HMAC signature verification, constant-time comparison, event de-duplication and NEQUI phone validation are not in either handler, so they are not modelled.
