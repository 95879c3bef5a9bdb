# Checkout payment handler: a verified Dafny model

This project models the payment server of the Virtwin Energy web shop. It
covers the server's one piece of real logic, the `POST /process-payment`
handler (`process-payment.js`), and the CORS origin check of the server
(`index.js`).

For each request the handler does four things:

1. **Amount.** It works out the charge in öre. A truthy, numeric `amount` wins
   and is truncated to an integer. Otherwise a truthy, numeric `price` in
   kronor is multiplied by 100 and rounded. Otherwise the handler throws.
2. **Workflow.** It runs one of three two-request workflows against the
   Stripe payment processor:
   - card: create a customer, then create and confirm an intent.
   - Swish: create an intent, then confirm it by id.
   - Klarna: create a source, then create and confirm an intent that
     references it.

   Any other payment method throws before a request is sent.
3. **Classification.** It maps the status of the resulting payment intent to
   one of three response shapes.
4. **Errors.** It turns any thrown error into `{error, type}`.

Files:

- `js_values.dfy` (module `JsValues`): request values (`Value` is `undefined`
  or a string), thrown errors, and plain objects as ordered key/value lists.
  It defines property access (`Lookup`), property assignment (`Put`) and
  object spread (`Spread`).
- `js_strings.dfy` (module `JsStrings`): `split` and `join` with a
  one-character separator, and their round trips.
- `stripe.dfy` (module `Stripe`): the parameters of the four processor
  requests, the trace entries (`Call`), the resources the processor returns,
  and the class `Processor`. `Processor` is the processor client, injected into
  the handler. It answers every request from a script (`respond`, a function of
  the request's position in the trace and the request itself) and appends
  every request to its `trace` field.
- `process_payment.dfy` (module `ProcessPayment`):
  - the amount rule, the status classification, the Klarna name split, the
    metadata of each request and the error boundary;
  - `Checkout`, the requests a run sends and its response, as a function of
    the request and the script;
  - `HandleCheckout`, the handler itself as an imperative method. It calls the
    processor one request at a time and is proved to leave exactly
    `Checkout`'s requests in the trace and to return `Checkout`'s response;
  - lemmas about `Checkout`.
- `cors.dfy` (module `Cors`): the allow-list check on the request origin.

External inputs are parameters of the model. The processor's replies come
from the script. The request body is a `Request` value.

The service's stated contract and its code differ in a few places. The model
follows the code:

- The stated contract says the normalised amount is a positive integer. The
  code does not check this. An `amount` of 0.5 is truthy and is charged as
  0 öre. A negative amount is not rejected either: it is truncated toward
  zero like any other amount, so -250 is charged as -250, -2.5 as -2 and
  -0.5 as 0 (`NonPositiveAmountsPass`).
- The stated contract gives the Klarna intent the same metadata as the Klarna
  source. In the code the intent's metadata leaves out `personal_number`
  (`PlanTagsKept`, `KlarnaWorkflow`).
- The stated contract names a `MissingField` error. The code has no check of
  its own for missing fields: missing billing details show up as the
  runtime's TypeError when a property of `undefined` is read. That error has
  no `type`, so its response type is `general_error`
  (`MissingBillingSendsNothing`).
- The stated contract only says the success response may echo the intent id.
  In the code it always does (`Classify`).
- The stated contract leaves open whether caller metadata is merged into the
  fixed tags or ignored. The code merges it: caller metadata is spread over
  the fixed tags (`CallerMetadataOverrides`).

## Model

| member | source | states |
|---|---|---|
| `ProcessPayment.TruncateToInt` | process-payment.js:32 | `parseInt` of a number truncates toward zero: the result's absolute value is at most the input's, and less than one below it |
| `ProcessPayment.RoundHalfUp` | process-payment.js:34 | `Math.round` gives the integer within one half of its input, halves going up |
| `ProcessPayment.AmountTakesPrecedence` | process-payment.js:31-32 | a truthy numeric `amount` gives the same result whatever `price` holds, and that result is `amount` truncated |
| `ProcessPayment.PriceFallback` | process-payment.js:33-34 | when `amount` does not resolve but `price` does, the amount is the nearest integer to `price * 100` |
| `ProcessPayment.PriceExample` | process-payment.js:33-34 | price 149.5 gives 14950 öre, also when `amount` is the falsy 0 |
| `ProcessPayment.NormalizeFailsIff` | process-payment.js:29-37 | normalisation fails if and only if neither field resolves, and then with "Invalid amount or price provided" |
| `ProcessPayment.NonPositiveAmountsPass` | process-payment.js:31-32 | nothing rejects a zero or negative charge; a negative amount is truncated toward zero like any other: 0.5 gives 0, -250 gives -250, -2.5 gives -2 and -0.5 gives 0 |
| `ProcessPayment.Classify` | process-payment.js:136-157 | status `requires_action` or `requires_source_action` (and only these) gives the challenge response with the client secret and the redirect URL; `requires_confirmation` (and only it) gives the confirmation response with the client secret; anything else gives success with the intent id; never an error |
| `ProcessPayment.ChallengeReturnUrl` | process-payment.js:140-142 | `return_url` is `next_action.redirect_to_url.url` when both levels exist and `undefined` when either is missing |
| `ProcessPayment.ErrorResponse` | process-payment.js:158-165 | an error becomes `{error: message, type}`; the type is the error's own type when that is truthy and `general_error` otherwise, so it is never empty |
| `ProcessPayment.NameRecombines` | process-payment.js:101-102 | for a name with a space, first name + " " + last name is the name, and the first name has no space |
| `ProcessPayment.NameWithoutSpace` | process-payment.js:101-102 | a name without a space is all first name, and the last name is "" |
| `ProcessPayment.NameExample` | process-payment.js:101-102 | "Anna Maria Svensson" splits into "Anna" and "Maria Svensson" |
| `ProcessPayment.CallerMetadataOverrides` | process-payment.js:61-65 | in `{plan, cycle, [tag,] ...metadata}` each key reads as the caller's value if the caller set it and as the fixed tag otherwise; `plan`, `cycle` and the tag stay the first keys |
| `ProcessPayment.PlanTagsKept` | process-payment.js:123-127 | without caller overrides, `plan` and `cycle` read as the request's fields, and the metadata of the card and Klarna intents has no `personal_number` |
| `ProcessPayment.BranchTagKept` | process-payment.js:77-82 | without a caller override, the branch tag (`swish_number`, or `personal_number` on the Klarna source) reads as the request's field |
| `ProcessPayment.HandleCheckout` | process-payment.js:29-157 | the handler appends exactly the requests of `Checkout` to the processor's trace, in order, and returns `Checkout`'s response, including on a failing run |
| `ProcessPayment.InvalidAmountSendsNothing` | process-payment.js:35-37 | without a usable amount or price the run sends no request and fails with "Invalid amount or price provided", type `general_error` |
| `ProcessPayment.InvalidMethodSendsNothing` | process-payment.js:132-133 | with a usable amount and a method other than card, swish or klarna, the run sends no request and fails with "Invalid payment method" |
| `ProcessPayment.AtMostTwoCalls` | process-payment.js:43-134 | a run sends at most two requests; a run that does not fail sends exactly two; a run that sends none fails |
| `ProcessPayment.ChargesUseAmountAndSek` | process-payment.js:54-56 | every intent and source a run creates is for the normalised amount in `sek` |
| `ProcessPayment.RejectionEndsRun` | process-payment.js:158-165 | a rejected request is the last one sent, and the run's response is that rejection's error record; nothing is retried or undone |
| `ProcessPayment.CardWorkflow` | process-payment.js:44-69 | card: first a customer for the token and billing details; the intent is created only if the customer was, for that customer's id, with confirm=true, off_session=false, card only, the plan metadata and the success URL; its reply is classified |
| `ProcessPayment.SwishWorkflow` | process-payment.js:71-90 | Swish: first an unconfirmed Swish intent with the `swish_number` metadata; the confirmation is sent only if the intent was created, for that intent's id with method `swish` and the success URL; the created intent is classified |
| `ProcessPayment.SwishIgnoresConfirmation` | process-payment.js:85-89 | Swish: what a successful confirmation returns has no effect on the run |
| `ProcessPayment.KlarnaWorkflow` | process-payment.js:92-130 | Klarna: first a Klarna source (SE, sv-SE, the split name, `personal_number` metadata, the success URL); the intent is created only if the source was, referencing that source's id, with confirm=true and the plan metadata; its reply is classified |
| `ProcessPayment.MissingBillingSendsNothing` | process-payment.js:48 | card without billing details, or Klarna without billing details or a name, fails before any request, with type `general_error` |
| `JsValues.Lookup` | process-payment.js:61-65 | reading a key finds a value exactly when the key is in the object, and the value belongs to an entry with that key |
| `JsValues.Put` | process-payment.js:61-65 | assigning a key gives an object whose keys are the old ones plus that key |
| `JsValues.PutLookup` | process-payment.js:61-65 | after an assignment the key reads as the new value and every other key reads as before |
| `JsValues.PutKeepsOrder` | process-payment.js:61-65 | an assignment moves no key: an existing key keeps its place, a new key is appended |
| `JsValues.Spread` | process-payment.js:61-65 | the keys of `{...target, ...source}` are those of both objects |
| `JsValues.SpreadLookup` | process-payment.js:105-110 | in `{...target, ...source}` a key of `source` reads as in `source`, and any other key reads as in `target` |
| `JsValues.SpreadKeepsOrder` | process-payment.js:105-110 | `target`'s keys come first in the spread, in their order |
| `JsStrings.Split` | process-payment.js:101 | `split` gives at least one part, and no part contains the separator |
| `JsStrings.JoinSplit` | process-payment.js:101-102 | joining the split parts with the same separator gives the string back |
| `JsStrings.SplitJoin` | process-payment.js:101-102 | splitting the join of parts free of the separator gives the parts back |
| `JsStrings.SplitSingle` | process-payment.js:101-102 | a string splits into one part exactly when it has no separator, and that part is the string |
| `JsStrings.SplitAfterFirst` | process-payment.js:101-102 | a prefix without separators, followed by the separator, is split off as the first part |
| `Stripe.Processor.CreateCustomer` | process-payment.js:46-51 | a customer request is appended to the trace and answered by the script at its position |
| `Stripe.Processor.CreateIntent` | process-payment.js:54-68 | an intent creation is appended to the trace and answered by the script at its position |
| `Stripe.Processor.ConfirmIntent` | process-payment.js:86-89 | a confirmation of an intent id is appended to the trace and answered by the script at its position |
| `Stripe.Processor.CreateSource` | process-payment.js:94-114 | a source request is appended to the trace and answered by the script at its position |
| `Cors.CheckOrigin` | index.js:17-36 | an origin is allowed exactly when it is falsy or equals one of the two site origins; a refused origin's error message ends with the origin |
| `Cors.NoOriginAllowed` | index.js:21 | a request without an origin, and one with the empty origin, is allowed |
| `Cors.ExtendedOriginDenied` | index.js:24-32 | an allowed origin followed by any further characters, such as a trailing slash, is refused |
| `Cors.VariantsDenied` | index.js:30-35 | `http://virtwin-energy.se`, a trailing slash and another subdomain are refused, and the error reads "Not allowed by CORS. Origin: " followed by the origin |

## Left out

- The check of the `STRIPE_SECRET_KEY` environment variable at module load and the loading of `.env` (process-payment.js:5-8, index.js:1). These are process configuration.
- Express routing, JSON body parsing, `res.json`, `res.status(500)`, the server start-up, and the `/` and `/api/test` routes with their fixed bodies (index.js:41, 53-87). These are framework plumbing. The response is the `Response` datatype. Every `Failed` response is the one sent with status 500.
- All `console.log` and `console.error` output, and the request-logging middleware (index.js:5-9, 43-51; process-payment.js:14, 39, 152, 159-160). They only print diagnostics.
- The CORS options `credentials`, `methods` and `allowedHeaders` (index.js:37-39). These are fixed library configuration.
- What the Stripe SDK and API do with a request. The processor is a script that answers each request. The SDK's dropping of `undefined` arguments is not modelled. An absent argument and an `undefined` one are both `Undefined` or `None`.
- Floating point. `price` and `amount` are exact reals, so `price * 100` has no binary rounding error. `parseInt` of a number is truncation, so the model misses what `parseInt` does with numbers printed in exponent form (below 1e-6 or from 1e21 up).
- JSON values the model cannot express. Numeric fields are missing, a number, or non-numeric (treated like NaN). Numeric strings and `isNaN`'s string coercion are not modelled: `"0"` is truthy and would pass the `amount` test. Other fields are `undefined` or a string. JSON `null` is treated as `undefined`, though its TypeError message says "null". A non-string `billing_details.name` is not modelled, nor a caller `metadata` that is not a plain object.
- Key order in object spread. The model keeps insertion order. JavaScript lists integer-like keys first, in numeric order, and the model does not.
- The V8 wording of a TypeError's message is taken as given by the runtime (`ReadOfUndefined`).
- Concurrency. Each request owns its values, and the model runs one request at a time.
