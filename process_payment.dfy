/** The `/process-payment` handler: it normalises the charge amount, runs the
    card, Swish or Klarna workflow against the processor, classifies the
    returned payment intent and turns any thrown error into an error record. */
module ProcessPayment {
  import opened JsValues
  import opened JsStrings
  import opened Stripe

  // ---------------------------------------------------------------------------
  // Request and response

  /** A numeric request field (`amount`, `price`) after JSON parsing. */
  datatype Field = Missing | Number(n: real) | NotNumeric

  datatype BillingDetails = BillingDetails(email: Value, name: Value, address: Option<Object>)

  /** The fields of the request body the handler destructures. */
  datatype Request = Request(
    paymentMethod: Value,
    paymentMethodId: Value,
    swishNumber: Value,
    personalNumber: Value,
    plan: Value,
    cycle: Value,
    price: Field,
    amount: Field,
    billingDetails: Option<BillingDetails>,
    metadata: Object)

  /** The JSON body the handler answers with. */
  datatype Response =
    | RequiresAction(clientSecret: Value, returnUrl: Value)
    | RequiresConfirmation(clientSecret: Value)
    | Succeeded(paymentIntentId: string)
    | Failed(error: string, errorType: string)

  const Currency: string := "sek"
  const SuccessUrl: string := "https://virtwin-energy.se/success.html"
  const InvalidAmount: JsError := JsError("Invalid amount or price provided", Undefined)
  const InvalidMethod: JsError := JsError("Invalid payment method", Undefined)

  /** The TypeError the runtime throws when a property of `undefined` is read. */
  function ReadOfUndefined(property: string): JsError {
    JsError("Cannot read properties of undefined (reading '" + property + "')", Undefined)
  }

  // ---------------------------------------------------------------------------
  // Amount normalisation

  /** `x && !isNaN(x)` for a numeric field: present, a number, and not zero. */
  predicate Resolves(f: Field) {
    f.Number? && f.n != 0.0
  }

  /** `parseInt` of a number: its integer part, truncated toward zero. */
  function TruncateToInt(x: real): (i: int)
    ensures 0.0 <= x ==> 0 <= i && i as real <= x < i as real + 1.0
    ensures x < 0.0 ==> i <= 0 && i as real - 1.0 < x <= i as real
  {
    if x >= 0.0 then x.Floor else -((-x).Floor)
  }

  /** `Math.round`: the nearest integer, halves rounded up. */
  function RoundHalfUp(x: real): (i: int)
    ensures i as real - 0.5 <= x < i as real + 0.5
  {
    (x + 0.5).Floor
  }

  /** The charge in öre: a resolving `amount` wins and is truncated; otherwise a
      resolving `price` in kronor is scaled by 100 and rounded; otherwise the
      handler throws. */
  function NormalizeAmount(amount: Field, price: Field): Result<int> {
    if Resolves(amount) then Ok(TruncateToInt(amount.n))
    else if Resolves(price) then Ok(RoundHalfUp(price.n * 100.0))
    else Err(InvalidAmount)
  }

  /** A resolving `amount` decides the charge whatever `price` holds: it is
      the integer part of `amount`. */
  lemma AmountTakesPrecedence(amount: Field, price: Field, otherPrice: Field)
    requires Resolves(amount)
    ensures NormalizeAmount(amount, price) == NormalizeAmount(amount, otherPrice)
    ensures NormalizeAmount(amount, price).Ok?
    ensures var a := NormalizeAmount(amount, price).value;
      (0.0 <= amount.n ==> a as real <= amount.n < a as real + 1.0) &&
      (amount.n < 0.0 ==> a as real - 1.0 < amount.n <= a as real)
  {
  }

  /** Without a resolving `amount`, a resolving `price` gives the nearest
      whole number of öre to `price * 100`. */
  lemma PriceFallback(amount: Field, price: Field)
    requires !Resolves(amount) && Resolves(price)
    ensures NormalizeAmount(amount, price).Ok?
    ensures var a := NormalizeAmount(amount, price).value;
      a as real - 0.5 <= price.n * 100.0 < a as real + 0.5
  {
  }

  /** Price 149.5 kronor is 14950 öre, also when `amount` is 0 (falsy). */
  lemma PriceExample()
    ensures NormalizeAmount(Missing, Number(149.5)) == Ok(14950)
    ensures NormalizeAmount(Number(0.0), Number(149.5)) == Ok(14950)
  {
    assert RoundHalfUp(14950.0) == 14950;
  }

  /** Normalisation fails exactly when neither field resolves, and then with
      the invalid-amount error. */
  lemma NormalizeFailsIff(amount: Field, price: Field)
    ensures NormalizeAmount(amount, price).Err? <==> !Resolves(amount) && !Resolves(price)
    ensures NormalizeAmount(amount, price).Err? ==> NormalizeAmount(amount, price).error == InvalidAmount
  {
  }

  /** The amount is not checked to be positive: an `amount` of 0.5 resolves
      (it is truthy) and is charged as 0 öre, and a negative amount is not
      rejected but truncated toward zero like any other. */
  lemma NonPositiveAmountsPass()
    ensures NormalizeAmount(Number(0.5), Missing) == Ok(0)
    ensures NormalizeAmount(Number(-250.0), Missing) == Ok(-250)
    ensures NormalizeAmount(Number(-2.5), Missing) == Ok(-2)
    ensures NormalizeAmount(Number(-0.5), Missing) == Ok(0)
  {
  }

  // ---------------------------------------------------------------------------
  // Status classification

  /** `paymentIntent.next_action?.redirect_to_url?.url`. */
  function RedirectUrl(intent: Resource): Value {
    match intent.nextAction
    case None => Undefined
    case Some(action) =>
      match action.redirectToUrl
      case None => Undefined
      case Some(redirect) => redirect.url
  }

  /** The response for the intent the workflow ends with. */
  function Classify(intent: Resource): (r: Response)
    ensures !r.Failed?
    ensures r.RequiresAction? <==>
      intent.status == "requires_action" || intent.status == "requires_source_action"
    ensures r.RequiresConfirmation? <==> intent.status == "requires_confirmation"
    ensures r.RequiresAction? ==> r.clientSecret == intent.clientSecret && r.returnUrl == RedirectUrl(intent)
    ensures r.RequiresConfirmation? ==> r.clientSecret == intent.clientSecret
    ensures r.Succeeded? ==> r.paymentIntentId == intent.id
  {
    if intent.status == "requires_action" || intent.status == "requires_source_action" then
      RequiresAction(intent.clientSecret, RedirectUrl(intent))
    else if intent.status == "requires_confirmation" then
      RequiresConfirmation(intent.clientSecret)
    else
      Succeeded(intent.id)
  }

  /** A challenge response carries the redirect URL exactly when the intent has
      `next_action.redirect_to_url.url`. */
  lemma ChallengeReturnUrl(id: string, secret: Value, url: Value)
    ensures Classify(Resource(id, "requires_action", secret, Some(NextAction(Some(RedirectToUrl(url))))))
         == RequiresAction(secret, url)
    ensures Classify(Resource(id, "requires_source_action", secret, None)) == RequiresAction(secret, Undefined)
    ensures Classify(Resource(id, "requires_action", secret, Some(NextAction(None)))) == RequiresAction(secret, Undefined)
  {
  }

  // ---------------------------------------------------------------------------
  // Error boundary

  /** The catch block: the error's message and its `type`, or
      `'general_error'` when the error has no truthy `type`. */
  function ErrorResponse(e: JsError): (r: Response)
    ensures r.Failed? && r.error == e.message && r.errorType != ""
    ensures Truthy(e.errType) ==> r.errorType == e.errType.s
    ensures !Truthy(e.errType) ==> r.errorType == "general_error"
  {
    Failed(e.message, if Truthy(e.errType) then e.errType.s else "general_error")
  }

  // ---------------------------------------------------------------------------
  // Klarna name split

  /** `name.split(' ')[0]`. */
  function FirstName(name: string): string {
    Split(name, ' ')[0]
  }

  /** `name.split(' ').slice(1).join(' ')`. */
  function LastName(name: string): string {
    Join(Split(name, ' ')[1..], ' ')
  }

  /** With a space in the name, first and last name joined by a space give the
      full name back, and the first name is the text before the first space. */
  lemma NameRecombines(name: string)
    requires ' ' in name
    ensures FirstName(name) + " " + LastName(name) == name
    ensures ' ' !in FirstName(name)
  {
    var parts := Split(name, ' ');
    SplitSingle(name, ' ');
    JoinSplit(name, ' ');
    assert Join(parts, ' ') == parts[0] + [' '] + Join(parts[1..], ' ');
  }

  /** A name without a space is all first name, and the last name is empty. */
  lemma NameWithoutSpace(name: string)
    requires ' ' !in name
    ensures FirstName(name) == name && LastName(name) == ""
  {
    SplitSingle(name, ' ');
  }

  // The name is a parameter rather than a literal in the ensures: Dafny
  // unrolls `Split` without limit on a literal argument.
  lemma NameExample(name: string)
    requires name == "Anna Maria Svensson"
    ensures FirstName(name) == "Anna"
    ensures LastName(name) == "Maria Svensson"
  {
    var rest := name[5..];
    assert name == "Anna" + [' '] + rest;
    SplitAfterFirst("Anna", ' ', rest);
    assert Split(name, ' ')[1..] == Split(rest, ' ');
    JoinSplit(rest, ' ');
  }

  // ---------------------------------------------------------------------------
  // Metadata

  /** `{plan, cycle, ...metadata}`. */
  function PlanMetadata(req: Request): Object {
    Spread([Entry("plan", req.plan), Entry("cycle", req.cycle)], req.metadata)
  }

  /** `{plan, cycle, <key>: <value>, ...metadata}`. */
  function TaggedMetadata(req: Request, key: string, value: Value): Object
    requires key != "plan" && key != "cycle"
  {
    Spread([Entry("plan", req.plan), Entry("cycle", req.cycle), Entry(key, value)], req.metadata)
  }

  /** Caller metadata overrides the fixed tags key by key, every other tag
      keeps its value, and the fixed tags stay in front in their order. */
  lemma CallerMetadataOverrides(req: Request, key: string, value: Value, k: string)
    requires key != "plan" && key != "cycle"
    ensures var fixed := [Entry("plan", req.plan), Entry("cycle", req.cycle), Entry(key, value)];
      Lookup(TaggedMetadata(req, key, value), k) ==
        if k in Keys(req.metadata) then Lookup(req.metadata, k) else Lookup(fixed, k)
    ensures var m := TaggedMetadata(req, key, value);
      |m| >= 3 && m[0].key == "plan" && m[1].key == "cycle" && m[2].key == key
    ensures var fixed := [Entry("plan", req.plan), Entry("cycle", req.cycle)];
      Lookup(PlanMetadata(req), k) ==
        if k in Keys(req.metadata) then Lookup(req.metadata, k) else Lookup(fixed, k)
    ensures var m := PlanMetadata(req);
      |m| >= 2 && m[0].key == "plan" && m[1].key == "cycle"
  {
    var fixed3: Object := [Entry("plan", req.plan), Entry("cycle", req.cycle), Entry(key, value)];
    var fixed2: Object := [Entry("plan", req.plan), Entry("cycle", req.cycle)];
    SpreadLookup(fixed3, req.metadata, k);
    SpreadKeepsOrder(fixed3, req.metadata);
    SpreadLookup(fixed2, req.metadata, k);
    SpreadKeepsOrder(fixed2, req.metadata);
  }

  /** Without caller overrides, `plan` and `cycle` read as the request's
      fields, and no `personal_number` reaches the Klarna intent. */
  lemma PlanTagsKept(req: Request)
    requires "plan" !in Keys(req.metadata) && "cycle" !in Keys(req.metadata)
    requires "personal_number" !in Keys(req.metadata)
    ensures Lookup(PlanMetadata(req), "plan") == Some(req.plan)
    ensures Lookup(PlanMetadata(req), "cycle") == Some(req.cycle)
    ensures Lookup(PlanMetadata(req), "personal_number") == None
  {
    var fixed: Object := [Entry("plan", req.plan), Entry("cycle", req.cycle)];
    SpreadLookup(fixed, req.metadata, "plan");
    SpreadLookup(fixed, req.metadata, "cycle");
    SpreadLookup(fixed, req.metadata, "personal_number");
  }

  /** Without a caller override, the branch tag reads as the request's field:
      `swish_number` for Swish, `personal_number` for the Klarna source. */
  lemma BranchTagKept(req: Request, key: string, value: Value)
    requires key != "plan" && key != "cycle"
    requires key !in Keys(req.metadata)
    ensures Lookup(TaggedMetadata(req, key, value), key) == Some(value)
  {
    var fixed: Object := [Entry("plan", req.plan), Entry("cycle", req.cycle), Entry(key, value)];
    SpreadLookup(fixed, req.metadata, key);
    assert fixed[1..][1..] == [Entry(key, value)];
    assert Lookup(fixed, key) == Lookup(fixed[1..], key) == Lookup([Entry(key, value)], key);
  }

  // ---------------------------------------------------------------------------
  // Processor requests of each workflow

  function CardCustomer(req: Request, b: BillingDetails): CustomerParams {
    CustomerParams(req.paymentMethodId, b.email, b.name, b.address)
  }

  function CardIntent(req: Request, amount: int, customerId: string): IntentParams {
    IntentParams(amount, Currency, Str(customerId), req.paymentMethodId, Some(false), Some(true),
                 PlanMetadata(req), ["card"], Undefined, Str(SuccessUrl))
  }

  function SwishIntent(req: Request, amount: int): IntentParams {
    IntentParams(amount, Currency, Undefined, Undefined, None, None,
                 TaggedMetadata(req, "swish_number", req.swishNumber), ["swish"], Undefined, Undefined)
  }

  const SwishConfirm: ConfirmParams := ConfirmParams("swish", SuccessUrl)

  function KlarnaSource(req: Request, amount: int, name: string): SourceParams {
    SourceParams("klarna", amount, Currency,
                 KlarnaParams("payment", "SE", FirstName(name), LastName(name), "sv-SE"),
                 TaggedMetadata(req, "personal_number", req.personalNumber), SuccessUrl)
  }

  function KlarnaIntent(req: Request, amount: int, sourceId: string): IntentParams {
    IntentParams(amount, Currency, Undefined, Undefined, None, Some(true),
                 PlanMetadata(req), ["klarna"], Str(sourceId), Str(SuccessUrl))
  }

  // ---------------------------------------------------------------------------
  // One run of the handler, as a function of the request and the script

  /** The requests a run sends, in order, and the response it ends with. */
  datatype Run = Run(calls: seq<Call>, response: Response)

  /** Card: create a customer, then create and confirm an intent for it. */
  function CardRun(req: Request, amount: int, respond: Responder, n: nat): Run {
    match req.billingDetails
    case None => Run([], ErrorResponse(ReadOfUndefined("email")))
    case Some(b) =>
      var first := CustomersCreate(CardCustomer(req, b));
      match respond(n, first)
      case Rejected(e) => Run([first], ErrorResponse(e))
      case Created(customer) =>
        var second := IntentsCreate(CardIntent(req, amount, customer.id));
        match respond(n + 1, second)
        case Rejected(e) => Run([first, second], ErrorResponse(e))
        case Created(intent) => Run([first, second], Classify(intent))
  }

  /** Swish: create an intent, then confirm it by id; the intent classified is
      the created one, and what the confirmation returns is dropped. */
  function SwishRun(req: Request, amount: int, respond: Responder, n: nat): Run {
    var first := IntentsCreate(SwishIntent(req, amount));
    match respond(n, first)
    case Rejected(e) => Run([first], ErrorResponse(e))
    case Created(intent) =>
      var second := IntentsConfirm(intent.id, SwishConfirm);
      match respond(n + 1, second)
      case Rejected(e) => Run([first, second], ErrorResponse(e))
      case Created(_) => Run([first, second], Classify(intent))
  }

  /** Klarna: create a source, then create and confirm an intent referencing it. */
  function KlarnaRun(req: Request, amount: int, respond: Responder, n: nat): Run {
    match req.billingDetails
    case None => Run([], ErrorResponse(ReadOfUndefined("name")))
    case Some(b) =>
      match b.name
      case Undefined => Run([], ErrorResponse(ReadOfUndefined("split")))
      case Str(name) =>
        var first := SourcesCreate(KlarnaSource(req, amount, name));
        match respond(n, first)
        case Rejected(e) => Run([first], ErrorResponse(e))
        case Created(source) =>
          var second := IntentsCreate(KlarnaIntent(req, amount, source.id));
          match respond(n + 1, second)
          case Rejected(e) => Run([first, second], ErrorResponse(e))
          case Created(intent) => Run([first, second], Classify(intent))
  }

  /** The whole handler for a processor whose trace already holds `n` requests. */
  function Checkout(req: Request, respond: Responder, n: nat): Run {
    match NormalizeAmount(req.amount, req.price)
    case Err(e) => Run([], ErrorResponse(e))
    case Ok(amount) =>
      if req.paymentMethod == Str("card") then CardRun(req, amount, respond, n)
      else if req.paymentMethod == Str("swish") then SwishRun(req, amount, respond, n)
      else if req.paymentMethod == Str("klarna") then KlarnaRun(req, amount, respond, n)
      else Run([], ErrorResponse(InvalidMethod))
  }

  /** The route handler: it sends its requests through `stripe`, which keeps
      every request it was sent, including those of a run that fails. */
  method HandleCheckout(req: Request, stripe: Processor) returns (response: Response)
    modifies stripe
    ensures stripe.trace == old(stripe.trace) + Checkout(req, stripe.respond, |old(stripe.trace)|).calls
    ensures response == Checkout(req, stripe.respond, |old(stripe.trace)|).response
  {
    var normalized := NormalizeAmount(req.amount, req.price);
    if normalized.Err? {
      return ErrorResponse(normalized.error);
    }
    var amount := normalized.value;
    var paymentIntent: Resource;
    if req.paymentMethod == Str("card") {
      if req.billingDetails.None? {
        return ErrorResponse(ReadOfUndefined("email"));
      }
      var customer := stripe.CreateCustomer(CardCustomer(req, req.billingDetails.value));
      if customer.Rejected? {
        return ErrorResponse(customer.error);
      }
      var created := stripe.CreateIntent(CardIntent(req, amount, customer.resource.id));
      if created.Rejected? {
        return ErrorResponse(created.error);
      }
      paymentIntent := created.resource;
    } else if req.paymentMethod == Str("swish") {
      var created := stripe.CreateIntent(SwishIntent(req, amount));
      if created.Rejected? {
        return ErrorResponse(created.error);
      }
      paymentIntent := created.resource;
      var confirmed := stripe.ConfirmIntent(paymentIntent.id, SwishConfirm);
      if confirmed.Rejected? {
        return ErrorResponse(confirmed.error);
      }
    } else if req.paymentMethod == Str("klarna") {
      if req.billingDetails.None? {
        return ErrorResponse(ReadOfUndefined("name"));
      }
      if req.billingDetails.value.name.Undefined? {
        return ErrorResponse(ReadOfUndefined("split"));
      }
      var name := req.billingDetails.value.name.s;
      var source := stripe.CreateSource(KlarnaSource(req, amount, name));
      if source.Rejected? {
        return ErrorResponse(source.error);
      }
      var created := stripe.CreateIntent(KlarnaIntent(req, amount, source.resource.id));
      if created.Rejected? {
        return ErrorResponse(created.error);
      }
      paymentIntent := created.resource;
    } else {
      return ErrorResponse(InvalidMethod);
    }
    response := Classify(paymentIntent);
  }

  // ---------------------------------------------------------------------------
  // Properties of a run

  /** Without a usable amount the handler fails before any request. */
  lemma InvalidAmountSendsNothing(req: Request, respond: Responder, n: nat)
    requires !Resolves(req.amount) && !Resolves(req.price)
    ensures Checkout(req, respond, n).calls == []
    ensures Checkout(req, respond, n).response == Failed("Invalid amount or price provided", "general_error")
  {
  }

  /** An unknown payment method fails, after normalisation, before any request. */
  lemma InvalidMethodSendsNothing(req: Request, respond: Responder, n: nat)
    requires Resolves(req.amount) || Resolves(req.price)
    requires req.paymentMethod !in {Str("card"), Str("swish"), Str("klarna")}
    ensures Checkout(req, respond, n).calls == []
    ensures Checkout(req, respond, n).response == Failed("Invalid payment method", "general_error")
  {
  }

  /** Every run sends at most two requests; a run that does not fail sends
      exactly two, and a run with no request fails. */
  lemma AtMostTwoCalls(req: Request, respond: Responder, n: nat)
    ensures |Checkout(req, respond, n).calls| <= 2
    ensures !Checkout(req, respond, n).response.Failed? ==> |Checkout(req, respond, n).calls| == 2
    ensures Checkout(req, respond, n).calls == [] ==> Checkout(req, respond, n).response.Failed?
  {
  }

  /** Each request that charges uses the normalised amount and SEK. */
  lemma ChargesUseAmountAndSek(req: Request, respond: Responder, n: nat, i: nat)
    requires NormalizeAmount(req.amount, req.price).Ok?
    requires i < |Checkout(req, respond, n).calls|
    ensures var c := Checkout(req, respond, n).calls[i];
      var amount := NormalizeAmount(req.amount, req.price).value;
      (c.IntentsCreate? ==> c.intent.amount == amount && c.intent.currency == "sek") &&
      (c.SourcesCreate? ==> c.source.amount == amount && c.source.currency == "sek")
  {
  }

  /** A run stops at the first rejected request and reports that rejection;
      nothing is retried and nothing already sent is undone. */
  lemma RejectionEndsRun(req: Request, respond: Responder, n: nat, i: nat)
    requires i < |Checkout(req, respond, n).calls|
    requires respond(n + i, Checkout(req, respond, n).calls[i]).Rejected?
    ensures i == |Checkout(req, respond, n).calls| - 1
    ensures Checkout(req, respond, n).response
         == ErrorResponse(respond(n + i, Checkout(req, respond, n).calls[i]).error)
  {
    var normalized := NormalizeAmount(req.amount, req.price);
    if normalized.Ok? {
      var amount := normalized.value;
      if req.paymentMethod == Str("card") {
        RejectionEndsBranch(CardRun(req, amount, respond, n), respond, n, i);
      } else if req.paymentMethod == Str("swish") {
        RejectionEndsBranch(SwishRun(req, amount, respond, n), respond, n, i);
      } else {
        RejectionEndsBranch(KlarnaRun(req, amount, respond, n), respond, n, i);
      }
    }
  }

  /** The shape every workflow has: at most two requests, the second only after
      the first was answered, the response an error exactly at a rejection. */
  predicate TwoStep(run: Run, respond: Responder, n: nat) {
    && |run.calls| <= 2
    && (|run.calls| >= 1 && respond(n, run.calls[0]).Rejected? ==>
          |run.calls| == 1 && run.response == ErrorResponse(respond(n, run.calls[0]).error))
    && (|run.calls| == 2 && respond(n + 1, run.calls[1]).Rejected? ==>
          run.response == ErrorResponse(respond(n + 1, run.calls[1]).error))
  }

  lemma RejectionEndsBranch(run: Run, respond: Responder, n: nat, i: nat)
    requires TwoStep(run, respond, n)
    requires i < |run.calls| && respond(n + i, run.calls[i]).Rejected?
    ensures i == |run.calls| - 1 && run.response == ErrorResponse(respond(n + i, run.calls[i]).error)
  {
  }

  /** Card: a customer for the token and billing details, then an intent for
      that customer, confirmed at once, card only, with the plan tags. */
  lemma CardWorkflow(req: Request, respond: Responder, n: nat)
    requires NormalizeAmount(req.amount, req.price).Ok? && req.paymentMethod == Str("card")
    requires req.billingDetails.Some?
    ensures var run := Checkout(req, respond, n);
      var amount := NormalizeAmount(req.amount, req.price).value;
      var b := req.billingDetails.value;
      |run.calls| >= 1 &&
      run.calls[0] == CustomersCreate(CustomerParams(req.paymentMethodId, b.email, b.name, b.address)) &&
      (|run.calls| == 2 <==> respond(n, run.calls[0]).Created?) &&
      (|run.calls| == 2 ==>
        var customer := respond(n, run.calls[0]).resource;
        run.calls[1] == IntentsCreate(IntentParams(amount, "sek", Str(customer.id), req.paymentMethodId,
                                      Some(false), Some(true), PlanMetadata(req), ["card"], Undefined,
                                      Str("https://virtwin-energy.se/success.html"))) &&
        (respond(n + 1, run.calls[1]).Created? ==> run.response == Classify(respond(n + 1, run.calls[1]).resource)))
  {
  }

  /** Swish: an unconfirmed Swish intent, then its confirmation by id; the
      response classifies the intent as created. */
  lemma SwishWorkflow(req: Request, respond: Responder, n: nat)
    requires NormalizeAmount(req.amount, req.price).Ok? && req.paymentMethod == Str("swish")
    ensures var run := Checkout(req, respond, n);
      var amount := NormalizeAmount(req.amount, req.price).value;
      |run.calls| >= 1 &&
      run.calls[0] == IntentsCreate(IntentParams(amount, "sek", Undefined, Undefined, None, None,
                                    TaggedMetadata(req, "swish_number", req.swishNumber),
                                    ["swish"], Undefined, Undefined)) &&
      (|run.calls| == 2 <==> respond(n, run.calls[0]).Created?) &&
      (|run.calls| == 2 ==>
        var intent := respond(n, run.calls[0]).resource;
        run.calls[1] == IntentsConfirm(intent.id, ConfirmParams("swish", "https://virtwin-energy.se/success.html")) &&
        (respond(n + 1, run.calls[1]).Created? ==> run.response == Classify(intent)))
  {
  }

  /** Swish: whatever the confirmation returns, the response is the same. */
  // `next` stands for `n + 1` so that the quantifier over requests has a
  // trigger (`respond(next, c)`) free of arithmetic.
  lemma SwishIgnoresConfirmation(req: Request, respond: Responder, other: Responder, n: nat, next: nat)
    requires NormalizeAmount(req.amount, req.price).Ok? && req.paymentMethod == Str("swish")
    requires next == n + 1
    requires forall c :: respond(n, c) == other(n, c)
    requires forall c :: respond(next, c).Created? && other(next, c).Created?
    ensures Checkout(req, respond, n) == Checkout(req, other, n)
  {
  }

  /** Klarna: a Klarna source with the split name and the personal number,
      then an intent confirmed at once that references the source's id. */
  lemma KlarnaWorkflow(req: Request, respond: Responder, n: nat)
    requires NormalizeAmount(req.amount, req.price).Ok? && req.paymentMethod == Str("klarna")
    requires req.billingDetails.Some? && req.billingDetails.value.name.Str?
    ensures var run := Checkout(req, respond, n);
      var amount := NormalizeAmount(req.amount, req.price).value;
      var name := req.billingDetails.value.name.s;
      |run.calls| >= 1 &&
      run.calls[0] == SourcesCreate(SourceParams("klarna", amount, "sek",
                        KlarnaParams("payment", "SE", FirstName(name), LastName(name), "sv-SE"),
                        TaggedMetadata(req, "personal_number", req.personalNumber),
                        "https://virtwin-energy.se/success.html")) &&
      (|run.calls| == 2 <==> respond(n, run.calls[0]).Created?) &&
      (|run.calls| == 2 ==>
        var source := respond(n, run.calls[0]).resource;
        run.calls[1] == IntentsCreate(IntentParams(amount, "sek", Undefined, Undefined, None, Some(true),
                                      PlanMetadata(req), ["klarna"], Str(source.id),
                                      Str("https://virtwin-energy.se/success.html"))) &&
        (respond(n + 1, run.calls[1]).Created? ==> run.response == Classify(respond(n + 1, run.calls[1]).resource)))
  {
  }

  /** Missing billing details on card or Klarna throw before any request. */
  lemma MissingBillingSendsNothing(req: Request, respond: Responder, n: nat)
    requires NormalizeAmount(req.amount, req.price).Ok?
    requires req.paymentMethod == Str("card") || req.paymentMethod == Str("klarna")
    requires req.billingDetails.None? || (req.paymentMethod == Str("klarna") && req.billingDetails.value.name.Undefined?)
    ensures Checkout(req, respond, n).calls == []
    ensures Checkout(req, respond, n).response.Failed?
    ensures Checkout(req, respond, n).response.errorType == "general_error"
  {
  }
}
