/** The four payment-processor requests the checkout handler makes, the
    resources the processor returns, and the processor client itself as an
    injected capability that answers from a script and records every request. */
module Stripe {
  import opened JsValues

  /** Arguments of `customers.create`. */
  datatype CustomerParams = CustomerParams(
    paymentMethod: Value,
    email: Value,
    name: Value,
    address: Option<Object>)

  /** Arguments of `paymentIntents.create`; an absent optional argument is
      `Undefined` or `None`. */
  datatype IntentParams = IntentParams(
    amount: int,
    currency: string,
    customer: Value,
    paymentMethod: Value,
    offSession: Option<bool>,
    confirm: Option<bool>,
    metadata: Object,
    paymentMethodTypes: seq<string>,
    source: Value,
    returnUrl: Value)

  /** Arguments of `paymentIntents.confirm`, besides the intent's id. */
  datatype ConfirmParams = ConfirmParams(paymentMethod: string, returnUrl: string)

  /** The `klarna` block of `sources.create`. */
  datatype KlarnaParams = KlarnaParams(
    product: string,
    purchaseCountry: string,
    firstName: string,
    lastName: string,
    locale: string)

  /** Arguments of `sources.create`. */
  datatype SourceParams = SourceParams(
    kind: string,
    amount: int,
    currency: string,
    klarna: KlarnaParams,
    metadata: Object,
    redirectReturnUrl: string)

  /** One request sent to the processor, as it appears in the trace. */
  datatype Call =
    | CustomersCreate(customer: CustomerParams)
    | IntentsCreate(intent: IntentParams)
    | IntentsConfirm(intentId: string, confirm: ConfirmParams)
    | SourcesCreate(source: SourceParams)

  datatype RedirectToUrl = RedirectToUrl(url: Value)

  datatype NextAction = NextAction(redirectToUrl: Option<RedirectToUrl>)

  /** What the handler reads of a returned customer, source or intent. */
  datatype Resource = Resource(
    id: string,
    status: string,
    clientSecret: Value,
    nextAction: Option<NextAction>)

  /** The processor either creates (or confirms) a resource or rejects the
      request with an error, which the awaiting handler receives as a throw. */
  datatype Reply = Created(resource: Resource) | Rejected(error: JsError)

  /** A script for the processor: the reply to the request at a given position
      of the trace. */
  type Responder = (nat, Call) -> Reply

  /** The processor client handed to the handler. */
  class Processor {
    const respond: Responder
    var trace: seq<Call>

    constructor (respond: Responder)
      ensures this.respond == respond && trace == []
    {
      this.respond := respond;
      trace := [];
    }

    /** Sends one request: it is appended to the trace and answered by the script. */
    method Send(c: Call) returns (r: Reply)
      modifies this
      ensures trace == old(trace) + [c]
      ensures r == respond(|old(trace)|, c)
    {
      r := respond(|trace|, c);
      trace := trace + [c];
    }

    method CreateCustomer(p: CustomerParams) returns (r: Reply)
      modifies this
      ensures trace == old(trace) + [CustomersCreate(p)]
      ensures r == respond(|old(trace)|, CustomersCreate(p))
    {
      r := Send(CustomersCreate(p));
    }

    method CreateIntent(p: IntentParams) returns (r: Reply)
      modifies this
      ensures trace == old(trace) + [IntentsCreate(p)]
      ensures r == respond(|old(trace)|, IntentsCreate(p))
    {
      r := Send(IntentsCreate(p));
    }

    method ConfirmIntent(id: string, p: ConfirmParams) returns (r: Reply)
      modifies this
      ensures trace == old(trace) + [IntentsConfirm(id, p)]
      ensures r == respond(|old(trace)|, IntentsConfirm(id, p))
    {
      r := Send(IntentsConfirm(id, p));
    }

    method CreateSource(p: SourceParams) returns (r: Reply)
      modifies this
      ensures trace == old(trace) + [SourcesCreate(p)]
      ensures r == respond(|old(trace)|, SourcesCreate(p))
    {
      r := Send(SourcesCreate(p));
    }
  }
}
