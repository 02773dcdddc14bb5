/**
 * PaymentIntents, Charges and webhook events, and the transitions between them. The functions here say
 * what one request reads and writes; module PaymentIntentServer carries them out step by step.
 */
module PaymentIntents {
  import opened Json

  datatype Status =
    | RequiresPaymentMethod
    | RequiresConfirmation
    | RequiresAction
    | RequiresCapture
    | Processing
    | Succeeded
    | Canceled

  /** `details` holds the fields that requests set and no transition looks at. */
  datatype PaymentIntent = PaymentIntent(
    id: string,
    status: Status,
    amount: Json,
    currency: Json,
    customer: Json,
    captureMethod: Json,
    paymentMethod: Json,
    nextAction: Option<string>,
    lastPaymentError: Option<string>,
    latestCharge: Option<string>,
    amountCapturable: Json,
    amountReceived: Json,
    cancellationReason: Json,
    clientSecret: Json,
    details: map<string, Json>)

  datatype ChargeStatus = ChargeSucceeded | ChargeFailed | ChargeOther

  datatype Charge = Charge(
    id: string,
    amount: Json,
    currency: Json,
    paymentIntent: string,
    customer: Json,
    paymentMethod: Json,
    status: ChargeStatus,
    captured: bool,
    paid: bool,
    amountCaptured: Json,
    details: map<string, Json>)

  datatype EventType =
    | IntentCreated
    | IntentSucceeded
    | IntentAmountCapturableUpdated
    | IntentRequiresAction
    | IntentProcessing
    | IntentPaymentFailed
    | IntentCanceled
    | ChargeSucceededEvent
    | ChargeCapturedEvent
    | ChargeFailedEvent

  /** An event holds the object as it was when the event was built. */
  datatype Event = IntentEvent(kind: EventType, intent: PaymentIntent) | ChargeEvent(kind: EventType, charge: Charge)

  /** Request parameters after coercion: None where the request does not carry the key. */
  datatype Params = Params(
    amount: Option<Json>,
    currency: Option<Json>,
    customer: Option<Json>,
    captureMethod: Option<Json>,
    paymentMethod: Option<Json>,
    paymentMethodData: Option<Json>,
    confirm: Option<Json>,
    amountToCapture: Option<Json>,
    cancellationReason: Option<Json>,
    details: map<string, Json>)

  /** What a request gets from the generator: base objects, if it can make them, and new ids. */
  datatype Generated = Generated(
    intentBase: Option<PaymentIntent>,
    chargeBase: Option<Charge>,
    intentId: string,
    chargeId: string,
    paymentMethodId: string,
    secret: string)

  datatype Action = Confirm | Capture | Cancel | Update

  datatype PaymentOutcome = OutcomeSucceed | OutcomeRequiresAction | OutcomeDecline

  const MAGIC_PAYMENT_METHODS: map<string, PaymentOutcome> := map[
    "pm_card_visa" := OutcomeSucceed,
    "pm_card_mastercard" := OutcomeSucceed,
    "pm_card_authenticationRequired" := OutcomeRequiresAction,
    "pm_card_authenticationRequiredOnSetup" := OutcomeRequiresAction,
    "pm_card_chargeDeclined" := OutcomeDecline,
    "pm_card_chargeDeclinedInsufficientFunds" := OutcomeDecline,
    "pm_card_chargeDeclinedLostCard" := OutcomeDecline,
    "pm_card_chargeDeclinedExpiredCard" := OutcomeDecline,
    "pm_card_visa_chargeDeclined" := OutcomeDecline
  ]

  const EMPTY_CHARGE := Charge("", Null, Null, "", Null, Null, ChargeOther, false, false, Null, map[])

  function OutcomeForPaymentMethod(paymentMethod: string): PaymentOutcome {
    if paymentMethod in MAGIC_PAYMENT_METHODS then MAGIC_PAYMENT_METHODS[paymentMethod] else OutcomeSucceed
  }

  function GetString(v: Json): string {
    if v.Str? then v.s else ""
  }

  function GetParam(p: Option<Json>): string {
    if p.Some? then GetString(p.value) else ""
  }

  function BoolParam(p: Option<Json>): bool {
    match p
    case Some(Bool(b)) => b
    case Some(Str(s)) => s == "true"
    case _ => false
  }

  function Or(p: Option<Json>, v: Json): Json {
    if p.Some? then p.value else v
  }

  // Transitions of one intent.

  predicate ConfirmHasPaymentMethod(current: Json, params: Params) {
    GetParam(params.paymentMethod) != "" || GetString(current) != "" || params.paymentMethodData.Some?
  }

  function AttachPaymentMethod(pi: PaymentIntent, params: Params, newId: string): PaymentIntent {
    if GetParam(params.paymentMethod) != "" then pi.(paymentMethod := Str(GetParam(params.paymentMethod)))
    else if params.paymentMethodData.Some? && GetString(pi.paymentMethod) == "" then pi.(paymentMethod := Str(newId))
    else pi
  }

  function CopyParams(pi: PaymentIntent, params: Params): PaymentIntent {
    pi.(amount := Or(params.amount, pi.amount),
        currency := Or(params.currency, pi.currency),
        customer := Or(params.customer, pi.customer),
        captureMethod := Or(params.captureMethod, pi.captureMethod),
        paymentMethod := Or(params.paymentMethod, pi.paymentMethod),
        details := pi.details + params.details)
  }

  function ResetLifecycle(pi: PaymentIntent): PaymentIntent {
    pi.(nextAction := None, lastPaymentError := None, latestCharge := None,
        amountReceived := Num(0.0), amountCapturable := Num(0.0))
  }

  function ApplyConfirm(pi: PaymentIntent, params: Params, newId: string): PaymentIntent {
    var p := AttachPaymentMethod(pi, params, newId);
    match OutcomeForPaymentMethod(GetString(p.paymentMethod))
    case OutcomeRequiresAction =>
      p.(status := RequiresAction, lastPaymentError := None, nextAction := Some("use_stripe_sdk"))
    case OutcomeDecline =>
      p.(status := RequiresPaymentMethod, nextAction := None, lastPaymentError := Some("card_declined"))
    case OutcomeSucceed => Settle(p, params)
  }

  function Settle(pi: PaymentIntent, params: Params): PaymentIntent {
    var p := pi.(nextAction := None, lastPaymentError := None);
    var captureMethod := if GetParam(params.captureMethod) != "" then GetParam(params.captureMethod) else GetString(p.captureMethod);
    if captureMethod == "manual" then p.(status := RequiresCapture, amountCapturable := p.amount)
    else p.(status := Succeeded, amountReceived := p.amount)
  }

  function ApplyCapture(pi: PaymentIntent, params: Params): PaymentIntent {
    pi.(status := Succeeded, nextAction := None, amountCapturable := Num(0.0),
        amountReceived := Or(params.amountToCapture, pi.amount))
  }

  function ApplyCancel(pi: PaymentIntent, params: Params): PaymentIntent {
    var p := pi.(status := Canceled, nextAction := None, amountCapturable := Num(0.0));
    if GetParam(params.cancellationReason) != "" then
      p.(cancellationReason := Str(GetParam(params.cancellationReason)))
    else p
  }

  function ApplyUpdate(pi: PaymentIntent, params: Params, newId: string): PaymentIntent {
    var p := AttachPaymentMethod(CopyParams(pi, params), params, newId);
    if p.status == RequiresPaymentMethod && GetString(p.paymentMethod) != "" then p.(status := RequiresConfirmation) else p
  }

  // What a transition writes to the session.

  /** The intent to store, the Charge to store under `chargeId`, if any, and the events to queue. */
  datatype Effects = Effects(intent: PaymentIntent, chargeId: string, charge: Option<Charge>, events: seq<Event>)

  /** The Charge behind an intent: the stored one unless there is none or it failed. */
  function LiveCharge(pi: PaymentIntent, charges: map<string, Charge>): Option<Charge> {
    if pi.latestCharge.Some? && pi.latestCharge.value != "" && pi.latestCharge.value in charges
       && charges[pi.latestCharge.value].status != ChargeFailed
    then Some(charges[pi.latestCharge.value])
    else None
  }

  function FillCharge(charge: Charge, pi: PaymentIntent, status: ChargeStatus, captured: bool): Charge {
    charge.(amount := pi.amount,
            currency := pi.currency,
            paymentIntent := pi.id,
            customer := if pi.customer != Null then pi.customer else charge.customer,
            paymentMethod := if pi.paymentMethod != Null then pi.paymentMethod else charge.paymentMethod,
            status := status,
            captured := captured,
            paid := status == ChargeSucceeded,
            amountCaptured := if captured then pi.amountReceived else Num(0.0))
  }

  /** Stores a Charge for the intent, new or live, and puts its two events after the given ones. */
  function WithCharge(pi: PaymentIntent, charges: map<string, Charge>, status: ChargeStatus, captured: bool, gen: Generated,
                      before: seq<Event>, chargeKind: EventType, intentKind: EventType): Effects
  {
    var live := LiveCharge(pi, charges);
    var base := if gen.chargeBase.Some? then gen.chargeBase.value else EMPTY_CHARGE;
    var id := if live.Some? then pi.latestCharge.value else gen.chargeId;
    var charge := FillCharge(if live.Some? then live.value else base.(id := gen.chargeId), pi, status, captured);
    var p := pi.(latestCharge := Some(id));
    Effects(p, id, Some(charge), before + [ChargeEvent(chargeKind, charge), IntentEvent(intentKind, p)])
  }

  function RecordTransition(pi: PaymentIntent, charges: map<string, Charge>, isCreate: bool, wasAuthorized: bool,
                            gen: Generated): Effects
  {
    var before := if isCreate then [IntentEvent(IntentCreated, pi)] else [];
    match pi.status
    case Succeeded =>
      WithCharge(pi, charges, ChargeSucceeded, true, gen, before,
                 if wasAuthorized then ChargeCapturedEvent else ChargeSucceededEvent, IntentSucceeded)
    case RequiresCapture =>
      WithCharge(pi, charges, ChargeSucceeded, false, gen, before, ChargeSucceededEvent, IntentAmountCapturableUpdated)
    case RequiresAction => Effects(pi, "", None, before + [IntentEvent(IntentRequiresAction, pi)])
    case Processing => Effects(pi, "", None, before + [IntentEvent(IntentProcessing, pi)])
    case RequiresPaymentMethod =>
      if pi.lastPaymentError.Some? then
        WithCharge(pi, charges, ChargeFailed, false, gen, before, ChargeFailedEvent, IntentPaymentFailed)
      else Effects(pi, "", None, before)
    case Canceled => Effects(pi, "", None, before + [IntentEvent(IntentCanceled, pi)])
    case RequiresConfirmation => Effects(pi, "", None, before)
  }

  // Requests.

  datatype Rejection = MissingPaymentMethod | NotConfirmable(status: Status) | NotCapturable(status: Status)
                     | OverCapture | NotCancelable(status: Status)

  datatype Decision = Rejected(reason: Rejection) | Accepted(effects: Effects)

  /** What an action does to an intent as it was read, with the Charges as they are stored. */
  function Decide(pi: PaymentIntent, charges: map<string, Charge>, action: Action, params: Params, gen: Generated): Decision {
    match action
    case Confirm =>
      if pi.status != RequiresConfirmation && pi.status != RequiresAction && pi.status != RequiresPaymentMethod then
        Rejected(NotConfirmable(pi.status))
      else if !ConfirmHasPaymentMethod(pi.paymentMethod, params) then Rejected(MissingPaymentMethod)
      else
        Accepted(RecordTransition(ApplyConfirm(pi, params, gen.paymentMethodId), charges, false, false, gen))
    case Capture =>
      if pi.status != RequiresCapture then Rejected(NotCapturable(pi.status))
      else if TooMuch(params.amountToCapture, pi.amountCapturable) then Rejected(OverCapture)
      else Accepted(RecordTransition(ApplyCapture(pi, params), charges, false, true, gen))
    case Cancel =>
      if pi.status == Succeeded || pi.status == Canceled then Rejected(NotCancelable(pi.status))
      else Accepted(RecordTransition(ApplyCancel(pi, params), charges, false, false, gen))
    case Update =>
      Accepted(Effects(ApplyUpdate(pi, params, gen.paymentMethodId), "", None, []))
  }

  predicate TooMuch(amount: Option<Json>, capturable: Json) {
    amount.Some? && amount.value.Num? && capturable.Num? && amount.value.n > capturable.n
  }

  /** The intent an action starts from when the session has none with that id. */
  function Adopt(base: PaymentIntent, id: string): PaymentIntent {
    ResetLifecycle(base).(id := id, status := RequiresConfirmation)
  }

  function CreatedId(base: PaymentIntent, gen: Generated): string {
    if base.id != "" then base.id else gen.intentId
  }

  /** A new intent with everything but its status. */
  function Prepared(base: PaymentIntent, params: Params, gen: Generated): PaymentIntent {
    var id := CreatedId(base, gen);
    var p := CopyParams(ResetLifecycle(base), params).(id := id, clientSecret := Str(id + "_secret_" + gen.secret));
    AttachPaymentMethod(p, params, gen.paymentMethodId)
  }

  function NewIntent(base: PaymentIntent, params: Params, gen: Generated): PaymentIntent {
    var q := Prepared(base, params, gen);
    if BoolParam(params.confirm) then ApplyConfirm(q, params, gen.paymentMethodId)
    else if GetString(q.paymentMethod) != "" then q.(status := RequiresConfirmation)
    else q.(status := RequiresPaymentMethod)
  }

  function CreateEffects(base: PaymentIntent, charges: map<string, Charge>, params: Params, gen: Generated): Effects {
    RecordTransition(NewIntent(base, params, gen), charges, true, false, gen)
  }

  /** Preparing an intent does not change the id it gets. */
  lemma KeepsId(base: PaymentIntent, params: Params, gen: Generated)
    ensures NewIntent(base, params, gen).id == CreatedId(base, gen)
  {
    ConfirmKeepsId(Prepared(base, params, gen), params, gen.paymentMethodId);
    hide ApplyConfirm, GetString, GetParam;
  }

  lemma ConfirmKeepsId(p: PaymentIntent, params: Params, newId: string)
    ensures ApplyConfirm(p, params, newId).id == p.id
  {
    hide OutcomeForPaymentMethod, GetString, GetParam;
  }
}
