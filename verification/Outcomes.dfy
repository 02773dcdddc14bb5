/**
 * What every request on an intent is answered, and what it leaves, in the terms of the request itself: which
 * payment methods decline, which amounts can be captured, and which field takes which value.
 */
module Outcomes {
  import opened Json
  import opened PaymentIntents
  import opened Sessions
  import opened Lifecycle
  import opened LifecycleTheorems

  const DECLINING := {"pm_card_chargeDeclined", "pm_card_chargeDeclinedInsufficientFunds",
                      "pm_card_chargeDeclinedLostCard", "pm_card_chargeDeclinedExpiredCard",
                      "pm_card_visa_chargeDeclined"}

  const AUTHENTICATING := {"pm_card_authenticationRequired", "pm_card_authenticationRequiredOnSetup"}

  /** The text of a string; everything else has none. */
  function Text(v: Json): string {
    match v case Str(s) => s case _ => ""
  }

  function Sent(p: Option<Json>): string {
    match p case Some(Str(s)) => s case _ => ""
  }

  /** The intent has a payment method, or the request names one or describes one. */
  predicate HasMethod(pm: Json, params: Params) {
    Sent(params.paymentMethod) != "" || Text(pm) != "" || params.paymentMethodData.Some?
  }

  /** The payment method that decides a confirm: the one sent, else the intent's, else a new one. */
  function Deciding(pm: Json, params: Params, minted: string): string {
    if Sent(params.paymentMethod) != "" then Sent(params.paymentMethod)
    else if Text(pm) != "" then Text(pm)
    else minted
  }

  predicate Manual(captureMethod: Json, params: Params) {
    (if Sent(params.captureMethod) != "" then Sent(params.captureMethod) else Text(captureMethod)) == "manual"
  }

  // When an action is served.

  /** The intent an action works on. */
  function Working(s: Session, r: Request): PaymentIntent
    requires r.Act? && (r.id in s.intents || r.gen.intentBase.Some?)
  {
    if r.id in s.intents then s.intents[r.id]
    else
      r.gen.intentBase.value.(id := r.id, status := RequiresConfirmation, nextAction := None, lastPaymentError := None,
                              latestCharge := None, amountReceived := Num(0.0), amountCapturable := Num(0.0))
  }

  predicate NumberAbove(amount: Option<Json>, limit: Json) {
    match (amount, limit)
    case (Some(Num(n)), Num(m)) => n > m
    case _ => false
  }

  /** The answer to every action the stateful layer handles. */
  lemma ActionAnswers(s: Session, r: Request)
    requires r.Act? && r.action.Some? && (r.stateful || s.enabled)
    ensures var answer := Handle(s, r).1;
      if r.id !in s.intents && r.gen.intentBase.None? then answer == GeneratorFailed
      else
        var p := Working(s, r);
        match r.action.value
        case Confirm =>
          if p.status == Succeeded || p.status == Canceled || p.status == RequiresCapture || p.status == Processing then
            answer == Refused(NotConfirmable(p.status))
          else if !HasMethod(p.paymentMethod, r.params) then answer == Refused(MissingPaymentMethod)
          else answer.Served?
        case Capture =>
          if p.status != RequiresCapture then answer == Refused(NotCapturable(p.status))
          else if NumberAbove(r.params.amountToCapture, p.amountCapturable) then answer == Refused(OverCapture)
          else answer.Served?
        case Cancel =>
          if p.status == Succeeded || p.status == Canceled then answer == Refused(NotCancelable(p.status))
          else answer.Served?
        case Update => answer.Served?
  {
    hide RecordTransition, ApplyConfirm, ApplyCapture, ApplyCancel, ApplyUpdate;
  }

  /** The answer to every creation. */
  lemma CreationAnswers(s: Session, r: Request)
    requires r.Create? && (r.stateful || s.enabled)
    ensures var answer := Handle(s, r).1;
      if Confirming(r.params) && !HasMethod(Null, r.params) then answer == Refused(MissingPaymentMethod)
      else if r.gen.intentBase.None? then answer == GeneratorFailed
      else answer.Served?
  {
    hide CreateEffects;
  }

  predicate Confirming(params: Params) {
    params.confirm == Some(Bool(true)) || params.confirm == Some(Str("true"))
  }

  // The fields of an intent.

  /** A field takes the value that was sent, and keeps its own if none was. */
  predicate Takes(sent: Option<Json>, before: Json, after: Json) {
    match sent case Some(v) => after == v case None => after == before
  }

  /** The fields of `q` are those of `p` with the parameters copied over them. */
  predicate TermsFrom(params: Params, p: PaymentIntent, q: PaymentIntent) {
    && Takes(params.amount, p.amount, q.amount)
    && Takes(params.currency, p.currency, q.currency)
    && Takes(params.customer, p.customer, q.customer)
    && Takes(params.captureMethod, p.captureMethod, q.captureMethod)
    && q.details.Keys == p.details.Keys + params.details.Keys
    && forall k | k in q.details :: q.details[k] == if k in params.details then params.details[k] else p.details[k]
  }

  /** The payment method an intent has before one is attached: the one sent, whatever it is, or its own. */
  function Copied(params: Params, pm: Json): Json {
    match params.paymentMethod case Some(v) => v case None => pm
  }

  /** A method named by a non-empty string wins; inline data mints one where there is none. */
  predicate Attached(params: Params, pm: Json, minted: string, after: Json) {
    if Sent(params.paymentMethod) != "" then after == Str(Sent(params.paymentMethod))
    else if params.paymentMethodData.Some? && Text(pm) == "" then after == Str(minted)
    else after == pm
  }

  lemma CopiesTerms(params: Params, p: PaymentIntent)
    ensures var q := CopyParams(p, params);
      TermsFrom(params, p, q) && q.paymentMethod == Copied(params, p.paymentMethod)
      && q.(amount := p.amount, currency := p.currency, customer := p.customer, captureMethod := p.captureMethod,
            paymentMethod := p.paymentMethod, details := p.details) == p
  {
  }

  lemma Attaches(params: Params, p: PaymentIntent, minted: string)
    ensures var q := AttachPaymentMethod(p, params, minted);
      Attached(params, p.paymentMethod, minted, q.paymentMethod) && q == p.(paymentMethod := q.paymentMethod)
    ensures var q := AttachPaymentMethod(p, params, minted);
      HasMethod(p.paymentMethod, params) ==> q.paymentMethod == Str(Deciding(p.paymentMethod, params, minted))
  {
  }

  /** The fields no request of this kind touches. */
  predicate RestKept(p: PaymentIntent, q: PaymentIntent) {
    && q.id == p.id && q.clientSecret == p.clientSecret && q.cancellationReason == p.cancellationReason
    && q.nextAction == p.nextAction && q.lastPaymentError == p.lastPaymentError && q.latestCharge == p.latestCharge
    && q.amountCapturable == p.amountCapturable && q.amountReceived == p.amountReceived
  }

  /** What a served update leaves: the fields that were sent, and a confirmable intent where a method was missing. */
  lemma UpdateLeaves(s: Session, r: Request)
    requires r.Act? && r.action == Some(Update) && Handle(s, r).1.Served?
    ensures r.id in s.intents || r.gen.intentBase.Some?
    ensures var (t, answer) := Handle(s, r);
      var p, q := Working(s, r), answer.intent;
      && t.intents == s.intents[r.id := q] && t.charges == s.charges && t.events == s.events
      && TermsFrom(r.params, p, q) && RestKept(p, q)
      && Attached(r.params, Copied(r.params, p.paymentMethod), r.gen.paymentMethodId, q.paymentMethod)
      && q.status == if p.status == RequiresPaymentMethod && Text(q.paymentMethod) != "" then RequiresConfirmation else p.status
  {
    hide CopyParams, AttachPaymentMethod, Handle, Working;
    ServedEffects(s, r);
    UpdatesFields(Working(s, r), s.charges, r.params, r.gen);
    assert s.events + [] == s.events;
    hide TermsFrom, Attached, Decide;
  }

  lemma UpdatesFields(p: PaymentIntent, charges: map<string, Charge>, params: Params, gen: Generated)
    ensures var d := Decide(p, charges, Update, params, gen);
      && d == Accepted(Effects(d.effects.intent, "", None, []))
      && var q := d.effects.intent;
         && TermsFrom(params, p, q) && RestKept(p, q)
         && Attached(params, Copied(params, p.paymentMethod), gen.paymentMethodId, q.paymentMethod)
         && q.status == if p.status == RequiresPaymentMethod && Text(q.paymentMethod) != "" then RequiresConfirmation else p.status
  {
    hide CopyParams, AttachPaymentMethod;
    CopiesTerms(params, p);
    Attaches(params, CopyParams(p, params), gen.paymentMethodId);
  }

  // How a confirm ends.

  /** A Charge of the intent `q`, with these fields written over what it was. */
  predicate ChargeOf(c: Charge, was: Charge, q: PaymentIntent, status: ChargeStatus, captured: bool) {
    && c.status == status && c.captured == captured && (c.paid <==> status == ChargeSucceeded)
    && c.amount == q.amount && c.currency == q.currency && c.paymentIntent == q.id
    && c.customer == (if q.customer != Null then q.customer else was.customer)
    && c.paymentMethod == (if q.paymentMethod != Null then q.paymentMethod else was.paymentMethod)
    && c.amountCaptured == (if captured then q.amountReceived else Num(0.0))
    && c.details == was.details
  }

  /** What a new Charge is written over. */
  function ChargeBase(gen: Generated): Charge {
    match gen.chargeBase
    case Some(c) => c
    case None => Charge("", Null, Null, "", Null, Null, ChargeOther, false, false, Null, map[])
  }

  /** The intent points to a new Charge, the only one written, and its event is queued before that of the intent. */
  predicate NewlyCharged(s: Session, t: Session, start: seq<Event>, q: PaymentIntent, gen: Generated, status: ChargeStatus,
                         captured: bool, chargeEvent: EventType, intentEvent: EventType)
  {
    var chargeId := gen.chargeId;
    && chargeId !in s.charges && q.latestCharge == Some(chargeId)
    && t.charges.Keys == s.charges.Keys + {chargeId} && (forall c | c in s.charges :: t.charges[c] == s.charges[c])
    && t.charges[chargeId].id == chargeId && ChargeOf(t.charges[chargeId], ChargeBase(gen), q, status, captured)
    && t.events == start + [ChargeEvent(chargeEvent, t.charges[chargeId]), IntentEvent(intentEvent, q)]
  }

  /** The end of a confirm: declined, waiting for the customer, authorized or paid. */
  predicate ConfirmEnds(s: Session, t: Session, start: seq<Event>, q: PaymentIntent, gen: Generated, before: Option<string>,
                        pm: string, manual: bool)
  {
    if pm in DECLINING then
      && q.status == RequiresPaymentMethod && q.nextAction == None && q.lastPaymentError == Some("card_declined")
      && q.amountCapturable == q.amountReceived == Num(0.0)
      && NewlyCharged(s, t, start, q, gen, ChargeFailed, false, ChargeFailedEvent, IntentPaymentFailed)
    else if pm in AUTHENTICATING then
      && q.status == RequiresAction && q.nextAction == Some("use_stripe_sdk") && q.lastPaymentError == None
      && q.amountCapturable == q.amountReceived == Num(0.0)
      && q.latestCharge == before && t.charges == s.charges && t.events == start + [IntentEvent(IntentRequiresAction, q)]
    else if manual then
      && q.status == RequiresCapture && q.nextAction == None && q.lastPaymentError == None
      && q.amountCapturable == q.amount && q.amountReceived == Num(0.0)
      && NewlyCharged(s, t, start, q, gen, ChargeSucceeded, false, ChargeSucceededEvent, IntentAmountCapturableUpdated)
    else
      && q.status == Succeeded && q.nextAction == None && q.lastPaymentError == None
      && q.amountCapturable == Num(0.0) && q.amountReceived == q.amount
      && NewlyCharged(s, t, start, q, gen, ChargeSucceeded, true, ChargeSucceededEvent, IntentSucceeded)
  }

  /** The intent of a confirm, before a Charge is attached to it. */
  predicate Confirmed(p: PaymentIntent, n: PaymentIntent, pm: string, manual: bool) {
    && n.(status := p.status, nextAction := p.nextAction, lastPaymentError := p.lastPaymentError, paymentMethod := p.paymentMethod,
          amountCapturable := p.amountCapturable, amountReceived := p.amountReceived) == p
    && n.paymentMethod == Str(pm)
    && if pm in DECLINING then
         && n.status == RequiresPaymentMethod && n.nextAction == None && n.lastPaymentError == Some("card_declined")
         && n.amountCapturable == p.amountCapturable && n.amountReceived == p.amountReceived
       else if pm in AUTHENTICATING then
         && n.status == RequiresAction && n.nextAction == Some("use_stripe_sdk") && n.lastPaymentError == None
         && n.amountCapturable == p.amountCapturable && n.amountReceived == p.amountReceived
       else if manual then
         && n.status == RequiresCapture && n.nextAction == None && n.lastPaymentError == None
         && n.amountCapturable == p.amount && n.amountReceived == p.amountReceived
       else
         && n.status == Succeeded && n.nextAction == None && n.lastPaymentError == None
         && n.amountCapturable == p.amountCapturable && n.amountReceived == p.amount
  }

  lemma MethodOutcomes(pm: string)
    ensures OutcomeForPaymentMethod(pm) == if pm in DECLINING then OutcomeDecline
                                           else if pm in AUTHENTICATING then OutcomeRequiresAction
                                           else OutcomeSucceed
  {
  }

  lemma ConfirmDecides(p: PaymentIntent, params: Params, minted: string)
    requires HasMethod(p.paymentMethod, params)
    ensures Confirmed(p, ApplyConfirm(p, params, minted), Deciding(p.paymentMethod, params, minted), Manual(p.captureMethod, params))
  {
    MethodOutcomes(Deciding(p.paymentMethod, params, minted));
    Attaches(params, p, minted);
    hide OutcomeForPaymentMethod, AttachPaymentMethod, Deciding, HasMethod;
  }

  /** A Charge for an intent that has none alive is new. */
  lemma ChargesAnew(n: PaymentIntent, s: Session, status: ChargeStatus, captured: bool, gen: Generated, before: seq<Event>,
                    ck: EventType, ik: EventType)
    requires LiveCharge(n, s.charges).None? && gen.chargeId !in s.charges
    ensures var e := WithCharge(n, s.charges, status, captured, gen, before, ck, ik);
      && e.intent == n.(latestCharge := Some(gen.chargeId))
      && forall t: Session | t.charges == PutCharge(s.charges, e) && t.events == s.events + e.events ::
           NewlyCharged(s, t, s.events + before, e.intent, gen, status, captured, ck, ik)
  {
    hide LiveCharge;
    var e := WithCharge(n, s.charges, status, captured, gen, before, ck, ik);
    assert s.events + e.events == s.events + before + [ChargeEvent(ck, e.charge.value), IntentEvent(ik, e.intent)];
  }

  lemma ConfirmRecorded(p: PaymentIntent, n: PaymentIntent, s: Session, t: Session, gen: Generated, isCreate: bool, pm: string,
                        manual: bool, e: Effects)
    requires Confirmed(p, n, pm, manual) && p.amountCapturable == p.amountReceived == Num(0.0)
    requires LiveCharge(p, s.charges).None? && gen.chargeId !in s.charges
    requires e == RecordTransition(n, s.charges, isCreate, false, gen)
    requires t.charges == PutCharge(s.charges, e) && t.events == s.events + e.events
    ensures e.intent.latestCharge == n.latestCharge || e.intent.latestCharge == Some(gen.chargeId)
    ensures e.intent == n.(latestCharge := e.intent.latestCharge)
    ensures ConfirmEnds(s, t, if isCreate then s.events + [IntentEvent(IntentCreated, n)] else s.events,
                        e.intent, gen, p.latestCharge, pm, manual)
  {
    hide WithCharge, LiveCharge, NewlyCharged, PutCharge;
    SameCharge(p, n, s.charges);
    var before := if isCreate then [IntentEvent(IntentCreated, n)] else [];
    ChargesAnew(n, s, ChargeFailed, false, gen, before, ChargeFailedEvent, IntentPaymentFailed);
    ChargesAnew(n, s, ChargeSucceeded, false, gen, before, ChargeSucceededEvent, IntentAmountCapturableUpdated);
    ChargesAnew(n, s, ChargeSucceeded, true, gen, before, ChargeSucceededEvent, IntentSucceeded);
    PutsNone(s.charges);
    assert s.events + (before + [IntentEvent(IntentRequiresAction, n)]) == s.events + before + [IntentEvent(IntentRequiresAction, n)];
    assert s.events + [] == s.events;
  }

  lemma SameCharge(p: PaymentIntent, n: PaymentIntent, charges: map<string, Charge>)
    requires n.latestCharge == p.latestCharge
    ensures LiveCharge(n, charges) == LiveCharge(p, charges)
  {
  }

  lemma PutsNone(charges: map<string, Charge>)
    ensures forall e: Effects | e.charge.None? :: PutCharge(charges, e) == charges
  {
  }

  /** The fields a confirm never touches. */
  predicate TermsKept(p: PaymentIntent, q: PaymentIntent) {
    && q.id == p.id && q.amount == p.amount && q.currency == p.currency && q.customer == p.customer
    && q.captureMethod == p.captureMethod && q.cancellationReason == p.cancellationReason
    && q.clientSecret == p.clientSecret && q.details == p.details
  }

  /** What every served confirm leaves, in every run. */
  lemma ConfirmLeaves(rs: seq<Request>, r: Request)
    requires ValidRun(rs) && FreshIds(Run(rs).session, r)
    requires r.Act? && r.action == Some(Confirm) && Handle(Run(rs).session, r).1.Served?
    ensures var s := Run(rs).session;
      var (t, answer) := Handle(s, r);
      && (r.id in s.intents || r.gen.intentBase.Some?)
      && var p, q := Working(s, r), answer.intent;
         && t.intents == s.intents[r.id := q] && TermsKept(p, q)
         && q.paymentMethod == Str(Deciding(p.paymentMethod, r.params, r.gen.paymentMethodId))
         && ConfirmEnds(s, t, s.events, q, r.gen, p.latestCharge,
                        Deciding(p.paymentMethod, r.params, r.gen.paymentMethodId), Manual(p.captureMethod, r.params))
  {
    var s := Run(rs).session;
    ServedEffects(s, r);
    var p := Working(s, r);
    OpenIntent(rs, r);
    ConfirmServed(s, r);
    ConfirmDecides(p, r.params, r.gen.paymentMethodId);
    var n := ApplyConfirm(p, r.params, r.gen.paymentMethodId);
    hide ApplyConfirm, Decide, ConfirmEnds, Deciding, Manual, Working, HasMethod, Handle;
    ConfirmRecorded(p, n, s, Handle(s, r).0, r.gen, false, Deciding(p.paymentMethod, r.params, r.gen.paymentMethodId),
                    Manual(p.captureMethod, r.params), RecordTransition(n, s.charges, false, false, r.gen));
    hide RecordTransition, LiveCharge;
  }

  /** A served action does the writes of its decision. */
  lemma ServedEffects(s: Session, r: Request)
    requires r.Act? && r.action.Some? && Handle(s, r).1.Served?
    ensures r.id in s.intents || r.gen.intentBase.Some?
    ensures var (t, answer) := Handle(s, r);
      var d := Decide(Working(s, r), s.charges, r.action.value, r.params, r.gen);
      && d.Accepted? && answer.intent == d.effects.intent
      && t.intents == s.intents[r.id := d.effects.intent]
      && t.charges == PutCharge(s.charges, d.effects) && t.events == s.events + d.effects.events
  {
    hide Decide;
    assert IntentFor(s, r.id, r.gen).Some? ==> IntentFor(s, r.id, r.gen).value == Working(s, r);
  }

  lemma ConfirmServed(s: Session, r: Request)
    requires r.Act? && r.action == Some(Confirm) && Handle(s, r).1.Served?
    requires r.id in s.intents || r.gen.intentBase.Some?
    ensures HasMethod(Working(s, r).paymentMethod, r.params) && Confirmable(Working(s, r).status)
    ensures Decide(Working(s, r), s.charges, Confirm, r.params, r.gen) ==
      Accepted(RecordTransition(ApplyConfirm(Working(s, r), r.params, r.gen.paymentMethodId), s.charges, false, false, r.gen))
  {
    ServedEffects(s, r);
    hide RecordTransition, ApplyConfirm;
  }

  /** An intent that can be confirmed has no money on it and no Charge that is alive. */
  lemma OpenIntent(rs: seq<Request>, r: Request)
    requires ValidRun(rs) && r.Act? && (r.id in Run(rs).session.intents || r.gen.intentBase.Some?)
    requires Confirmable(Working(Run(rs).session, r).status)
    ensures var s, p := Run(rs).session, Working(Run(rs).session, r);
      && p.id == r.id && p.amountCapturable == p.amountReceived == Num(0.0) && LiveCharge(p, s.charges).None?
  {
    if r.id in Run(rs).session.intents {
      ReachableIntents(rs, r.id);
    }
    hide Run, ValidRun;
  }

  // What a creation leaves.

  /** The id of a new intent: that of its base, or a new one. */
  function NewId(base: PaymentIntent, gen: Generated): string {
    if base.id == "" then gen.intentId else base.id
  }

  /** A new intent with the parameters copied over its base, and a payment method attached. */
  predicate FromBase(base: PaymentIntent, params: Params, gen: Generated, q: PaymentIntent) {
    && q.id == NewId(base, gen) && q.clientSecret == Str(q.id + "_secret_" + gen.secret)
    && TermsFrom(params, base, q) && q.cancellationReason == base.cancellationReason
    && Attached(params, Copied(params, base.paymentMethod), gen.paymentMethodId, q.paymentMethod)
  }

  lemma PreparesFields(base: PaymentIntent, params: Params, gen: Generated)
    ensures var q := Prepared(base, params, gen);
      && FromBase(base, params, gen, q)
      && q.nextAction == None && q.lastPaymentError == None && q.latestCharge == None
      && q.amountCapturable == q.amountReceived == Num(0.0)
  {
    hide CopyParams, AttachPaymentMethod;
    CopiesTerms(params, ResetLifecycle(base));
    var p := CopyParams(ResetLifecycle(base), params).(id := NewId(base, gen),
                                                       clientSecret := Str(NewId(base, gen) + "_secret_" + gen.secret));
    Attaches(params, p, gen.paymentMethodId);
  }

  /** The payment method that decides is the same before and after it is attached. */
  lemma AttachedDecides(params: Params, pm: Json, minted: string, after: Json)
    requires Attached(params, pm, minted, after) && HasMethod(Null, params)
    ensures HasMethod(after, params) && Deciding(after, params, minted) == Deciding(pm, params, minted)
    ensures Attached(params, pm, minted, Str(Deciding(after, params, minted)))
  {
  }

  lemma CreationServed(s: Session, r: Request)
    requires r.Create? && Handle(s, r).1.Served?
    ensures r.gen.intentBase.Some? && (Confirming(r.params) ==> HasMethod(Null, r.params))
    ensures Confirming(r.params) <==> BoolParam(r.params.confirm)
    ensures var (t, answer) := Handle(s, r);
      var e := RecordTransition(NewIntent(r.gen.intentBase.value, r.params, r.gen), s.charges, true, false, r.gen);
      && answer.intent == e.intent
      && t.intents == s.intents[NewId(r.gen.intentBase.value, r.gen) := e.intent]
      && t.charges == PutCharge(s.charges, e) && t.events == s.events + e.events
  {
    hide RecordTransition, NewIntent;
  }

  /** What every served creation leaves, in every run, confirmed at once or not. */
  lemma CreationLeaves(rs: seq<Request>, r: Request)
    requires ValidRun(rs) && FreshIds(Run(rs).session, r)
    requires r.Create? && Handle(Run(rs).session, r).1.Served?
    ensures r.gen.intentBase.Some?
    ensures var s := Run(rs).session;
      var (t, answer) := Handle(s, r);
      var base, q := r.gen.intentBase.value, answer.intent;
      && NewId(base, r.gen) !in s.intents && t.intents == s.intents[NewId(base, r.gen) := q]
      && FromBase(base, r.params, r.gen, q)
      && if Confirming(r.params) then
           ConfirmEnds(s, t, s.events + [IntentEvent(IntentCreated, q.(latestCharge := None))], q, r.gen, None,
                       Deciding(Copied(r.params, base.paymentMethod), r.params, r.gen.paymentMethodId),
                       Manual(q.captureMethod, r.params))
         else
           && q.status == (if Text(q.paymentMethod) != "" then RequiresConfirmation else RequiresPaymentMethod)
           && q.nextAction == None && q.lastPaymentError == None && q.latestCharge == None
           && q.amountCapturable == q.amountReceived == Num(0.0)
           && t.charges == s.charges && t.events == s.events + [IntentEvent(IntentCreated, q)]
  {
    var s := Run(rs).session;
    CreationServed(s, r);
    hide Handle;
    var base := r.gen.intentBase.value;
    var p := Prepared(base, r.params, r.gen);
    PreparesFields(base, r.params, r.gen);
    if Confirming(r.params) {
      ConfirmingCreation(s, Handle(s, r).0, base, r.params, r.gen);
    } else {
      PlainCreation(s, base, r.params, r.gen);
    }
    hide Run, Prepared, ConfirmEnds, FromBase, RecordTransition, ApplyConfirm, Deciding, Manual;
  }

  lemma ConfirmingCreation(s: Session, t: Session, base: PaymentIntent, params: Params, gen: Generated)
    requires Confirming(params) && HasMethod(Null, params) && BoolParam(params.confirm) && gen.chargeId !in s.charges
    requires var e := RecordTransition(NewIntent(base, params, gen), s.charges, true, false, gen);
      t.charges == PutCharge(s.charges, e) && t.events == s.events + e.events
    ensures var q := RecordTransition(NewIntent(base, params, gen), s.charges, true, false, gen).intent;
      && FromBase(base, params, gen, q)
      && ConfirmEnds(s, t, s.events + [IntentEvent(IntentCreated, q.(latestCharge := None))], q, gen, None,
                     Deciding(Copied(params, base.paymentMethod), params, gen.paymentMethodId), Manual(q.captureMethod, params))
  {
    hide Prepared, RecordTransition, ApplyConfirm, Deciding, Manual, HasMethod, Attached, ConfirmEnds;
    var p := Prepared(base, params, gen);
    PreparesFields(base, params, gen);
    AttachedDecides(params, Copied(params, base.paymentMethod), gen.paymentMethodId, p.paymentMethod);
    ConfirmDecides(p, params, gen.paymentMethodId);
    var n := ApplyConfirm(p, params, gen.paymentMethodId);
    assert n == NewIntent(base, params, gen);
    NoLiveCharge(p, s.charges);
    ConfirmRecorded(p, n, s, t, gen, true, Deciding(p.paymentMethod, params, gen.paymentMethodId), Manual(p.captureMethod, params),
                    RecordTransition(n, s.charges, true, false, gen));
    hide LiveCharge, PutCharge;
  }

  lemma NoLiveCharge(p: PaymentIntent, charges: map<string, Charge>)
    requires p.latestCharge == None
    ensures LiveCharge(p, charges).None?
  {
  }

  lemma PlainCreation(s: Session, base: PaymentIntent, params: Params, gen: Generated)
    requires !BoolParam(params.confirm)
    ensures var n := NewIntent(base, params, gen);
      && n == Prepared(base, params, gen).(status := n.status)
      && n.status == (if Text(n.paymentMethod) != "" then RequiresConfirmation else RequiresPaymentMethod)
      && (n.lastPaymentError == None ==>
            RecordTransition(n, s.charges, true, false, gen) == Effects(n, "", None, [IntentEvent(IntentCreated, n)]))
  {
    hide Prepared;
  }

  // What a capture and a cancellation leave.

  /** What every served capture leaves, in every run: what was asked for is received, on the authorized Charge. */
  lemma CaptureLeaves(rs: seq<Request>, r: Request)
    requires ValidRun(rs) && r.Act? && r.action == Some(Capture) && Handle(Run(rs).session, r).1.Served?
    ensures r.id in Run(rs).session.intents && Run(rs).session.intents[r.id].latestCharge.Some?
    ensures var s := Run(rs).session;
      var (t, answer) := Handle(s, r);
      var p, q := s.intents[r.id], answer.intent;
      var id := p.latestCharge.value;
      && p.status == RequiresCapture && !NumberAbove(r.params.amountToCapture, p.amountCapturable)
      && t.intents == s.intents[r.id := q] && TermsKept(p, q) && q.paymentMethod == p.paymentMethod
      && q.status == Succeeded && q.nextAction == None && q.lastPaymentError == None && q.latestCharge == p.latestCharge
      && q.amountCapturable == Num(0.0)
      && q.amountReceived == (match r.params.amountToCapture case Some(v) => v case None => p.amount)
      && id in s.charges && t.charges == s.charges[id := t.charges[id]]
      && t.charges[id].id == id && ChargeOf(t.charges[id], s.charges[id], q, ChargeSucceeded, true)
      && t.events == s.events + [ChargeEvent(ChargeCapturedEvent, t.charges[id]), IntentEvent(IntentSucceeded, q)]
  {
    hide Run, ValidRun, Handle, RecordTransition, Decide, ApplyCapture, About, Core;
    var s := Run(rs).session;
    CaptureServed(s, r);
    ReachableIntents(rs, r.id);
    ChargesNamed(rs);
    var p := s.intents[r.id];
    AppliesCapture(p, r.params);
    CapturesLive(ApplyCapture(p, r.params), s.charges, r.gen);
  }

  lemma CaptureServed(s: Session, r: Request)
    requires r.Act? && r.action == Some(Capture) && Handle(s, r).1.Served?
    ensures r.id in s.intents && s.intents[r.id].status == RequiresCapture
    ensures var p := s.intents[r.id];
      var (t, answer) := Handle(s, r);
      var e := RecordTransition(ApplyCapture(p, r.params), s.charges, false, true, r.gen);
      && !NumberAbove(r.params.amountToCapture, p.amountCapturable)
      && answer.intent == e.intent && t.intents == s.intents[r.id := e.intent]
      && t.charges == PutCharge(s.charges, e) && t.events == s.events + e.events
  {
    ServedEffects(s, r);
    ActionAnswers(s, r);
    hide RecordTransition, ApplyCapture, Handle;
  }

  lemma AppliesCapture(p: PaymentIntent, params: Params)
    ensures var q := ApplyCapture(p, params);
      && TermsKept(p, q) && q.paymentMethod == p.paymentMethod && q.status == Succeeded && q.nextAction == None
      && q.lastPaymentError == p.lastPaymentError && q.latestCharge == p.latestCharge && q.amountCapturable == Num(0.0)
      && q.amountReceived == (match params.amountToCapture case Some(v) => v case None => p.amount)
  {
  }

  lemma ChargesNamed(rs: seq<Request>)
    requires ValidRun(rs)
    ensures forall c | c in Run(rs).session.charges :: Run(rs).session.charges[c].id == c
  {
    var traces := RunKeepsInv(rs);
    hide Run, ValidRun, Core, About;
  }

  lemma CapturesLive(n: PaymentIntent, charges: map<string, Charge>, gen: Generated)
    requires n.status == Succeeded && n.latestCharge.Some? && n.latestCharge.value != "" && n.latestCharge.value in charges
    requires charges[n.latestCharge.value].status == ChargeSucceeded
    ensures var e, id := RecordTransition(n, charges, false, true, gen), n.latestCharge.value;
      && e.intent == n && e.chargeId == id && e.charge.Some? && e.charge.value.id == charges[id].id
      && ChargeOf(e.charge.value, charges[id], n, ChargeSucceeded, true)
      && e.events == [ChargeEvent(ChargeCapturedEvent, e.charge.value), IntentEvent(IntentSucceeded, n)]
  {
  }

  /** Whatever number up to the authorized amount is asked for is captured, the whole of it included. */
  lemma CapturesUpToAuthorized(rs: seq<Request>, r: Request, n: real)
    requires ValidRun(rs) && r.Act? && r.action == Some(Capture) && (r.stateful || Run(rs).session.enabled)
    requires r.params.amountToCapture == Some(Num(n))
    requires r.id in Run(rs).session.intents && Run(rs).session.intents[r.id].status == RequiresCapture
    ensures var s := Run(rs).session;
      var p := s.intents[r.id];
      && p.latestCharge.Some? && p.latestCharge.value in s.charges
      && (s.charges[p.latestCharge.value].amount.Num? ==>
            var (t, answer) := Handle(s, r);
            if n <= s.charges[p.latestCharge.value].amount.n then
              && answer.Served? && answer.intent.status == Succeeded && answer.intent.amountReceived == Num(n)
              && t.charges[p.latestCharge.value].captured && t.charges[p.latestCharge.value].amountCaptured == Num(n)
            else answer == Refused(OverCapture))
  {
    var s := Run(rs).session;
    ReachableIntents(rs, r.id);
    ActionAnswers(s, r);
    if Handle(s, r).1.Served? {
      CaptureLeaves(rs, r);
    }
    hide Run, ValidRun, Handle;
  }

  /** What every served cancellation leaves, in every run: nothing to capture, and no Charge written. */
  lemma CancelLeaves(rs: seq<Request>, r: Request)
    requires ValidRun(rs) && r.Act? && r.action == Some(Cancel) && Handle(Run(rs).session, r).1.Served?
    ensures r.id in Run(rs).session.intents || r.gen.intentBase.Some?
    ensures var s := Run(rs).session;
      var (t, answer) := Handle(s, r);
      var p, q := Working(s, r), answer.intent;
      && p.status != Succeeded && p.status != Canceled
      && t.intents == s.intents[r.id := q] && t.charges == s.charges && t.events == s.events + [IntentEvent(IntentCanceled, q)]
      && q.status == Canceled && q.nextAction == None && q.amountCapturable == Num(0.0)
      && q.cancellationReason == (if Sent(r.params.cancellationReason) != "" then Str(Sent(r.params.cancellationReason))
                                  else p.cancellationReason)
      && q.id == p.id && q.amount == p.amount && q.currency == p.currency && q.customer == p.customer
      && q.captureMethod == p.captureMethod && q.paymentMethod == p.paymentMethod && q.clientSecret == p.clientSecret
      && q.details == p.details && q.lastPaymentError == p.lastPaymentError && q.latestCharge == p.latestCharge
      && q.amountReceived == p.amountReceived
  {
    var s := Run(rs).session;
    ServedEffects(s, r);
    ActionAnswers(s, r);
    hide Run, ValidRun, Handle;
    CancelRecorded(ApplyCancel(Working(s, r), r.params), s.charges, r.gen);
  }

  lemma CancelRecorded(n: PaymentIntent, charges: map<string, Charge>, gen: Generated)
    requires n.status == Canceled
    ensures RecordTransition(n, charges, false, false, gen) == Effects(n, "", None, [IntentEvent(IntentCanceled, n)])
  {
  }
}
