/**
 * The request handlers as they run: intents and Charges are objects whose fields are set one by one, and
 * every read, write and event goes through the store. Each handler is proved to do what module Sessions says.
 */
module PaymentIntentServer {
  import opened Json
  import opened PaymentIntents
  import opened Sessions
  import opened StatefulStore

  /** A PaymentIntent being worked on. */
  class IntentDoc {
    var id: string
    var status: Status
    var amount: Json
    var currency: Json
    var customer: Json
    var captureMethod: Json
    var paymentMethod: Json
    var nextAction: Option<string>
    var lastPaymentError: Option<string>
    var latestCharge: Option<string>
    var amountCapturable: Json
    var amountReceived: Json
    var cancellationReason: Json
    var clientSecret: Json
    var details: map<string, Json>

    constructor (p: PaymentIntent)
      ensures Value() == p
    {
      id, status, amount, currency, customer := p.id, p.status, p.amount, p.currency, p.customer;
      captureMethod, paymentMethod, nextAction := p.captureMethod, p.paymentMethod, p.nextAction;
      lastPaymentError, latestCharge := p.lastPaymentError, p.latestCharge;
      amountCapturable, amountReceived := p.amountCapturable, p.amountReceived;
      cancellationReason, clientSecret, details := p.cancellationReason, p.clientSecret, p.details;
    }

    /** A copy of the object as it is now. */
    function Value(): PaymentIntent
      reads this
    {
      PaymentIntent(id, status, amount, currency, customer, captureMethod, paymentMethod, nextAction, lastPaymentError,
                    latestCharge, amountCapturable, amountReceived, cancellationReason, clientSecret, details)
    }

    method AttachPaymentMethod(params: Params, newId: string)
      modifies this
      ensures Value() == PaymentIntents.AttachPaymentMethod(old(Value()), params, newId)
    {
      var pm := GetParam(params.paymentMethod);
      if pm != "" {
        paymentMethod := Str(pm);
        return;
      }
      if params.paymentMethodData.Some? && GetString(paymentMethod) == "" {
        paymentMethod := Str(newId);
      }
    }

    method CopyParams(params: Params)
      modifies this
      ensures Value() == PaymentIntents.CopyParams(old(Value()), params)
    {
      if params.amount.Some? { amount := params.amount.value; }
      if params.currency.Some? { currency := params.currency.value; }
      if params.customer.Some? { customer := params.customer.value; }
      if params.captureMethod.Some? { captureMethod := params.captureMethod.value; }
      if params.paymentMethod.Some? { paymentMethod := params.paymentMethod.value; }
      details := details + params.details;
    }

    method ResetLifecycleFields()
      modifies this
      ensures Value() == ResetLifecycle(old(Value()))
    {
      nextAction := None;
      lastPaymentError := None;
      latestCharge := None;
      amountReceived := Num(0.0);
      amountCapturable := Num(0.0);
    }

    method ApplyConfirm(params: Params, newId: string)
      modifies this
      ensures Value() == PaymentIntents.ApplyConfirm(old(Value()), params, newId)
    {
      hide OutcomeForPaymentMethod;
      AttachPaymentMethod(params, newId);
      match OutcomeForPaymentMethod(GetString(paymentMethod)) {
        case OutcomeRequiresAction =>
          status := RequiresAction;
          lastPaymentError := None;
          nextAction := Some("use_stripe_sdk");
        case OutcomeDecline =>
          status := RequiresPaymentMethod;
          nextAction := None;
          lastPaymentError := Some("card_declined");
        case OutcomeSucceed =>
          Settle(params);
      }
    }

    method Settle(params: Params)
      modifies this
      ensures Value() == PaymentIntents.Settle(old(Value()), params)
    {
      nextAction := None;
      lastPaymentError := None;
      var method' := GetString(captureMethod);
      if GetParam(params.captureMethod) != "" {
        method' := GetParam(params.captureMethod);
      }
      if method' == "manual" {
        status := RequiresCapture;
        amountCapturable := amount;
        return;
      }
      status := Succeeded;
      amountReceived := amount;
    }

    method ApplyCapture(params: Params)
      modifies this
      ensures Value() == PaymentIntents.ApplyCapture(old(Value()), params)
    {
      status := Succeeded;
      nextAction := None;
      amountCapturable := Num(0.0);
      if params.amountToCapture.Some? {
        amountReceived := params.amountToCapture.value;
      } else {
        amountReceived := amount;
      }
    }

    method ApplyCancel(params: Params)
      modifies this
      ensures Value() == PaymentIntents.ApplyCancel(old(Value()), params)
    {
      status := Canceled;
      nextAction := None;
      amountCapturable := Num(0.0);
      var reason := GetParam(params.cancellationReason);
      if reason != "" {
        cancellationReason := Str(reason);
      }
    }

    method ApplyUpdate(params: Params, newId: string)
      modifies this
      ensures Value() == PaymentIntents.ApplyUpdate(old(Value()), params, newId)
    {
      CopyParams(params);
      AttachPaymentMethod(params, newId);
      if status == RequiresPaymentMethod && GetString(paymentMethod) != "" {
        status := RequiresConfirmation;
      }
    }
  }

  /** A Charge being worked on. */
  class ChargeDoc {
    var c: Charge

    constructor (charge: Charge)
      ensures c == charge
    {
      c := charge;
    }

    method Fill(pi: IntentDoc, status: ChargeStatus, captured: bool)
      modifies this
      ensures c == FillCharge(old(c), pi.Value(), status, captured)
    {
      FillFrom(pi);
      c := c.(status := status);
      c := c.(captured := captured);
      c := c.(paid := status == ChargeSucceeded);
      if captured {
        c := c.(amountCaptured := pi.amountReceived);
      } else {
        c := c.(amountCaptured := Num(0.0));
      }
    }

    /** What the Charge takes over from its intent. */
    method FillFrom(pi: IntentDoc)
      modifies this
      ensures var p, d := pi.Value(), old(c);
        c == d.(amount := p.amount, currency := p.currency, paymentIntent := p.id,
                customer := if p.customer != Null then p.customer else d.customer,
                paymentMethod := if p.paymentMethod != Null then p.paymentMethod else d.paymentMethod)
    {
      c := c.(amount := pi.amount);
      c := c.(currency := pi.currency);
      c := c.(paymentIntent := pi.id);
      if pi.customer != Null {
        c := c.(customer := pi.customer);
      }
      if pi.paymentMethod != Null {
        c := c.(paymentMethod := pi.paymentMethod);
      }
    }
  }

  ghost function SessionIn(v: View, session: string): Session {
    if session in v then v[session] else EMPTY_SESSION
  }

  /** From `v` to `w`, only `session` changes, to `s`. */
  ghost predicate Changed(v: View, w: View, session: string, s: Session) {
    && SessionIn(w, session) == s
    && forall k | k != session :: At(w, k) == At(v, k)
  }

  lemma PutChanges(v: View, session: string, id: string, c: Charge)
    ensures var s := SessionIn(v, session);
      Changed(v, Exec(v, session, StoreCharge(id, c)).0, session, s.(charges := s.charges[id := c]))
  {
  }

  lemma GetFinds(v: View, session: string, id: string)
    ensures var s := SessionIn(v, session);
      Exec(v, session, GetCharge(id)).1 == FoundCharge(if id in s.charges then Some(s.charges[id]) else None)
  {
  }

  /** The Charge of a transition, and what the intent then points to. */
  lemma ChargeCases(p: PaymentIntent, charges: map<string, Charge>, status: ChargeStatus, captured: bool, gen: Generated,
                    before: seq<Event>, ck: EventType, ik: EventType)
    ensures var e, live := WithCharge(p, charges, status, captured, gen, before, ck, ik), LiveCharge(p, charges);
      var base := if gen.chargeBase.Some? then gen.chargeBase.value else EMPTY_CHARGE;
      var q := p.(latestCharge := Some(gen.chargeId));
      && e.charge.Some?
      && PutCharge(charges, e) == charges[e.chargeId := e.charge.value]
      && e.events == before + [ChargeEvent(ck, e.charge.value), IntentEvent(ik, e.intent)]
      && match live
         case Some(c) =>
           p.latestCharge == Some(e.chargeId) && e.charge.value == FillCharge(c, p, status, captured) && e.intent == p
         case None =>
           e.chargeId == gen.chargeId && e.intent == q
           && e.charge.value == FillCharge(base.(id := gen.chargeId), q, status, captured)
  {
  }

  /** What a request writes: nothing if the session is not simulated. */
  ghost function WritesIn(s: Session, r: Request): seq<Op> {
    if (r.Create? || r.Act?) && OptIn(s, r.stateful).enabled then RequestWrites(OptIn(s, r.stateful), r) else []
  }

  lemma WritesCases(s: Session, r: Request)
    ensures match r
      case Create(stateful, params, gen) =>
        WritesIn(s, r) == if OptIn(s, stateful).enabled then RequestWrites(OptIn(s, stateful), Create(true, params, gen)) else []
      case Act(stateful, id, action, params, gen) =>
        WritesIn(s, r) == if OptIn(s, stateful).enabled && action.Some? then
                            RequestWrites(OptIn(s, stateful), Act(true, id, action, params, gen))
                          else []
      case _ => WritesIn(s, r) == []
  {
    hide Writes, CreatedId, CreateEffects, Decide;
  }

  /** The writes of a transition with a Charge: the Charge, its event, and the intent's event. */
  lemma ChargeRecording(p: PaymentIntent, charges: map<string, Charge>, status: ChargeStatus, captured: bool, gen: Generated,
                        ck: EventType, ik: EventType)
    ensures var e := WithCharge(p, charges, status, captured, gen, [], ck, ik);
      && e.charge.Some?
      && e.events == [ChargeEvent(ck, e.charge.value), IntentEvent(ik, e.intent)]
      && Recording(e, false) == [StoreCharge(e.chargeId, e.charge.value)]
                                + [Enqueue(ChargeEvent(ck, e.charge.value)), Enqueue(IntentEvent(ik, e.intent))]
  {
    hide FillCharge, LiveCharge;
  }

  /** A creation writes its event, and then what any other transition to its status writes. */
  lemma CreationRecording(p: PaymentIntent, charges: map<string, Charge>, wasAuthorized: bool, gen: Generated)
    ensures Recording(PaymentIntents.RecordTransition(p, charges, true, wasAuthorized, gen), true) ==
            [Enqueue(IntentEvent(IntentCreated, p))] + Recording(PaymentIntents.RecordTransition(p, charges, false, wasAuthorized, gen), false)
  {
    hide WithCharge, Recording;
    var e := PaymentIntents.RecordTransition(p, charges, true, wasAuthorized, gen);
    var f := PaymentIntents.RecordTransition(p, charges, false, wasAuthorized, gen);
    var head := IntentEvent(IntentCreated, p);
    HeadOfCharge(p, charges, ChargeSucceeded, true, gen, head, if wasAuthorized then ChargeCapturedEvent else ChargeSucceededEvent,
                 IntentSucceeded);
    HeadOfCharge(p, charges, ChargeSucceeded, false, gen, head, ChargeSucceededEvent, IntentAmountCapturableUpdated);
    HeadOfCharge(p, charges, ChargeFailed, false, gen, head, ChargeFailedEvent, IntentPaymentFailed);
    HeadRecording(e, f, head);
  }

  lemma HeadOfCharge(p: PaymentIntent, charges: map<string, Charge>, status: ChargeStatus, captured: bool, gen: Generated,
                     head: Event, ck: EventType, ik: EventType)
    ensures var e := WithCharge(p, charges, status, captured, gen, [head], ck, ik);
      var f := WithCharge(p, charges, status, captured, gen, [], ck, ik);
      e.charge == f.charge && e.chargeId == f.chargeId && e.events == [head] + f.events
  {
    hide FillCharge, LiveCharge;
  }

  lemma HeadRecording(e: Effects, f: Effects, head: Event)
    requires e.charge == f.charge && (e.charge.Some? ==> e.chargeId == f.chargeId) && e.events == [head] + f.events
    ensures Recording(e, true) == [Enqueue(head)] + Recording(f, false)
  {
    assert e.events[..1] == [head] && e.events[1..] == f.events;
    assert f.events[..0] == [] && f.events[0..] == f.events;
  }

  /** The writes that go with a status. */
  lemma StatusRecording(p: PaymentIntent, charges: map<string, Charge>, wasAuthorized: bool, gen: Generated)
    ensures var ops := Recording(PaymentIntents.RecordTransition(p, charges, false, wasAuthorized, gen), false);
      match p.status
      case RequiresAction => ops == [Enqueue(IntentEvent(IntentRequiresAction, p))]
      case Processing => ops == [Enqueue(IntentEvent(IntentProcessing, p))]
      case Canceled => ops == [Enqueue(IntentEvent(IntentCanceled, p))]
      case RequiresConfirmation => ops == []
      case Succeeded =>
        ops == Recording(WithCharge(p, charges, ChargeSucceeded, true, gen, [],
                                    if wasAuthorized then ChargeCapturedEvent else ChargeSucceededEvent, IntentSucceeded), false)
      case RequiresCapture =>
        ops == Recording(WithCharge(p, charges, ChargeSucceeded, false, gen, [], ChargeSucceededEvent,
                                    IntentAmountCapturableUpdated), false)
      case RequiresPaymentMethod =>
        ops == if p.lastPaymentError.Some? then
                 Recording(WithCharge(p, charges, ChargeFailed, false, gen, [], ChargeFailedEvent, IntentPaymentFailed), false)
               else []
  {
    hide WithCharge, Recording;
    var e := PaymentIntents.RecordTransition(p, charges, false, wasAuthorized, gen);
    if e.charge.None? {
      EventsRecording(e);
    }
  }

  lemma EventsRecording(e: Effects)
    requires e.charge.None?
    ensures e.events == [] ==> Recording(e, false) == []
    ensures |e.events| == 1 ==> Recording(e, false) == [Enqueue(e.events[0])]
  {
  }

  /** The writes from one log to the next. */
  ghost predicate Logged(before: seq<Written>, after: seq<Written>, session: string, ops: seq<Op>) {
    after == before + To(session, ops)
  }

  lemma LogsCompose(w: seq<Written>, u: seq<Written>, v: seq<Written>, session: string)
    ensures forall a, b | Logged(w, u, session, a) && Logged(u, v, session, b) :: Logged(w, v, session, a + b)
  {
    forall a, b | Logged(w, u, session, a) && Logged(u, v, session, b) ensures Logged(w, v, session, a + b) {
      assert To(session, a + b) == To(session, a) + To(session, b);
    }
  }

  lemma LogsOne(w: seq<Written>, session: string, op: Op)
    ensures Logged(w, w + [Written(session, op)], session, [op])
  {
  }

  lemma LogsNothing(w: seq<Written>, session: string)
    ensures Logged(w, w, session, [])
  {
  }

  class StubServer {
    const store: Store

    constructor (store: Store)
      ensures this.store == store
    {
      this.store := store;
    }

    method EnqueueIntentEvent(session: string, pi: IntentDoc, kind: EventType)
      requires store.Valid()
      modifies store, store.Repr()
      ensures store.Valid() && fresh(store.Repr() - old(store.Repr()))
      ensures var s := SessionIn(old(store.View()), session);
        Changed(old(store.View()), store.View(), session, s.(events := s.events + [IntentEvent(kind, pi.Value())]))
      ensures Logged(old(store.written), store.written, session, [Enqueue(IntentEvent(kind, pi.Value()))])
    {
      LogsOne(store.written, session, Enqueue(IntentEvent(kind, pi.Value())));
      store.EnqueueEvent(session, IntentEvent(kind, pi.Value()));
    }

    method EnqueueChargeEvent(session: string, charge: Charge, kind: EventType)
      requires store.Valid()
      modifies store, store.Repr()
      ensures store.Valid() && fresh(store.Repr() - old(store.Repr()))
      ensures var s := SessionIn(old(store.View()), session);
        Changed(old(store.View()), store.View(), session, s.(events := s.events + [ChargeEvent(kind, charge)]))
      ensures Logged(old(store.written), store.written, session, [Enqueue(ChargeEvent(kind, charge))])
    {
      LogsOne(store.written, session, Enqueue(ChargeEvent(kind, charge)));
      store.EnqueueEvent(session, ChargeEvent(kind, charge));
    }

    /** Creates or updates the Charge behind the intent and points the intent to it. */
    method EnsureChargeForPI(session: string, pi: IntentDoc, status: ChargeStatus, captured: bool, gen: Generated)
        returns (charge: Charge)
      requires store.Valid()
      modifies store, store.Repr(), pi
      ensures store.Valid() && fresh(store.Repr() - old(store.Repr()))
      ensures var s := SessionIn(old(store.View()), session);
        var e := WithCharge(old(pi.Value()), s.charges, status, captured, gen, [], ChargeSucceededEvent, IntentSucceeded);
        && Some(charge) == e.charge
        && pi.Value() == e.intent
        && Changed(old(store.View()), store.View(), session, s.(charges := PutCharge(s.charges, e)))
        && Logged(old(store.written), store.written, session, [StoreCharge(e.chargeId, charge)])
    {
      hide Logged, WithCharge, FillCharge, Exec, PutCharge, Store.View, Store.Valid, Changed;
      ghost var v, p := store.View(), pi.Value();
      ghost var s0 := SessionIn(v, session);
      ChargeCases(p, s0.charges, status, captured, gen, [], ChargeSucceededEvent, IntentSucceeded);
      var live := None;
      if pi.latestCharge.Some? && pi.latestCharge.value != "" {
        GetFinds(v, session, pi.latestCharge.value);
        var existing := store.GetChargeObject(session, pi.latestCharge.value);
        if existing.Some? && existing.value.status != ChargeFailed {
          live := existing;
        }
      }
      assert live == LiveCharge(p, s0.charges);
      var id, doc := StartCharge(pi, live, gen);
      doc.Fill(pi, status, captured);
      charge := doc.c;
      assert store.View() == v;
      PutChanges(v, session, id, charge);
      LogsOne(store.written, session, StoreCharge(id, charge));
      store.PutChargeObject(session, id, charge);
    }

    /** The live Charge, or a new one the intent is pointed to. */
    method StartCharge(pi: IntentDoc, live: Option<Charge>, gen: Generated) returns (id: string, doc: ChargeDoc)
      requires live.Some? ==> pi.latestCharge.Some?
      modifies pi
      ensures fresh(doc)
      ensures var base := if gen.chargeBase.Some? then gen.chargeBase.value else EMPTY_CHARGE;
        match live
        case Some(c) => doc.c == c && old(pi.latestCharge) == Some(id) && pi.Value() == old(pi.Value())
        case None => doc.c == base.(id := gen.chargeId) && id == gen.chargeId
                     && pi.Value() == old(pi.Value()).(latestCharge := Some(id))
    {
      if live.Some? {
        id := pi.latestCharge.value;
        doc := new ChargeDoc(live.value);
        return;
      }
      var base := if gen.chargeBase.Some? then gen.chargeBase.value else EMPTY_CHARGE;
      id := gen.chargeId;
      doc := new ChargeDoc(base.(id := id));
      pi.latestCharge := Some(id);
    }

    /** The Charge of a transition and the two events that go with it. */
    method RecordCharge(session: string, pi: IntentDoc, status: ChargeStatus, captured: bool, gen: Generated,
                        chargeKind: EventType, intentKind: EventType)
      requires store.Valid()
      modifies store, store.Repr(), pi
      ensures store.Valid() && fresh(store.Repr() - old(store.Repr()))
      ensures var s := SessionIn(old(store.View()), session);
        var e := WithCharge(old(pi.Value()), s.charges, status, captured, gen, [], chargeKind, intentKind);
        && pi.Value() == e.intent
        && Changed(old(store.View()), store.View(), session,
                   s.(charges := PutCharge(s.charges, e), events := s.events + e.events))
        && Logged(old(store.written), store.written, session, Recording(e, false))
    {
      hide WithCharge, Exec, PutCharge, Store.View, Store.Valid, Logged, Recording;
      ghost var v, p := store.View(), pi.Value();
      ghost var s0 := SessionIn(v, session);
      ChargeCases(p, s0.charges, status, captured, gen, [], chargeKind, intentKind);
      ChargeCases(p, s0.charges, status, captured, gen, [], ChargeSucceededEvent, IntentSucceeded);
      ghost var e := WithCharge(p, s0.charges, status, captured, gen, [], chargeKind, intentKind);
      ghost var w := store.written;
      var charge := EnsureChargeForPI(session, pi, status, captured, gen);
      ghost var w1 := store.written;
      EnqueueBoth(session, pi, charge, chargeKind, intentKind);
      LogsCompose(w, w1, store.written, session);
      ChargeRecording(p, s0.charges, status, captured, gen, chargeKind, intentKind);
    }

    /** The event of a Charge and then that of its intent. */
    method EnqueueBoth(session: string, pi: IntentDoc, charge: Charge, chargeKind: EventType, intentKind: EventType)
      requires store.Valid()
      modifies store, store.Repr()
      ensures store.Valid() && fresh(store.Repr() - old(store.Repr()))
      ensures var s, a, b := SessionIn(old(store.View()), session), ChargeEvent(chargeKind, charge), IntentEvent(intentKind, pi.Value());
        && Changed(old(store.View()), store.View(), session, s.(events := s.events + [a, b]))
        && Logged(old(store.written), store.written, session, [Enqueue(a), Enqueue(b)])
    {
      hide Logged, Store.View, Store.Valid;
      ghost var w, s0 := store.written, SessionIn(store.View(), session);
      EnqueueChargeEvent(session, charge, chargeKind);
      ghost var w1 := store.written;
      EnqueueIntentEvent(session, pi, intentKind);
      LogsCompose(w, w1, store.written, session);
      assert [Enqueue(ChargeEvent(chargeKind, charge))] + [Enqueue(IntentEvent(intentKind, pi.Value()))]
          == [Enqueue(ChargeEvent(chargeKind, charge)), Enqueue(IntentEvent(intentKind, pi.Value()))];
      assert s0.events + [ChargeEvent(chargeKind, charge)] + [IntentEvent(intentKind, pi.Value())]
          == s0.events + [ChargeEvent(chargeKind, charge), IntentEvent(intentKind, pi.Value())];
    }

    /** Queues the events, and stores the Charge, that go with the intent's status. */
    method RecordTransition(session: string, pi: IntentDoc, isCreate: bool, wasAuthorized: bool, gen: Generated)
      requires store.Valid()
      modifies store, store.Repr(), pi
      ensures store.Valid() && fresh(store.Repr() - old(store.Repr()))
      ensures var s := SessionIn(old(store.View()), session);
        var e := PaymentIntents.RecordTransition(old(pi.Value()), s.charges, isCreate, wasAuthorized, gen);
        && pi.Value() == e.intent
        && Changed(old(store.View()), store.View(), session,
                   s.(charges := PutCharge(s.charges, e), events := s.events + e.events))
        && Logged(old(store.written), store.written, session, Recording(e, isCreate))
    {
      hide WithCharge, Exec, Store.View, Store.Valid, PaymentIntents.RecordTransition, Logged, Recording;
      ghost var v, p := store.View(), pi.Value();
      ghost var s0 := SessionIn(v, session);
      RecordCases(p, s0, isCreate, wasAuthorized, gen);
      CreationRecording(p, s0.charges, wasAuthorized, gen);
      StatusRecording(p, s0.charges, wasAuthorized, gen);
      ghost var w := store.written;
      LogsNothing(w, session);
      if isCreate {
        EnqueueIntentEvent(session, pi, IntentCreated);
      }
      ghost var mid := store.written;
      LogsNothing(mid, session);
      match pi.status {
        case Succeeded =>
          RecordCharge(session, pi, ChargeSucceeded, true, gen,
                       if wasAuthorized then ChargeCapturedEvent else ChargeSucceededEvent, IntentSucceeded);
        case RequiresCapture =>
          RecordCharge(session, pi, ChargeSucceeded, false, gen, ChargeSucceededEvent, IntentAmountCapturableUpdated);
        case RequiresAction =>
          EnqueueIntentEvent(session, pi, IntentRequiresAction);
        case Processing =>
          EnqueueIntentEvent(session, pi, IntentProcessing);
        case RequiresPaymentMethod =>
          if pi.lastPaymentError.Some? {
            RecordCharge(session, pi, ChargeFailed, false, gen, ChargeFailedEvent, IntentPaymentFailed);
          }
        case Canceled =>
          EnqueueIntentEvent(session, pi, IntentCanceled);
        case RequiresConfirmation =>
      }
      LogsCompose(w, mid, store.written, session);
    }

    /** Creates an intent, confirms it if asked to, records that, and stores it. */
    method CreatePaymentIntent(session: string, params: Params, gen: Generated) returns (r: Response)
      requires store.Valid()
      modifies store, store.Repr()
      ensures store.Valid() && fresh(store.Repr() - old(store.Repr()))
      ensures var s := SessionIn(old(store.View()), session);
        && Changed(old(store.View()), store.View(), session, HandleCreate(s, params, gen).0)
        && r == HandleCreate(s, params, gen).1
        && Logged(old(store.written), store.written, session, RequestWrites(s, Create(true, params, gen)))
    {
      hide Logged, Recording, WithCharge, Exec, Store.View, Store.Valid, PaymentIntents.RecordTransition, PaymentIntents.ApplyConfirm, Changed,
        ConfirmHasPaymentMethod, PutCharge;
      ghost var v := store.View();
      ghost var s0 := SessionIn(v, session);
      SameChanges(v, session);
      LogsNothing(store.written, session);
      if BoolParam(params.confirm) && !ConfirmHasPaymentMethod(Null, params) {
        return Refused(MissingPaymentMethod);
      }
      if gen.intentBase.None? {
        return GeneratorFailed;
      }
      var pi := PrepareIntent(gen.intentBase.value, params, gen);
      assert store.View() == v;
      ghost var e := PaymentIntents.RecordTransition(pi.Value(), s0.charges, true, false, gen);
      var id := pi.id;
      RecordTransition(session, pi, true, false, gen);
      ghost var mid, w := store.View(), store.written;
      PutIntentChanges(store.View(), session, id, pi.Value());
      store.PutPaymentIntent(session, id, pi.Value());
      WriteChanges(v, mid, store.View(), session, s0, id, e);
      LogsOne(w, session, PutIntent(id, pi.Value()));
      LogsCompose(old(store.written), w, store.written, session);
      r := Served(pi.Value());
    }

    /** The new intent just before its creation is recorded. */
    method PrepareIntent(base: PaymentIntent, params: Params, gen: Generated) returns (pi: IntentDoc)
      ensures fresh(pi) && pi.Value() == NewIntent(base, params, gen) && pi.id == CreatedId(base, gen)
    {
      hide PaymentIntents.ApplyConfirm;
      KeepsId(base, params, gen);
      pi := new IntentDoc(base);
      pi.ResetLifecycleFields();
      pi.CopyParams(params);
      var id := pi.id;
      if id == "" {
        id := gen.intentId;
        pi.id := id;
      }
      pi.clientSecret := Str(id + "_secret_" + gen.secret);
      pi.AttachPaymentMethod(params, gen.paymentMethodId);
      if BoolParam(params.confirm) {
        pi.ApplyConfirm(params, gen.paymentMethodId);
      } else if GetString(pi.paymentMethod) != "" {
        pi.status := RequiresConfirmation;
      } else {
        pi.status := RequiresPaymentMethod;
      }
    }

    /** An action on an intent; the action lock is held from the read to the write. */
    method HandleAction(session: string, id: string, action: Action, params: Params, gen: Generated) returns (r: Response)
      requires store.Valid()
      modifies store, store.Repr()
      ensures store.Valid() && fresh(store.Repr() - old(store.Repr()))
      ensures var s := SessionIn(old(store.View()), session);
        && Changed(old(store.View()), store.View(), session, HandleAct(s, id, action, params, gen).0)
        && r == HandleAct(s, id, action, params, gen).1
        && Logged(old(store.written), store.written, session, RequestWrites(s, Act(true, id, Some(action), params, gen)))
    {
      hide Logged, Writes, Decided, Exec, Store.View, Store.Valid, Decide, Changed, Adopt, Write;
      ghost var v := store.View();
      ghost var s0 := SessionIn(v, session);
      SameChanges(v, session);
      LogsNothing(store.written, session);
      GetIntentFinds(v, session, id);
      var found := store.GetPaymentIntent(session, id);
      var pi := ReadIntent(found, id, gen);
      if pi == null {
        return GeneratorFailed;
      }
      assert store.View() == v && IntentFor(s0, id, gen) == Some(pi.Value());
      ghost var p := pi.Value();
      var refused := Transition(session, pi, action, params, gen);
      r := Conclude(session, id, pi, refused, v, old(store.written), p, action, params, gen);
    }

    /** The part of an action between its read and its write. */
    method Transition(session: string, pi: IntentDoc, action: Action, params: Params, gen: Generated)
        returns (refused: Option<Rejection>)
      requires store.Valid()
      modifies store, store.Repr(), pi
      ensures store.Valid() && fresh(store.Repr() - old(store.Repr()))
      ensures Decided(old(store.View()), store.View(), session, old(store.written), store.written, old(pi.Value()), pi.Value(),
                      action, params, gen, refused)
    {
      hide Decided, Store.View, Store.Valid;
      match action {
        case Confirm => refused := Confirm(session, pi, params, gen);
        case Capture => refused := Capture(session, pi, params, gen);
        case Cancel => refused := Cancel(session, pi, params, gen);
        case Update => refused := Update(session, pi, params, gen);
      }
    }

    /** Stores and serves the intent of an accepted action; `v`, `before` and `p` are from when it was read. */
    method Conclude(session: string, id: string, pi: IntentDoc, refused: Option<Rejection>, ghost v: View,
                    ghost before: seq<Written>, ghost p: PaymentIntent, ghost action: Action, ghost params: Params, ghost gen: Generated)
        returns (r: Response)
      requires store.Valid()
      requires Decided(v, store.View(), session, before, store.written, p, pi.Value(), action, params, gen, refused)
      modifies store, store.Repr()
      ensures store.Valid() && fresh(store.Repr() - old(store.Repr()))
      ensures var s := SessionIn(v, session);
        match Decide(p, s.charges, action, params, gen)
        case Rejected(reason) => r == Refused(reason) && store.View() == v && store.written == before
        case Accepted(e) =>
          && r == Served(e.intent)
          && Changed(v, store.View(), session, Write(s, id, e))
          && Logged(before, store.written, session, Writes(id, e, false))
    {
      hide Logged, Recording, Exec, Store.View, Store.Valid, Decide, Changed, PutCharge, Write;
      if refused.Some? {
        return Refused(refused.value);
      }
      ghost var s0 := SessionIn(v, session);
      ghost var mid, w := store.View(), store.written;
      PutIntentChanges(mid, session, id, pi.Value());
      store.PutPaymentIntent(session, id, pi.Value());
      WriteChanges(v, mid, store.View(), session, s0, id, Decide(p, s0.charges, action, params, gen).effects);
      LogsOne(w, session, PutIntent(id, pi.Value()));
      LogsCompose(before, w, store.written, session);
      r := Served(pi.Value());
    }

    /** What is left of the session and the intent when an action has been decided and recorded. */
    ghost predicate Decided(v: View, w: View, session: string, before: seq<Written>, after: seq<Written>, p: PaymentIntent,
                            q: PaymentIntent, action: Action, params: Params, gen: Generated, refused: Option<Rejection>)
    {
      var s := SessionIn(v, session);
      match Decide(p, s.charges, action, params, gen)
      case Rejected(reason) => refused == Some(reason) && w == v && after == before
      case Accepted(e) =>
        && refused == None && q == e.intent && Logged(before, after, session, Recording(e, false))
        && Changed(v, w, session, s.(charges := PutCharge(s.charges, e), events := s.events + e.events))
    }

    method Confirm(session: string, pi: IntentDoc, params: Params, gen: Generated) returns (refused: Option<Rejection>)
      requires store.Valid()
      modifies store, store.Repr(), pi
      ensures store.Valid() && fresh(store.Repr() - old(store.Repr()))
      ensures Decided(old(store.View()), store.View(), session, old(store.written), store.written, old(pi.Value()), pi.Value(),
                      Action.Confirm, params, gen, refused)
    {
      hide Logged, Recording, Exec, Store.View, Store.Valid, Changed, PutCharge, PaymentIntents.RecordTransition, PaymentIntents.ApplyConfirm,
        ConfirmHasPaymentMethod;
      if pi.status != RequiresConfirmation && pi.status != RequiresAction && pi.status != RequiresPaymentMethod {
        return Some(NotConfirmable(pi.status));
      }
      if !ConfirmHasPaymentMethod(pi.paymentMethod, params) {
        return Some(MissingPaymentMethod);
      }
      pi.ApplyConfirm(params, gen.paymentMethodId);
      assert store.View() == old(store.View());
      RecordTransition(session, pi, false, false, gen);
      refused := None;
    }

    method Capture(session: string, pi: IntentDoc, params: Params, gen: Generated) returns (refused: Option<Rejection>)
      requires store.Valid()
      modifies store, store.Repr(), pi
      ensures store.Valid() && fresh(store.Repr() - old(store.Repr()))
      ensures Decided(old(store.View()), store.View(), session, old(store.written), store.written, old(pi.Value()), pi.Value(),
                      Action.Capture, params, gen, refused)
    {
      hide Logged, Recording, Exec, Store.View, Store.Valid, Changed, PutCharge, PaymentIntents.RecordTransition, PaymentIntents.ApplyCapture, TooMuch;
      if pi.status != RequiresCapture {
        return Some(NotCapturable(pi.status));
      }
      if TooMuch(params.amountToCapture, pi.amountCapturable) {
        return Some(OverCapture);
      }
      pi.ApplyCapture(params);
      assert store.View() == old(store.View());
      RecordTransition(session, pi, false, true, gen);
      refused := None;
    }

    method Cancel(session: string, pi: IntentDoc, params: Params, gen: Generated) returns (refused: Option<Rejection>)
      requires store.Valid()
      modifies store, store.Repr(), pi
      ensures store.Valid() && fresh(store.Repr() - old(store.Repr()))
      ensures Decided(old(store.View()), store.View(), session, old(store.written), store.written, old(pi.Value()), pi.Value(),
                      Action.Cancel, params, gen, refused)
    {
      hide Logged, Recording, Exec, Store.View, Store.Valid, Changed, PutCharge, PaymentIntents.RecordTransition, PaymentIntents.ApplyCancel;
      if pi.status == Succeeded || pi.status == Canceled {
        return Some(NotCancelable(pi.status));
      }
      pi.ApplyCancel(params);
      assert store.View() == old(store.View());
      RecordTransition(session, pi, false, false, gen);
      refused := None;
    }

    method Update(session: string, pi: IntentDoc, params: Params, gen: Generated) returns (refused: Option<Rejection>)
      requires store.Valid()
      modifies pi
      ensures store.Valid() && store.Repr() == old(store.Repr())
      ensures Decided(old(store.View()), store.View(), session, old(store.written), store.written, old(pi.Value()), pi.Value(),
                      Action.Update, params, gen, refused)
    {
      hide Logged, Recording, Exec, Store.View, Store.Valid, Changed, PaymentIntents.ApplyUpdate;
      ghost var v := store.View();
      assert allocated(store.Repr());
      pi.ApplyUpdate(params, gen.paymentMethodId);
      assert store.View() == v;
      UpdateRecords(v, session, Effects(pi.Value(), "", None, []));
      EventsRecording(Effects(pi.Value(), "", None, []));
      LogsNothing(store.written, session);
      refused := None;
    }

    /** A copy of the stored intent, or a new base that takes over its id; null when there is none. */
    method ReadIntent(found: Option<PaymentIntent>, id: string, gen: Generated) returns (pi: IntentDoc?)
      ensures pi != null ==> fresh(pi)
      ensures match found
        case Some(p) => pi != null && pi.Value() == p
        case None =>
          if gen.intentBase.Some? then pi != null && pi.Value() == Adopt(gen.intentBase.value, id) else pi == null
    {
      if found.Some? {
        pi := new IntentDoc(found.value);
        return;
      }
      if gen.intentBase.None? {
        return null;
      }
      pi := new IntentDoc(gen.intentBase.value);
      pi.ResetLifecycleFields();
      pi.id := id;
      pi.status := RequiresConfirmation;
    }

    /** One request on a session, as module Sessions describes it. */
    method HandleRequest(session: string, request: Request) returns (r: Response)
      requires store.Valid()
      modifies store, store.Repr()
      ensures store.Valid() && fresh(store.Repr() - old(store.Repr()))
      ensures var s := SessionIn(old(store.View()), session);
        && Changed(old(store.View()), store.View(), session, Handle(s, request).0)
        && r == Handle(s, request).1
        && Logged(old(store.written), store.written, session, WritesIn(s, request))
    {
      hide Logged, WritesIn, RequestWrites, Exec, Store.View, Store.Valid, Changed, Sessions.HandleAct, Sessions.HandleCreate;
      ghost var v := store.View();
      SameChanges(v, session);
      LogsNothing(store.written, session);
      WritesCases(SessionIn(v, session), request);
      match request
      case Create(stateful, params, gen) =>
        var enabled := CheckEnabled(session, stateful);
        ChangesGive(v, store.View(), session);
        if !enabled {
          return Generic;
        }
        ghost var w := store.View();
        r := CreatePaymentIntent(session, params, gen);
        ChangesCompose(v, w, store.View(), session);
      case Act(stateful, id, action, params, gen) =>
        var enabled := CheckEnabled(session, stateful);
        ChangesGive(v, store.View(), session);
        if !enabled || action.None? {
          return Generic;
        }
        ghost var w := store.View();
        r := HandleAction(session, id, action.value, params, gen);
        ChangesCompose(v, w, store.View(), session);
      case Retrieve(stateful, id) =>
        var enabled := CheckEnabled(session, stateful);
        ChangesGive(v, store.View(), session);
        if !enabled {
          return Generic;
        }
        GetIntentFinds(store.View(), session, id);
        var found := store.GetPaymentIntent(session, id);
        r := if found.Some? then Served(found.value) else Generic;
      case Config(enabled) =>
        OtherChanges(v, session, enabled);
        store.SetStatefulEnabled(session, enabled);
        r := Acknowledged;
      case Drain =>
        OtherChanges(v, session, false);
        var events := store.Drain(session);
        r := Events(events);
      case Reset =>
        OtherChanges(v, session, false);
        store.Reset(session);
        r := Acknowledged;
    }

    /** Opts the session in if the request says so; whether the stateful layer is on for it. */
    method CheckEnabled(session: string, stateful: bool) returns (enabled: bool)
      requires store.Valid()
      modifies store, store.Repr()
      ensures store.Valid() && fresh(store.Repr() - old(store.Repr()))
      ensures var t := OptIn(SessionIn(old(store.View()), session), stateful);
        Changed(old(store.View()), store.View(), session, t) && enabled == t.enabled && store.written == old(store.written)
    {
      hide Exec, Store.View, Store.Valid, Changed;
      ghost var v := store.View();
      SameChanges(v, session);
      OtherChanges(v, session, true);
      if stateful {
        store.SetStatefulEnabled(session, true);
      }
      EnabledIn(store.View(), session);
      enabled := store.StatefulEnabled(session);
      ChangesGive(v, store.View(), session);
    }
  }

  lemma ChangesCompose(v: View, w: View, u: View, session: string)
    ensures forall s, t | Changed(v, w, session, s) && Changed(w, u, session, t) :: Changed(v, u, session, t)
    ensures forall s | Changed(v, w, session, s) :: SessionIn(w, session) == s
  {
  }

  lemma ChangesGive(v: View, w: View, session: string)
    ensures forall s | Changed(v, w, session, s) :: SessionIn(w, session) == s
  {
  }

  lemma EnabledIn(v: View, session: string)
    ensures Exec(v, session, IsEnabled).1 == Flag(SessionIn(v, session).enabled)
  {
  }

  lemma OtherChanges(v: View, session: string, enabled: bool)
    ensures var s := SessionIn(v, session);
      && Changed(v, Exec(v, session, SetEnabled(enabled)).0, session, s.(enabled := enabled))
      && Changed(v, Exec(v, session, DrainEvents).0, session, s.(events := []))
      && Exec(v, session, DrainEvents).1 == Batch(s.events)
      && Changed(v, Exec(v, session, ResetSession).0, session, EMPTY_SESSION)
  {
  }

  lemma SameChanges(v: View, session: string)
    ensures Changed(v, v, session, SessionIn(v, session))
  {
  }

  lemma UpdateRecords(v: View, session: string, e: Effects)
    requires e.charge == None && e.events == []
    ensures var s := SessionIn(v, session);
      Changed(v, v, session, s.(charges := PutCharge(s.charges, e), events := s.events + e.events))
  {
  }

  lemma GetIntentFinds(v: View, session: string, id: string)
    ensures var s := SessionIn(v, session);
      Exec(v, session, GetIntent(id)).1 == FoundIntent(if id in s.intents then Some(s.intents[id]) else None)
  {
  }

  lemma PutIntentChanges(v: View, session: string, id: string, p: PaymentIntent)
    ensures var s := SessionIn(v, session);
      Changed(v, Exec(v, session, PutIntent(id, p)).0, session, s.(intents := s.intents[id := p]))
  {
  }

  lemma WriteChanges(v: View, w: View, u: View, session: string, s: Session, id: string, e: Effects)
    requires s == SessionIn(v, session)
    requires Changed(v, w, session, s.(charges := PutCharge(s.charges, e), events := s.events + e.events))
    requires var t := SessionIn(w, session); Changed(w, u, session, t.(intents := t.intents[id := e.intent]))
    ensures Changed(v, u, session, Write(s, id, e))
  {
  }

  /** What recording a transition leaves in the session, one write after another. */
  lemma RecordCases(p: PaymentIntent, s: Session, isCreate: bool, wasAuthorized: bool, gen: Generated)
    ensures var e := PaymentIntents.RecordTransition(p, s.charges, isCreate, wasAuthorized, gen);
      var t := if isCreate then s.(events := s.events + [IntentEvent(IntentCreated, p)]) else s;
      var after := s.(charges := PutCharge(s.charges, e), events := s.events + e.events);
      match p.status
      case Succeeded =>
        Recorded(t, after, e, WithCharge(p, t.charges, ChargeSucceeded, true, gen, [],
                                         if wasAuthorized then ChargeCapturedEvent else ChargeSucceededEvent, IntentSucceeded))
      case RequiresCapture =>
        Recorded(t, after, e, WithCharge(p, t.charges, ChargeSucceeded, false, gen, [], ChargeSucceededEvent,
                                         IntentAmountCapturableUpdated))
      case RequiresPaymentMethod =>
        if p.lastPaymentError.Some? then
          Recorded(t, after, e, WithCharge(p, t.charges, ChargeFailed, false, gen, [], ChargeFailedEvent, IntentPaymentFailed))
        else after == t && e.intent == p
      case RequiresAction => after == t.(events := t.events + [IntentEvent(IntentRequiresAction, p)]) && e.intent == p
      case Processing => after == t.(events := t.events + [IntentEvent(IntentProcessing, p)]) && e.intent == p
      case Canceled => after == t.(events := t.events + [IntentEvent(IntentCanceled, p)]) && e.intent == p
      case RequiresConfirmation => after == t && e.intent == p
  {
    var before := if isCreate then [IntentEvent(IntentCreated, p)] else [];
    var e := PaymentIntents.RecordTransition(p, s.charges, isCreate, wasAuthorized, gen);
    BeforeFirst(p, s, before, ChargeSucceeded, true, gen,
                if wasAuthorized then ChargeCapturedEvent else ChargeSucceededEvent, IntentSucceeded);
    BeforeFirst(p, s, before, ChargeSucceeded, false, gen, ChargeSucceededEvent, IntentAmountCapturableUpdated);
    BeforeFirst(p, s, before, ChargeFailed, false, gen, ChargeFailedEvent, IntentPaymentFailed);
    hide WithCharge;
    var more := if e.events == before then [] else e.events[|before|..];
    assert s.events + [] == s.events && s.events + (before + more) == (s.events + before) + more;
  }

  lemma BeforeFirst(p: PaymentIntent, s: Session, before: seq<Event>, status: ChargeStatus, captured: bool, gen: Generated,
                    ck: EventType, ik: EventType)
    ensures var e := WithCharge(p, s.charges, status, captured, gen, before, ck, ik);
      var f := WithCharge(p, s.charges, status, captured, gen, [], ck, ik);
      e.intent == f.intent && PutCharge(s.charges, e) == PutCharge(s.charges, f)
      && e.events == before + f.events && s.events + e.events == (s.events + before) + f.events
  {
    hide FillCharge, LiveCharge;
    var f := WithCharge(p, s.charges, status, captured, gen, [], ck, ik);
    assert before + f.events == WithCharge(p, s.charges, status, captured, gen, before, ck, ik).events;
  }

  ghost predicate Recorded(t: Session, after: Session, e: Effects, f: Effects) {
    e.intent == f.intent && after == t.(charges := PutCharge(t.charges, f), events := t.events + f.events)
  }
}
