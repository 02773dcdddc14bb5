/** How much a capture receives, over whole runs: from the request that authorizes to the one that captures. */
module CaptureBound {
  import opened Json
  import opened PaymentIntents
  import opened Sessions
  import opened Lifecycle
  import opened LifecycleTheorems

  /** A confirm, or a creation that confirms, that is served with the intent `p` authorized. */
  predicate Authorizes(s: Session, r: Request, id: string, p: PaymentIntent) {
    && (r.Create? || (r.Act? && r.action == Some(Confirm))) && Target(r) == Some(id)
    && Handle(s, r).1 == Served(p) && p.status == RequiresCapture
  }

  /** The intent that is served is stored, and the whole of its amount is capturable. */
  lemma AuthorizesWhole(s: Session, r: Request, id: string, p: PaymentIntent)
    requires Authorizes(s, r, id, p)
    ensures var t := Handle(s, r).0; id in t.intents && t.intents[id] == p && p.amountCapturable == p.amount
  {
    hide CreatedId, Prepared, Adopt;
    match r
    case Create(stateful, params, gen) =>
      var n := NewIntent(gen.intentBase.value, params, gen);
      RecordedStatus(n, s.charges, true, gen);
      ConfirmedAmounts(Prepared(gen.intentBase.value, params, gen), params, gen.paymentMethodId);
      hide RecordTransition, ApplyConfirm;
    case Act(stateful, _, action, params, gen) =>
      ConfirmAuthorizesAmount(IntentFor(s, id, gen).value, s.charges, params, gen);
      hide Decide;
  }

  lemma ConfirmedAmounts(p: PaymentIntent, params: Params, newId: string)
    ensures var q := ApplyConfirm(p, params, newId); q.status == RequiresCapture ==> q.amountCapturable == q.amount
  {
    hide OutcomeForPaymentMethod, GetString, GetParam;
  }

  /** Recording a transition changes nothing of the intent but its Charge. */
  lemma RecordedStatus(p: PaymentIntent, charges: map<string, Charge>, isCreate: bool, gen: Generated)
    ensures RecordTransition(p, charges, isCreate, false, gen).intent.(latestCharge := p.latestCharge) == p
  {
    hide LiveCharge, FillCharge;
  }

  lemma CaptureServed(s: Session, r: Request, id: string, q: PaymentIntent)
    requires r.Act? && r.id == id && r.action == Some(Capture) && id in s.intents && Handle(s, r).1 == Served(q)
    ensures s.intents[id].status == RequiresCapture && q.status == Succeeded
    ensures !TooMuch(r.params.amountToCapture, s.intents[id].amountCapturable)
    ensures q.amountReceived == Or(r.params.amountToCapture, s.intents[id].amount)
  {
    CaptureRecorded(ApplyCapture(s.intents[id], r.params), s.charges, r.gen);
    hide RecordTransition;
  }

  /**
   * From the request that authorizes an intent to the one that captures it, with no reset and no update of its
   * amount in between: a capture that names no amount receives exactly the amount that was authorized, and one
   * that names a number receives that number, which is not more.
   */
  lemma CapturedWithinAuthorized(rs: seq<Request>, authorize: Request, more: seq<Request>, capture: Request, id: string,
                                 p: PaymentIntent, q: PaymentIntent)
    requires ValidRun(rs + [authorize] + more) && NoReset(more) && forall r | r in more :: !SetsAmount(r, id)
    requires Authorizes(Run(rs).session, authorize, id, p)
    requires capture.Act? && capture.id == id && capture.action == Some(Capture)
    requires Handle(Run(rs + [authorize] + more).session, capture).1 == Served(q)
    ensures q.status == Succeeded
    ensures match capture.params.amountToCapture
      case None => q.amountReceived == p.amount
      case Some(n) => q.amountReceived == n && (n.Num? && p.amount.Num? ==> n.n <= p.amount.n)
  {
    hide Handle, SetsAmount, Authorizes, ValidRun;
    var start := rs + [authorize];
    assert start[..|start| - 1] == rs && start[|start| - 1] == authorize;
    AuthorizeStep(Run(rs), authorize, id, p);
    hide Step;
    AuthorizationStands(start, more, id);
    CaptureServed(Run(start + more).session, capture, id, q);
  }

  lemma AuthorizeStep(w: World, r: Request, id: string, p: PaymentIntent)
    requires Authorizes(w.session, r, id, p)
    ensures var t := Step(w, r).session; id in t.intents && t.intents[id] == p && p.amountCapturable == p.amount
    ensures p.status == RequiresCapture
  {
    AuthorizesWhole(w.session, r, id, p);
    hide Handle;
  }

  // The bound needs its condition: here the amount is raised between the two.

  const NO_PARAMS := Params(None, None, None, None, None, None, None, None, None, map[])

  const BASE := PaymentIntent("pi_1", RequiresPaymentMethod, Num(2000.0), Str("usd"), Null, Str("automatic"), Null, None, None,
                              None, Num(0.0), Num(0.0), Null, Null, map[])

  /** What the generator gives a request: the base above, and this Charge id. */
  function Ids(chargeId: string): Generated {
    Generated(Some(BASE), None, "pi_2", chargeId, "pm_1", "secret")
  }

  const AUTHORIZE := Create(true, NO_PARAMS.(amount := Some(Num(100.0)), captureMethod := Some(Str("manual")),
                                             paymentMethod := Some(Str("pm_card_visa")), confirm := Some(Bool(true))), Ids("ch_1"))

  const RAISE := Act(true, "pi_1", Some(Update), NO_PARAMS.(amount := Some(Num(500.0))), Ids("ch_2"))

  const CAPTURE := Act(true, "pi_1", Some(Capture), NO_PARAMS, Ids("ch_3"))

  /** The intent is authorized, and its Charge, the only one, is for 100. */
  predicate Held(s: Session, amount: Json) {
    && s.enabled && s.charges.Keys == {"ch_1"} && s.charges["ch_1"].amount == Num(100.0)
    && "pi_1" in s.intents && s.intents["pi_1"].status == RequiresCapture && s.intents["pi_1"].latestCharge == Some("ch_1")
    && s.intents["pi_1"].amountCapturable == Num(100.0) && s.intents["pi_1"].amount == amount
  }

  lemma AuthorizedRun()
    ensures Held(Step(INITIAL, AUTHORIZE).session, Num(100.0))
  {
    assert BASE.id == "pi_1" && "pi_1" != "";
    assert OutcomeForPaymentMethod("pm_card_visa") == OutcomeSucceed;
    hide OutcomeForPaymentMethod;
  }

  lemma RaisedRun(w: World)
    requires Held(w.session, Num(100.0))
    ensures Held(Step(w, RAISE).session, Num(500.0))
  {
    hide RecordTransition, ApplyConfirm;
  }

  /** A new session in which 100 is authorized, the amount is updated to 500, and a capture then receives 500. */
  lemma RaisedAmountRun()
    ensures ValidRun([AUTHORIZE, RAISE, CAPTURE])
    ensures var s := Run([AUTHORIZE]).session; Held(s, Num(100.0)) && AuthorizedAmount(s, "pi_1") == Num(100.0)
    ensures var r := Handle(Run([AUTHORIZE, RAISE]).session, CAPTURE).1;
      r.Served? && r.intent.status == Succeeded && r.intent.amountReceived == Num(500.0)
  {
    hide Handle, Step;
    assert [AUTHORIZE, RAISE, CAPTURE][..2] == [AUTHORIZE, RAISE] && [AUTHORIZE, RAISE][..1] == [AUTHORIZE]
      && [AUTHORIZE, RAISE, CAPTURE][..1] == [AUTHORIZE] && [AUTHORIZE][..0] == [];
    assert Run([AUTHORIZE]) == Step(INITIAL, AUTHORIZE);
    assert Run([AUTHORIZE, RAISE]) == Step(Run([AUTHORIZE]), RAISE);
    AuthorizedRun();
    RaisedRun(Run([AUTHORIZE]));
    CapturedWhole(Run([AUTHORIZE, RAISE]).session, Num(500.0));
  }

  lemma CapturedWhole(s: Session, amount: Json)
    requires Held(s, amount)
    ensures var r := Handle(s, CAPTURE).1; r.Served? && r.intent.status == Succeeded && r.intent.amountReceived == amount
  {
    CaptureRecorded(ApplyCapture(s.intents["pi_1"], CAPTURE.params), s.charges, CAPTURE.gen);
    hide RecordTransition;
  }
}
