/** What a client sees of a session over a run: the switch, the drained events, and its own last answer. */
module SessionRuns {
  import opened Json
  import opened PaymentIntents
  import opened Sessions
  import opened Lifecycle
  import opened LifecycleTheorems
  import opened CaptureBound
  import opened Outcomes

  // The switch.

  /** Whether the last request that switched the session switched it on. */
  function SwitchedOn(rs: seq<Request>): bool {
    if rs == [] then false
    else
      var n := |rs| - 1;
      match rs[n]
      case Config(on) => on
      case Reset => false
      case Drain => SwitchedOn(rs[..n])
      case r => r.stateful || SwitchedOn(rs[..n])
  }

  lemma {:induction false} SwitchTells(rs: seq<Request>)
    ensures Run(rs).session.enabled == SwitchedOn(rs)
  {
    if rs != [] {
      SwitchTells(rs[..|rs| - 1]);
      StepSwitches(Run(rs[..|rs| - 1]), rs[|rs| - 1]);
    }
  }

  lemma StepSwitches(w: World, r: Request)
    ensures Step(w, r).session.enabled == match r
      case Config(on) => on
      case Reset => false
      case Drain => w.session.enabled
      case _ => r.stateful || w.session.enabled
  {
    hide CreateEffects, Decide;
  }

  /** A request on an intent falls through to the generic generator exactly if the session is off, or it is not one of its kinds. */
  lemma GenericExactly(rs: seq<Request>, r: Request)
    requires r.Create? || r.Act? || r.Retrieve?
    ensures var answer := Handle(Run(rs).session, r).1;
      answer == Generic <==>
        || !(r.stateful || SwitchedOn(rs))
        || (r.Act? && r.action.None?)
        || (r.Retrieve? && r.id !in Run(rs).session.intents)
    ensures Handle(Run(rs).session, r).1 == Generic ==>
      Handle(Run(rs).session, r).0 == Run(rs).session.(enabled := r.stateful || SwitchedOn(rs))
  {
    SwitchTells(rs);
    hide Run, SwitchedOn, CreateEffects, Decide;
  }

  // The events.

  /** The events the drains of a run have answered with since the last reset. */
  function Handed(rs: seq<Request>): seq<Event> {
    if rs == [] then []
    else
      var n := |rs| - 1;
      match rs[n]
      case Reset => []
      case Drain =>
        (match Handle(Run(rs[..n]).session, Drain).1 case Events(events) => Handed(rs[..n]) + events case _ => Handed(rs[..n]))
      case _ => Handed(rs[..n])
  }

  /** The drains hand out every event once, in order, and what they have not handed out is still queued. */
  lemma {:induction false} DrainsHandOut(rs: seq<Request>)
    ensures Handed(rs) == Run(rs).drained && Handed(rs) + Run(rs).session.events == Run(rs).Emitted()
  {
    if rs != [] {
      DrainsHandOut(rs[..|rs| - 1]);
      hide HandleCreate, HandleAct;
    }
  }

  // A client's own answer.

  /** A request that may change the intent `id`. */
  predicate Touches(r: Request, id: string) {
    r == Reset || Target(r) == Some(id)
  }

  lemma StepKeepsOther(w: World, r: Request, id: string)
    requires !Touches(r, id) && id in w.session.intents
    ensures id in Step(w, r).session.intents && Step(w, r).session.intents[id] == w.session.intents[id]
  {
    hide CreateEffects, Decide, CreatedId;
  }

  lemma {:induction false} RunKeepsOther(rs: seq<Request>, more: seq<Request>, id: string)
    requires id in Run(rs).session.intents && forall r | r in more :: !Touches(r, id)
    ensures id in Run(rs + more).session.intents && Run(rs + more).session.intents[id] == Run(rs).session.intents[id]
    decreases |more|
  {
    if more == [] {
      assert rs + more == rs;
    } else {
      var n := |more| - 1;
      var all := rs + more;
      assert all[..|all| - 1] == rs + more[..n] && all[|all| - 1] == more[n] && more[n] in more;
      assert forall r | r in more[..n] :: r in more;
      RunKeepsOther(rs, more[..n], id);
      StepKeepsOther(Run(rs + more[..n]), more[n], id);
      hide Step;
    }
  }

  /**
   * A client reads what it was answered: until the intent is acted on again or the session is reset, a retrieval
   * has the answer of the last request that was served on it.
   */
  lemma ReadsOwnAnswer(rs: seq<Request>, r: Request, more: seq<Request>, id: string)
    requires (r.Create? || r.Act?) && Target(r) == Some(id) && Handle(Run(rs).session, r).1.Served?
    requires forall q | q in more :: !Touches(q, id)
    ensures Handle(Run(rs + [r] + more).session, Retrieve(true, id)).1 == Handle(Run(rs).session, r).1
  {
    var start := rs + [r];
    assert start[..|start| - 1] == rs && start[|start| - 1] == r;
    ServedIsStored(Run(rs), r, id);
    hide Handle, Step;
    RunKeepsOther(start, more, id);
    Retrieves(Run(start + more).session, true, id);
  }

  lemma ServedIsStored(w: World, r: Request, id: string)
    requires (r.Create? || r.Act?) && Target(r) == Some(id) && Handle(w.session, r).1.Served?
    ensures var s := Step(w, r).session; id in s.intents && Handle(w.session, r).1 == Served(s.intents[id])
  {
    hide CreateEffects, Decide, CreatedId;
  }

  /** A retrieval has the stored intent, and changes no more than the switch. */
  lemma Retrieves(s: Session, stateful: bool, id: string)
    requires id in s.intents && (stateful || s.enabled)
    ensures Handle(s, Retrieve(stateful, id)) == (s.(enabled := true), Served(s.intents[id]))
  {
  }

  /** In a run, each request leaves the session as its handler does. */
  lemma StepIsHandle(w: World, r: Request)
    ensures Step(w, r).session == Handle(w.session, r).0
    ensures Handle(w.session, Reset) == (EMPTY_SESSION, Acknowledged) && EMPTY_SESSION == Session(map[], map[], [], false)
    ensures Handle(w.session, Drain) == (w.session.(events := []), Events(w.session.events))
  {
  }

  // Runs of a new session.

  function Declined(): Request {
    Create(true, NO_PARAMS.(amount := Some(Num(100.0)), confirm := Some(Str("true")),
                            paymentMethod := Some(Str("pm_card_chargeDeclined"))), Ids("ch_1"))
  }

  function Paid(): Request {
    Act(true, "pi_1", Some(Confirm), NO_PARAMS.(paymentMethod := Some(Str("pm_card_visa"))), Ids("ch_2"))
  }

  lemma OneByOne(a: Request, b: Request)
    requires FreshIds(EMPTY_SESSION, a) && FreshIds(Step(INITIAL, a).session, b)
    ensures Run([]) == INITIAL && Run([a]) == Step(INITIAL, a) && Run([a, b]) == Step(Run([a]), b)
    ensures ValidRun([]) && ValidRun([a]) && ValidRun([a, b])
  {
    hide Step, FreshIds;
    assert [a, b][..1] == [a] && [a][..0] == [] && [a, b][..0] == [];
    assert Run([a]) == Step(Run([]), a);
  }

  lemma DeclinedFirst()
    ensures FreshIds(EMPTY_SESSION, Declined()) && Handle(EMPTY_SESSION, Declined()).1.Served?
    ensures var s := Step(INITIAL, Declined()).session;
      && s.enabled && s.charges.Keys == {"ch_1"} && s.charges["ch_1"].status == ChargeFailed
      && s.intents.Keys == {"pi_1"} && s.intents["pi_1"].status == RequiresPaymentMethod
      && s.intents["pi_1"].lastPaymentError == Some("card_declined") && s.intents["pi_1"].amount == Num(100.0)
      && s.intents["pi_1"].captureMethod == Str("automatic")
      && Kinds(s.events) == [IntentCreated, ChargeFailedEvent, IntentPaymentFailed]
  {
    hide Run, ValidRun, Handle, ConfirmEnds, FromBase, Deciding, Manual, FreshIds, Kinds;
    var r := Declined();
    DeclinedDecides();
    CreationAnswers(EMPTY_SESSION, r);
    AtFirst();
    CreationLeaves([], r);
    var t, q := Step(INITIAL, r).session, Handle(EMPTY_SESSION, r).1.intent;
    DeclinedEnds(t, q);
    StepSwitches(INITIAL, r);
  }

  lemma AtFirst()
    ensures ValidRun([]) && Run([]) == INITIAL && INITIAL.session == EMPTY_SESSION
  {
  }

  lemma DeclinedDecides()
    ensures FreshIds(EMPTY_SESSION, Declined()) && Confirming(Declined().params) && HasMethod(Null, Declined().params)
    ensures NewId(BASE, Ids("ch_1")) == "pi_1"
    ensures Deciding(Copied(Declined().params, BASE.paymentMethod), Declined().params, "pm_1") == "pm_card_chargeDeclined"
  {
    assert BASE.id == "pi_1" != "";
  }

  lemma DeclinedEnds(t: Session, q: PaymentIntent)
    requires FromBase(BASE, Declined().params, Ids("ch_1"), q)
    requires exists n: Event, manual | n.kind == IntentCreated ::
      ConfirmEnds(EMPTY_SESSION, t, EMPTY_SESSION.events + [n], q, Ids("ch_1"), None, "pm_card_chargeDeclined", manual)
    ensures t.charges.Keys == {"ch_1"} && t.charges["ch_1"].status == ChargeFailed
    ensures q.status == RequiresPaymentMethod && q.lastPaymentError == Some("card_declined")
    ensures q.amount == Num(100.0) && q.captureMethod == Str("automatic")
    ensures Kinds(t.events) == [IntentCreated, ChargeFailedEvent, IntentPaymentFailed]
  {
    assert "pm_card_chargeDeclined" in DECLINING;
    var n: Event, manual :| n.kind == IntentCreated &&
      ConfirmEnds(EMPTY_SESSION, t, EMPTY_SESSION.events + [n], q, Ids("ch_1"), None, "pm_card_chargeDeclined", manual);
    var last := [ChargeEvent(ChargeFailedEvent, t.charges["ch_1"]), IntentEvent(IntentPaymentFailed, q)];
    hide Kinds;
    ThreeKinds(n, last[0], last[1]);
    assert t.events == [n, last[0], last[1]];
  }

  lemma ThreeKinds(a: Event, b: Event, c: Event)
    ensures Kinds([a, b, c]) == [a.kind, b.kind, c.kind]
  {
    KindsOfTwo(a, b);
    assert [a, b, c][..2] == [a, b];
  }

  /** A declined creation and then a confirm with another card: a failed Charge, a second one that is paid, and all events. */
  lemma DeclinedThenPaid()
    ensures ValidRun([Declined(), Paid()])
    ensures var s := Run([Declined(), Paid()]).session;
      && "pi_1" in s.intents && s.intents["pi_1"].status == Succeeded && s.intents["pi_1"].lastPaymentError == None
      && s.intents["pi_1"].amountReceived == Num(100.0) && s.intents["pi_1"].latestCharge == Some("ch_2")
      && s.charges.Keys == {"ch_1", "ch_2"} && s.charges["ch_1"].status == ChargeFailed
      && s.charges["ch_2"].status == ChargeSucceeded && s.charges["ch_2"].captured
      && Kinds(s.events) == [IntentCreated, ChargeFailedEvent, IntentPaymentFailed, ChargeSucceededEvent, IntentSucceeded]
  {
    hide Run, ValidRun, Handle, Step, ConfirmEnds, Deciding, Manual, TermsKept, Kinds;
    DeclinedFirst();
    OneByOne(Declined(), Paid());
    var s := Run([Declined()]).session;
    ActionAnswers(s, Paid());
    ConfirmLeaves([Declined()], Paid());
    ActsAs(Run([Declined()]), Paid());
    assert Kinds(s.events) == [IntentCreated, ChargeFailedEvent, IntentPaymentFailed];
    PaidDecides(s.intents["pi_1"].paymentMethod);
    PaidEnds(s, Run([Declined(), Paid()]).session, Handle(s, Paid()).1.intent, s.intents["pi_1"]);
  }

  lemma PaidDecides(pm: Json)
    ensures Deciding(pm, Paid().params, "pm_1") == "pm_card_visa" && !Manual(Str("automatic"), Paid().params)
  {
  }

  lemma PaidEnds(s: Session, t: Session, q: PaymentIntent, p: PaymentIntent)
    requires s.charges.Keys == {"ch_1"} && p.amount == Num(100.0) && TermsKept(p, q)
    requires ConfirmEnds(s, t, s.events, q, Ids("ch_2"), p.latestCharge, "pm_card_visa", false)
    ensures q.status == Succeeded && q.lastPaymentError == None && q.amountReceived == Num(100.0) && q.latestCharge == Some("ch_2")
    ensures t.charges.Keys == {"ch_1", "ch_2"} && t.charges["ch_1"] == s.charges["ch_1"]
    ensures t.charges["ch_2"].status == ChargeSucceeded && t.charges["ch_2"].captured
    ensures Kinds(t.events) == Kinds(s.events) + [ChargeSucceededEvent, IntentSucceeded]
  {
    assert "pm_card_visa" !in DECLINING && "pm_card_visa" !in AUTHENTICATING;
    var last := [ChargeEvent(ChargeSucceededEvent, t.charges["ch_2"]), IntentEvent(IntentSucceeded, q)];
    hide Kinds;
    KindsAppend(s.events, last);
    KindsOfTwo(last[0], last[1]);
  }

  lemma ActsAs(w: World, r: Request)
    requires r.Act?
    ensures Step(w, r).session == Handle(w.session, r).0
  {
  }

  /** The whole of an authorized 100 can be captured, and so can 60 of it, but not 101. */
  lemma CapturesOf(n: real)
    ensures var all := Act(true, "pi_1", Some(Capture), NO_PARAMS.(amountToCapture := Some(Num(n))), Ids("ch_2"));
      var (t, answer) := Handle(Run([AUTHORIZE]).session, all);
      if n <= 100.0 then answer.Served? && answer.intent.status == Succeeded && answer.intent.amountReceived == Num(n)
      else answer == Refused(OverCapture)
  {
    var r := Act(true, "pi_1", Some(Capture), NO_PARAMS.(amountToCapture := Some(Num(n))), Ids("ch_2"));
    RaisedAmountRun();
    assert ValidRun([AUTHORIZE]) by {
      assert [AUTHORIZE, RAISE, CAPTURE][..0] == [AUTHORIZE][..0] == [];
    }
    CapturesUpToAuthorized([AUTHORIZE], r, n);
    hide Run, ValidRun, Handle;
  }
}
