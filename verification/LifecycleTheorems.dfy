/** The promises of the stateful layer, for every unseeded run of requests on a session. */
module LifecycleTheorems {
  import opened Json
  import opened PaymentIntents
  import opened Sessions
  import opened Lifecycle

  /**
   * The events about one intent form a complete trace of the language, and the trace tells the status
   * the stored intent has. There are no events about an intent that is not stored.
   */
  lemma EventTrace(rs: seq<Request>, id: string) returns (t: Trace)
    requires ValidRun(rs)
    ensures var s := Run(rs).session;
      About(Run(rs).Emitted(), id) == Render(t) &&
      if id in s.intents then TellsStatus(t, s.intents[id].status) && ChargesCounted(t, s.charges, id) else t == BLANK
  {
    var traces := RunKeepsInv(rs);
    t := TraceOf(traces, id);
    if id !in Run(rs).session.intents {
      AboutNone(Run(rs).Emitted(), id);
      BlankRender();
    }
  }

  /** Every stored intent has its own id, fields that fit its status, and a Charge that agrees with it. */
  lemma ReachableIntents(rs: seq<Request>, id: string)
    requires ValidRun(rs) && id in Run(rs).session.intents
    ensures var s := Run(rs).session;
      s.intents[id].id == id && FieldsAgree(s.intents[id]) && ChargeAgrees(s.intents[id], s.charges)
  {
    var traces := RunKeepsInv(rs);
  }

  function Count(kinds: seq<EventType>, k: EventType): nat {
    if kinds == [] then 0
    else Count(kinds[..|kinds| - 1], k) + if kinds[|kinds| - 1] == k then 1 else 0
  }

  lemma {:induction false} CountAppend(a: seq<EventType>, b: seq<EventType>, k: EventType)
    ensures Count(a + b, k) == Count(a, k) + Count(b, k)
    decreases |b|
  {
    if b == [] {
      assert a + b == a;
    } else {
      var n := |b| - 1;
      var all := a + b;
      assert all[..|all| - 1] == a + b[..n] && all[|all| - 1] == b[n];
      CountAppend(a, b[..n], k);
    }
  }

  lemma CountShort(a: EventType, b: EventType, k: EventType)
    ensures Count([], k) == 0
    ensures Count([a], k) == if a == k then 1 else 0
    ensures Count([a, b], k) == (if a == k then 1 else 0) + (if b == k then 1 else 0)
  {
    hide Count;
    assert [a][..0] == [] && [a, b][..1] == [a];
    CountStep([], k);
    CountStep([a], k);
    CountStep([a, b], k);
  }

  lemma CountStep(kinds: seq<EventType>, k: EventType)
    ensures kinds == [] ==> Count(kinds, k) == 0
    ensures kinds != [] ==> Count(kinds, k) == Count(kinds[..|kinds| - 1], k) + if kinds[|kinds| - 1] == k then 1 else 0
  {
  }

  lemma {:induction false} CountAttempts(attempts: seq<Attempt>)
    ensures Count(RenderAttempts(attempts), ChargeFailedEvent) == Declines(attempts)
    ensures Count(RenderAttempts(attempts), ChargeSucceededEvent) == 0
    ensures Count(RenderAttempts(attempts), ChargeCapturedEvent) == 0
  {
    if attempts != [] {
      var n := |attempts| - 1;
      CountAttempts(attempts[..n]);
      var last := match attempts[n] case ActionRequired => [IntentRequiresAction]
                                    case Declined => [ChargeFailedEvent, IntentPaymentFailed];
      forall k | k == ChargeFailedEvent || k == ChargeSucceededEvent || k == ChargeCapturedEvent
        ensures Count(RenderAttempts(attempts), k) == Count(RenderAttempts(attempts[..n]), k) + Count(last, k)
      {
        CountAppend(RenderAttempts(attempts[..n]), last, k);
      }
      CountLast(attempts[n], ChargeFailedEvent);
      CountLast(attempts[n], ChargeSucceededEvent);
      CountLast(attempts[n], ChargeCapturedEvent);
    }
  }

  lemma CountLast(a: Attempt, k: EventType)
    ensures var last := match a case ActionRequired => [IntentRequiresAction] case Declined => [ChargeFailedEvent, IntentPaymentFailed];
      && (k == ChargeFailedEvent ==> Count(last, k) == if a == Declined then 1 else 0)
      && (k == ChargeSucceededEvent || k == ChargeCapturedEvent ==> Count(last, k) == 0)
  {
    CountShort(IntentRequiresAction, IntentRequiresAction, k);
    CountShort(ChargeFailedEvent, IntentPaymentFailed, k);
  }

  lemma CountEnding(e: Ending, k: EventType)
    ensures k == ChargeFailedEvent ==> Count(RenderEnding(e), k) == 0
    ensures k == ChargeSucceededEvent ==> Count(RenderEnding(e), k) == if e.SettledAtOnce? || e.Authorized? then 1 else 0
    ensures k == ChargeCapturedEvent ==> Count(RenderEnding(e), k) == if e == Authorized(CaptureDone) then 1 else 0
  {
    CountShort(IntentCanceled, IntentCanceled, k);
    CountShort(ChargeSucceededEvent, IntentSucceeded, k);
    CountShort(ChargeSucceededEvent, IntentAmountCapturableUpdated, k);
    CountShort(ChargeCapturedEvent, IntentSucceeded, k);
    if e.Authorized? {
      var tail := match e.after case StillHeld => [] case CaptureDone => [ChargeCapturedEvent, IntentSucceeded]
                                case Released => [IntentCanceled];
      CountAppend([ChargeSucceededEvent, IntentAmountCapturableUpdated], tail, k);
    }
  }

  lemma CountRender(t: Trace)
    ensures Count(Render(t), ChargeFailedEvent) == Declines(t.attempts)
    ensures Count(Render(t), ChargeSucceededEvent) == Settlements(t)
    ensures Count(Render(t), ChargeCapturedEvent) == if t.ending == Authorized(CaptureDone) then 1 else 0
  {
    CountAttempts(t.attempts);
    forall k | k == ChargeFailedEvent || k == ChargeSucceededEvent || k == ChargeCapturedEvent
      ensures Count(Render(t), k) == Count(RenderAttempts(t.attempts), k) + Count(RenderEnding(t.ending), k)
    {
      var head := if t.created then [IntentCreated] else [];
      CountShort(IntentCreated, IntentCreated, k);
      CountAppend(head, RenderAttempts(t.attempts), k);
      CountAppend(head + RenderAttempts(t.attempts), RenderEnding(t.ending), k);
      CountEnding(t.ending, k);
    }
    CountEnding(t.ending, ChargeFailedEvent);
    CountEnding(t.ending, ChargeSucceededEvent);
    CountEnding(t.ending, ChargeCapturedEvent);
  }

  /**
   * Charges are accounted for by events: each declined confirm left a failed Charge, at most one confirm
   * settled and left a succeeded one, a capture reuses it, and at most one capture succeeds.
   */
  lemma ChargesAccounted(rs: seq<Request>, id: string)
    requires ValidRun(rs)
    ensures var about, charges := About(Run(rs).Emitted(), id), Run(rs).session.charges;
      && |ChargesOf(charges, id, ChargeFailed)| == Count(about, ChargeFailedEvent)
      && |ChargesOf(charges, id, ChargeSucceeded)| == Count(about, ChargeSucceededEvent) <= 1
      && |ChargesOf(charges, id, ChargeOther)| == 0
      && Count(about, ChargeCapturedEvent) <= Count(about, ChargeSucceededEvent)
  {
    var traces := RunKeepsInv(rs);
    var t := EventTrace(rs, id);
    CountRender(t);
    if id !in Run(rs).session.intents {
      NoCharges(Run(rs).session.charges, id);
    }
  }

  // What later requests cannot change.

  predicate Final(s: Status) {
    s == Succeeded || s == Canceled
  }

  /** A Charge no later request writes to: failed, or captured. */
  predicate Closed(c: Charge) {
    c.status == ChargeFailed || c.captured
  }

  /** A step without a reset keeps every final intent's outcome and every closed Charge. */
  lemma StepKeepsFinal(w: World, traces: map<string, Trace>, r: Request, id: string)
    requires Inv(w, traces) && FreshIds(w.session, r) && r != Reset
    requires id in w.session.intents && Final(w.session.intents[id].status)
    ensures var s := Step(w, r).session;
      id in s.intents && SameOutcome(w.session.intents[id], s.intents[id])
  {
    hide Decide, CreateEffects, Moves, Core, About, Render, CreatedId, Adopt, SameOutcome;
    var p := w.session.intents[id];
    assert SameOutcome(p, p) by { SameOutcomeReflexive(p); }
    match r
    case Create(_, params, gen) =>
    case Act(_, other, action, params, gen) =>
      if other == id && action.Some? {
        DecideKeepsFinal(p, w.session.charges, action.value, params, gen);
      }
    case _ =>
  }

  lemma SameOutcomeReflexive(p: PaymentIntent)
    ensures SameOutcome(p, p)
  {
  }

  /** Only an update is accepted in a final status, and it leaves the outcome alone. */
  lemma DecideKeepsFinal(p: PaymentIntent, charges: map<string, Charge>, action: Action, params: Params, gen: Generated)
    requires Final(p.status)
    ensures var d := Decide(p, charges, action, params, gen);
      (d.Accepted? <==> action == Update) && (d.Accepted? ==> SameOutcome(p, d.effects.intent))
  {
    hide RecordTransition, ApplyConfirm;
  }

  /** The parts of an intent its final status settles. */
  predicate SameOutcome(p: PaymentIntent, q: PaymentIntent) {
    && q.status == p.status
    && q.latestCharge == p.latestCharge
    && q.amountReceived == p.amountReceived
    && q.amountCapturable == p.amountCapturable
    && q.lastPaymentError == p.lastPaymentError
  }

  lemma StepKeepsClosed(w: World, traces: map<string, Trace>, r: Request, c: string)
    requires Inv(w, traces) && FreshIds(w.session, r) && r != Reset
    requires c in w.session.charges && Closed(w.session.charges[c])
    ensures var s := Step(w, r).session;
      c in s.charges && s.charges[c] == w.session.charges[c]
  {
    hide Decide, CreateEffects, Moves, Core, About, Render, CreatedId;
    var s := w.session;
    match r
    case Create(stateful, params, gen) =>
      if gen.intentBase.Some? {
        var base := gen.intentBase.value;
        var next := CreateMoves(base, s.charges, params, gen);
        MovesKeepClosed(CreatedId(base, gen), s.charges, BLANK, next, CreateEffects(base, s.charges, params, gen), c);
      }
    case Act(stateful, id, action, params, gen) =>
      if action.Some? {
        ActKeepsClosed(w, traces, id, action.value, params, gen, c);
      }
    case _ =>
  }

  lemma MovesKeepClosed(id: string, charges: map<string, Charge>, t: Trace, next: Trace, e: Effects, c: string)
    requires Moves(id, charges, t, next, e) && c in charges && Closed(charges[c])
    ensures c in PutCharge(charges, e) && PutCharge(charges, e)[c] == charges[c]
  {
  }

  lemma ActKeepsClosed(w: World, traces: map<string, Trace>, id: string, action: Action, params: Params, gen: Generated,
                       c: string)
    requires Inv(w, traces) && gen.chargeId != "" && gen.chargeId !in w.session.charges
    requires c in w.session.charges && Closed(w.session.charges[c])
    ensures var s := HandleAct(w.session, id, action, params, gen).0;
      c in s.charges && s.charges[c] == w.session.charges[c]
  {
    hide Decide, Moves, Core, About, Render;
    var s := w.session;
    var found := IntentFor(s, id, gen);
    if found.Some? {
      if id !in s.intents {
        AdoptedCore(gen.intentBase.value, id, s.charges);
      }
      var d := Decide(found.value, s.charges, action, params, gen);
      if d.Accepted? {
        var next := ActMoves(found.value, id, s.charges, TraceOf(traces, id), action, params, gen);
        MovesKeepClosed(id, s.charges, TraceOf(traces, id), next, d.effects, c);
      }
    }
  }

  predicate NoReset(rs: seq<Request>) {
    Reset !in rs
  }

  lemma ValidPrefix(rs: seq<Request>, more: seq<Request>)
    requires more != [] && ValidRun(rs + more)
    ensures var all, n := rs + more, |more| - 1;
      && all[..|all| - 1] == rs + more[..n] && all[|all| - 1] == more[n]
      && ValidRun(rs + more[..n]) && FreshIds(Run(rs + more[..n]).session, more[n])
      && Run(all) == Step(Run(rs + more[..n]), more[n])
  {
    var all, n := rs + more, |more| - 1;
    var front := rs + more[..n];
    assert all[..|all| - 1] == front && all[|all| - 1] == more[n];
    assert forall i | 0 <= i < |front| :: front[..i] == all[..i];
  }

  /** Until the session is reset, no run of requests takes back the outcome of a succeeded or canceled intent. */
  lemma {:induction false} FinalForever(rs: seq<Request>, more: seq<Request>, id: string)
    requires ValidRun(rs + more) && NoReset(more)
    requires id in Run(rs).session.intents && Final(Run(rs).session.intents[id].status)
    ensures var s := Run(rs + more).session;
      id in s.intents && SameOutcome(Run(rs).session.intents[id], s.intents[id])
    decreases |more|
  {
    if more == [] {
      assert rs + more == rs;
    } else {
      var n := |more| - 1;
      ValidPrefix(rs, more);
      FinalForever(rs, more[..n], id);
      var traces := RunKeepsInv(rs + more[..n]);
      StepKeepsFinal(Run(rs + more[..n]), traces, more[n], id);
    }
  }

  /** Until the session is reset, a failed or captured Charge is never written again. */
  lemma {:induction false} ClosedForever(rs: seq<Request>, more: seq<Request>, c: string)
    requires ValidRun(rs + more) && NoReset(more)
    requires c in Run(rs).session.charges && Closed(Run(rs).session.charges[c])
    ensures var s := Run(rs + more).session;
      c in s.charges && s.charges[c] == Run(rs).session.charges[c]
    decreases |more|
  {
    if more == [] {
      assert rs + more == rs;
    } else {
      var n := |more| - 1;
      ValidPrefix(rs, more);
      ClosedForever(rs, more[..n], c);
      var traces := RunKeepsInv(rs + more[..n]);
      StepKeepsClosed(Run(rs + more[..n]), traces, more[n], c);
    }
  }

  /** A refused request changes nothing but the opt-in of its session. */
  lemma RefusedChangesNothing(s: Session, r: Request)
    requires Handle(s, r).1.Refused?
    ensures var t := Handle(s, r).0;
      t.intents == s.intents && t.charges == s.charges && t.events == s.events
  {
    hide Decide, CreateEffects;
  }

  // Captures and the amount authorized at confirm.

  /** The amount the Charge was authorized for. */
  function AuthorizedAmount(s: Session, id: string): Json
    requires id in s.intents && s.intents[id].latestCharge.Some? && s.intents[id].latestCharge.value in s.charges
  {
    s.charges[s.intents[id].latestCharge.value].amount
  }

  /**
   * An accepted capture, with the amounts being numbers: an explicit amount never exceeds the authorized
   * one, and the amount received exceeds it exactly when none was given and the intent's own amount is
   * now larger.
   */
  lemma CaptureWithinAuthorization(rs: seq<Request>, id: string, params: Params, gen: Generated)
    requires ValidRun(rs) && id in Run(rs).session.intents
    requires var s := Run(rs).session;
      s.intents[id].status == RequiresCapture && Decide(s.intents[id], s.charges, Capture, params, gen).Accepted?
    ensures var s := Run(rs).session;
      var p, q := s.intents[id], Decide(s.intents[id], s.charges, Capture, params, gen).effects.intent;
      && p.latestCharge.Some? && p.latestCharge.value in s.charges
      && q.status == Succeeded
      && var authorized := AuthorizedAmount(s, id);
         authorized.Num? && p.amount.Num? && (params.amountToCapture.Some? ==> params.amountToCapture.value.Num?) ==>
           q.amountReceived.Num? &&
           (q.amountReceived.n <= authorized.n <==> params.amountToCapture.Some? || p.amount.n <= authorized.n)
  {
    ReachableIntents(rs, id);
    hide RecordTransition, About, Render, ChargesOf;
    var s := Run(rs).session;
    CaptureRecorded(ApplyCapture(s.intents[id], params), s.charges, gen);
  }

  lemma CaptureRecorded(q: PaymentIntent, charges: map<string, Charge>, gen: Generated)
    requires q.status == Succeeded
    ensures var e := RecordTransition(q, charges, false, true, gen);
      e.intent.status == q.status && e.intent.amountReceived == q.amountReceived
  {
    hide LiveCharge, FillCharge;
  }

  /** A request that may give the intent `id` another amount. */
  predicate SetsAmount(r: Request, id: string) {
    r.Act? && r.id == id && r.action == Some(Update) && r.params.amount.Some?
  }

  lemma StepKeepsAuthorization(w: World, traces: map<string, Trace>, r: Request, id: string)
    requires Inv(w, traces) && FreshIds(w.session, r) && r != Reset && !SetsAmount(r, id)
    requires id in w.session.intents && w.session.intents[id].status == RequiresCapture
    ensures var s := Step(w, r).session;
      && id in s.intents
      && (s.intents[id].status == RequiresCapture ==>
            && s.intents[id].amount == w.session.intents[id].amount
            && s.intents[id].amountCapturable == w.session.intents[id].amountCapturable)
      && (s.intents[id].status != RequiresCapture ==> Final(s.intents[id].status))
  {
    hide Decide, CreateEffects, Moves, Core, About, Render, CreatedId, Adopt;
    match r
    case Create(_, params, gen) =>
    case Act(_, other, action, params, gen) =>
      if other == id && action.Some? {
        DecideKeepsAuthorization(w.session.intents[id], w.session.charges, action.value, params, gen);
      }
    case _ =>
  }

  lemma DecideKeepsAuthorization(p: PaymentIntent, charges: map<string, Charge>, action: Action, params: Params,
                                 gen: Generated)
    requires p.status == RequiresCapture && (action == Update ==> params.amount.None?)
    ensures var d := Decide(p, charges, action, params, gen);
      d.Accepted? ==>
        var q := d.effects.intent;
        if action == Update then q.status == p.status && q.amount == p.amount && q.amountCapturable == p.amountCapturable
        else Final(q.status)
  {
    if action == Capture {
      CaptureRecorded(ApplyCapture(p, params), charges, gen);
      hide RecordTransition;
    }
  }

  /**
   * When no update changes the amount of an authorized intent, its amount stays the amount that was
   * authorized for as long as it can be captured.
   */
  lemma {:induction false} AuthorizationStands(rs: seq<Request>, more: seq<Request>, id: string)
    requires ValidRun(rs + more) && NoReset(more) && forall r | r in more :: !SetsAmount(r, id)
    requires id in Run(rs).session.intents && Run(rs).session.intents[id].status == RequiresCapture
    ensures var p, s := Run(rs).session.intents[id], Run(rs + more).session;
      && id in s.intents
      && (s.intents[id].status == RequiresCapture ==>
            s.intents[id].amount == p.amount && s.intents[id].amountCapturable == p.amountCapturable)
      && (s.intents[id].status != RequiresCapture ==> Final(s.intents[id].status))
    decreases |more|
  {
    if more == [] {
      assert rs + more == rs;
    } else {
      var n := |more| - 1;
      ValidPrefix(rs, more);
      assert more[n] in more && forall r | r in more[..n] :: r in more;
      AuthorizationStands(rs, more[..n], id);
      var w := Run(rs + more[..n]);
      var traces := RunKeepsInv(rs + more[..n]);
      if w.session.intents[id].status == RequiresCapture {
        StepKeepsAuthorization(w, traces, more[n], id);
      } else {
        StepKeepsFinal(w, traces, more[n], id);
      }
    }
  }

  /** A confirm that authorizes makes the whole amount capturable, and the Charge is for that amount. */
  lemma ConfirmAuthorizesAmount(p: PaymentIntent, charges: map<string, Charge>, params: Params, gen: Generated)
    requires Decide(p, charges, Confirm, params, gen).Accepted?
    ensures var e := Decide(p, charges, Confirm, params, gen).effects;
      e.intent.status == RequiresCapture ==>
        && e.intent.amount == p.amount == e.intent.amountCapturable
        && e.charge.Some? && e.charge.value.amount == p.amount
  {
    hide OutcomeForPaymentMethod, LiveCharge;
  }

  /** After an update has raised the amount, a capture without an explicit amount takes more than was authorized. */
  lemma RaisedAmountIsCaptured(p: PaymentIntent, charges: map<string, Charge>, update: Params, capture: Params, gen: Generated)
    requires p.status == RequiresCapture && p.amountCapturable == Num(100.0)
    requires update.amount == Some(Num(500.0)) && capture.amountToCapture == None
    ensures var q := ApplyUpdate(p, update, gen.paymentMethodId);
      && Decide(p, charges, Update, update, gen) == Accepted(Effects(q, "", None, []))
      && var d := Decide(q, charges, Capture, capture, gen);
         d.Accepted? && d.effects.intent.amountReceived == Num(500.0)
  {
    var q := ApplyUpdate(p, update, gen.paymentMethodId);
    CaptureRecorded(ApplyCapture(q, capture), charges, gen);
    hide RecordTransition;
  }
}
