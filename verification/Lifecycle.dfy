/** What holds of every run of requests on one session in which no state is seeded. */
module Lifecycle {
  import opened Json
  import opened PaymentIntents
  import opened Sessions

  /** A session together with the events drained from it since its last reset. */
  datatype World = World(session: Session, drained: seq<Event>) {
    /** Every event queued since the last reset, in order. */
    function Emitted(): seq<Event> {
      drained + session.events
    }
  }

  const INITIAL := World(EMPTY_SESSION, [])

  function Step(w: World, r: Request): World {
    var s := Handle(w.session, r).0;
    match r
    case Drain => World(s, w.drained + w.session.events)
    case Reset => INITIAL
    case _ => World(s, w.drained)
  }

  /** New ids are not empty and not in use. */
  predicate FreshIds(s: Session, r: Request) {
    match r
    case Create(_, _, gen) =>
      && gen.chargeId != "" && gen.chargeId !in s.charges
      && (gen.intentBase.Some? ==> CreatedId(gen.intentBase.value, gen) !in s.intents)
    case Act(_, _, _, _, gen) => gen.chargeId != "" && gen.chargeId !in s.charges
    case _ => true
  }

  function Run(rs: seq<Request>): World {
    if rs == [] then INITIAL else Step(Run(rs[..|rs| - 1]), rs[|rs| - 1])
  }

  predicate ValidRun(rs: seq<Request>) {
    forall i | 0 <= i < |rs| :: FreshIds(Run(rs[..i]).session, rs[i])
  }

  // The language of event traces.

  datatype Attempt = ActionRequired | Declined

  datatype Held = StillHeld | CaptureDone | Released

  datatype Ending = Open | CanceledOpen | SettledAtOnce | Authorized(after: Held)

  /** The life of one intent as its events tell it. */
  datatype Trace = Trace(created: bool, attempts: seq<Attempt>, ending: Ending)

  function RenderAttempts(attempts: seq<Attempt>): seq<EventType> {
    if attempts == [] then []
    else
      var n := |attempts| - 1;
      RenderAttempts(attempts[..n]) +
      match attempts[n]
      case ActionRequired => [IntentRequiresAction]
      case Declined => [ChargeFailedEvent, IntentPaymentFailed]
  }

  function RenderEnding(e: Ending): seq<EventType> {
    match e
    case Open => []
    case CanceledOpen => [IntentCanceled]
    case SettledAtOnce => [ChargeSucceededEvent, IntentSucceeded]
    case Authorized(after) =>
      [ChargeSucceededEvent, IntentAmountCapturableUpdated] +
      match after
      case StillHeld => []
      case CaptureDone => [ChargeCapturedEvent, IntentSucceeded]
      case Released => [IntentCanceled]
  }

  function Render(t: Trace): seq<EventType> {
    (if t.created then [IntentCreated] else []) + RenderAttempts(t.attempts) + RenderEnding(t.ending)
  }

  /** The status that goes with a trace; only an open intent can wait for two different things. */
  predicate TellsStatus(t: Trace, status: Status) {
    match t.ending
    case Open =>
      if t.attempts != [] && t.attempts[|t.attempts| - 1] == ActionRequired then status == RequiresAction
      else status == RequiresPaymentMethod || status == RequiresConfirmation
    case CanceledOpen => status == Canceled
    case SettledAtOnce => status == Succeeded
    case Authorized(StillHeld) => status == RequiresCapture
    case Authorized(CaptureDone) => status == Succeeded
    case Authorized(Released) => status == Canceled
  }

  function Declines(attempts: seq<Attempt>): nat {
    if attempts == [] then 0
    else
      var n := |attempts| - 1;
      Declines(attempts[..n]) + if attempts[n] == Declined then 1 else 0
  }

  function Settlements(t: Trace): nat {
    if t.ending.SettledAtOnce? || t.ending.Authorized? then 1 else 0
  }

  function Subject(e: Event): string {
    match e
    case IntentEvent(_, intent) => intent.id
    case ChargeEvent(_, charge) => charge.paymentIntent
  }

  /** The kinds of the events about one intent: its own and those of its Charges. */
  function About(events: seq<Event>, id: string): seq<EventType> {
    if events == [] then []
    else
      var n := |events| - 1;
      About(events[..n], id) + if Subject(events[n]) == id then [events[n].kind] else []
  }

  // The invariant of one intent.

  predicate Confirmable(s: Status) {
    s == RequiresPaymentMethod || s == RequiresConfirmation || s == RequiresAction
  }

  predicate FieldsAgree(p: PaymentIntent) {
    && (p.nextAction.Some? <==> p.status == RequiresAction)
    && (p.amountCapturable != Num(0.0) ==> p.status == RequiresCapture)
    && (p.amountReceived != Num(0.0) ==> p.status == Succeeded)
    && (p.lastPaymentError.Some? ==>
          p.status == RequiresPaymentMethod || p.status == RequiresConfirmation || p.status == Canceled)
  }

  /** The Charge an intent points to is stored, points back, and is in the state the intent's status implies. */
  predicate ChargeAgrees(p: PaymentIntent, charges: map<string, Charge>) {
    match p.latestCharge
    case None => Confirmable(p.status) || p.status == Canceled
    case Some(id) =>
      && id != "" && id in charges && charges[id].paymentIntent == p.id
      && var c := charges[id];
         match p.status
         case RequiresCapture =>
           c.status == ChargeSucceeded && !c.captured && c.amountCaptured == Num(0.0) && c.amount == p.amountCapturable
         case Succeeded => c.status == ChargeSucceeded && c.captured && c.amountCaptured == p.amountReceived
         case Canceled => !c.captured
         case Processing => false
         case _ => c.status == ChargeFailed && !c.captured
  }

  function ChargesOf(charges: map<string, Charge>, id: string, status: ChargeStatus): set<string> {
    set c | c in charges && charges[c].paymentIntent == id && charges[c].status == status
  }

  /** One failed Charge for each declined confirm, and one succeeded Charge for the settled one. */
  predicate ChargesCounted(t: Trace, charges: map<string, Charge>, id: string) {
    && |ChargesOf(charges, id, ChargeFailed)| == Declines(t.attempts)
    && |ChargesOf(charges, id, ChargeSucceeded)| == Settlements(t)
    && |ChargesOf(charges, id, ChargeOther)| == 0
  }

  predicate Core(p: PaymentIntent, id: string, charges: map<string, Charge>, t: Trace) {
    && p.id == id
    && FieldsAgree(p)
    && ChargeAgrees(p, charges)
    && TellsStatus(t, p.status)
    && ChargesCounted(t, charges, id)
  }

  ghost predicate Inv(w: World, traces: map<string, Trace>) {
    var s := w.session;
    && traces.Keys == s.intents.Keys
    && (forall id | id in s.intents :: Core(s.intents[id], id, s.charges, traces[id]))
    && (forall id | id in s.intents :: About(w.Emitted(), id) == Render(traces[id]))
    && (forall c | c in s.charges :: s.charges[c].id == c && s.charges[c].paymentIntent in s.intents)
    && (forall e | e in w.Emitted() :: Subject(e) in s.intents)
  }

  // Charges.

  lemma ChargesAdd(charges: map<string, Charge>, cid: string, c: Charge, id: string, st: ChargeStatus)
    requires cid !in charges
    ensures ChargesOf(charges[cid := c], id, st) ==
      ChargesOf(charges, id, st) + if c.paymentIntent == id && c.status == st then {cid} else {}
    ensures cid !in ChargesOf(charges, id, st)
  {
  }

  lemma ChargesReplace(charges: map<string, Charge>, cid: string, c: Charge, id: string, st: ChargeStatus)
    requires cid in charges && c.paymentIntent == charges[cid].paymentIntent && c.status == charges[cid].status
    ensures ChargesOf(charges[cid := c], id, st) == ChargesOf(charges, id, st)
  {
  }

  /** A new Charge of the intent `id` counts as one more attempt or as the settlement. */
  lemma CountNewCharge(t: Trace, next: Trace, charges: map<string, Charge>, cid: string, c: Charge, id: string)
    requires ChargesCounted(t, charges, id) && cid !in charges && c.paymentIntent == id
    requires c.status == ChargeFailed ==> Declines(next.attempts) == Declines(t.attempts) + 1 && Settlements(next) == Settlements(t)
    requires c.status == ChargeSucceeded ==> Declines(next.attempts) == Declines(t.attempts) && Settlements(next) == Settlements(t) + 1
    requires c.status != ChargeOther
    ensures ChargesCounted(next, charges[cid := c], id)
  {
    ChargesAdd(charges, cid, c, id, ChargeFailed);
    ChargesAdd(charges, cid, c, id, ChargeSucceeded);
    ChargesAdd(charges, cid, c, id, ChargeOther);
  }

  // Events.

  function Kinds(events: seq<Event>): seq<EventType> {
    if events == [] then [] else Kinds(events[..|events| - 1]) + [events[|events| - 1].kind]
  }

  lemma {:induction false} AboutAppend(events: seq<Event>, more: seq<Event>, id: string)
    requires forall e | e in more :: Subject(e) == id
    ensures About(events + more, id) == About(events, id) + Kinds(more)
    decreases |more|
  {
    hide About, Subject;
    if more == [] {
      assert events + more == events;
    } else {
      var n := |more| - 1;
      var all := events + more;
      assert more[n] in more && forall e | e in more[..n] :: e in more;
      assert all[..|all| - 1] == events + more[..n] && all[|all| - 1] == more[n];
      AboutAppend(events, more[..n], id);
      AboutLast(all, id);
    }
  }

  lemma AboutLast(events: seq<Event>, id: string)
    requires events != []
    ensures var n := |events| - 1;
      About(events, id) == About(events[..n], id) + if Subject(events[n]) == id then [events[n].kind] else []
  {
  }

  lemma {:induction false} AboutSkip(events: seq<Event>, more: seq<Event>, id: string)
    requires forall e | e in more :: Subject(e) != id
    ensures About(events + more, id) == About(events, id)
    decreases |more|
  {
    if more == [] {
      assert events + more == events;
    } else {
      var n := |more| - 1;
      var all := events + more;
      assert more[n] in more && forall e | e in more[..n] :: e in more;
      assert all[..|all| - 1] == events + more[..n] && all[|all| - 1] == more[n];
      AboutSkip(events, more[..n], id);
    }
  }

  lemma KindsOfTwo(a: Event, b: Event)
    ensures Kinds([a]) == [a.kind] && Kinds([a, b]) == [a.kind, b.kind]
  {
    assert [a][..0] == [] && [a, b][..1] == [a];
  }

  lemma {:induction false} AboutNone(events: seq<Event>, id: string)
    requires forall e | e in events :: Subject(e) != id
    ensures About(events, id) == []
  {
    if events != [] {
      var n := |events| - 1;
      assert events[n] in events && forall e | e in events[..n] :: e in events;
      AboutNone(events[..n], id);
    }
  }

  // One transition of one intent.

  /** What a transition of the intent `id` does, seen from that intent: its trace goes on with its events. */
  ghost predicate Moves(id: string, charges: map<string, Charge>, t: Trace, next: Trace, e: Effects) {
    && Core(e.intent, id, PutCharge(charges, e), next)
    && Render(next) == Render(t) + Kinds(e.events)
    && (forall v | v in e.events :: Subject(v) == id)
    && (e.charge.Some? ==>
          && e.charge.value.id == e.chargeId
          && e.charge.value.paymentIntent == id
          && (e.chargeId in charges ==>
                && charges[e.chargeId].paymentIntent == id
                && charges[e.chargeId].status == e.charge.value.status == ChargeSucceeded
                && !charges[e.chargeId].captured))
  }

  ghost predicate ChargeIds(charges: map<string, Charge>) {
    forall c | c in charges :: charges[c].id == c
  }

  /** A transition that needs a new Charge: the old one, if any, failed. */
  lemma NewCharge(q: PaymentIntent, id: string, charges: map<string, Charge>, t: Trace, next: Trace, st: ChargeStatus,
                  captured: bool, gen: Generated, ck: EventType, ik: EventType)
    requires q.id == id && ChargesCounted(t, charges, id) && LiveCharge(q, charges).None?
    requires gen.chargeId != "" && gen.chargeId !in charges
    requires st == ChargeFailed ==> Declines(next.attempts) == Declines(t.attempts) + 1 && Settlements(next) == Settlements(t)
    requires st == ChargeSucceeded ==> Declines(next.attempts) == Declines(t.attempts) && Settlements(next) == Settlements(t) + 1
    requires st != ChargeOther
    requires FieldsAgree(q) && TellsStatus(next, q.status)
    requires match q.status
      case RequiresCapture => st == ChargeSucceeded && !captured && q.amount == q.amountCapturable
      case Succeeded => st == ChargeSucceeded && captured
      case RequiresPaymentMethod => st == ChargeFailed && !captured
      case _ => false
    requires Render(next) == Render(t) + [ck, ik]
    ensures Moves(id, charges, t, next, WithCharge(q, charges, st, captured, gen, [], ck, ik))
  {
    var e := WithCharge(q, charges, st, captured, gen, [], ck, ik);
    CountNewCharge(t, next, charges, gen.chargeId, e.charge.value, id);
    KindsOfTwo(e.events[0], e.events[1]);
    assert e.events == [e.events[0], e.events[1]];
    assert PutCharge(charges, e) == charges[gen.chargeId := e.charge.value];
  }

  lemma AttemptAdded(t: Trace, a: Attempt)
    requires t.ending == Open
    ensures var next := t.(attempts := t.attempts + [a]);
      && Render(next) == Render(t) + (match a case ActionRequired => [IntentRequiresAction]
                                              case Declined => [ChargeFailedEvent, IntentPaymentFailed])
      && Declines(next.attempts) == Declines(t.attempts) + (if a == Declined then 1 else 0)
      && Settlements(next) == Settlements(t)
      && (a == ActionRequired ==> forall charges, id :: ChargesCounted(t, charges, id) ==> ChargesCounted(next, charges, id))
  {
    assert (t.attempts + [a])[..|t.attempts|] == t.attempts;
  }

  /** A confirm ends in one of four states; it keeps the id and the Charge, and sets the fields to match. */
  lemma AfterConfirm(p: PaymentIntent, params: Params, newId: string)
    requires FieldsAgree(p) && Confirmable(p.status)
    ensures var q := ApplyConfirm(p, params, newId);
      && q.id == p.id && q.latestCharge == p.latestCharge && FieldsAgree(q)
      && (q.status == RequiresAction || q.status == Succeeded
          || (q.status == RequiresPaymentMethod && q.lastPaymentError.Some?)
          || (q.status == RequiresCapture && q.amount == q.amountCapturable))
  {
    hide OutcomeForPaymentMethod, GetString, GetParam, AttachPaymentMethod;
    AttachChanges(p, params, newId);
  }

  /** A capture leaves an intent that has succeeded and has nothing capturable; its id, Charge and amount stay. */
  lemma AfterCapture(p: PaymentIntent, params: Params)
    requires FieldsAgree(p) && p.status == RequiresCapture
    ensures var q := ApplyCapture(p, params);
      && q.id == p.id && q.latestCharge == p.latestCharge && q.amount == p.amount && FieldsAgree(q)
      && q.status == Succeeded && q.amountCapturable == Num(0.0)
  {
  }

  /** A cancellation leaves nothing capturable and nothing received; id, Charge and amount stay. */
  lemma AfterCancel(p: PaymentIntent, params: Params)
    requires FieldsAgree(p) && p.status != Succeeded
    ensures var q := ApplyCancel(p, params);
      && q.id == p.id && q.latestCharge == p.latestCharge && q.amount == p.amount && FieldsAgree(q)
      && q.status == Canceled && q.amountCapturable == q.amountReceived == Num(0.0)
  {
    hide GetParam;
  }

  /** An update moves no money and no Charge, and only an intent that waits for a payment method changes its status. */
  lemma AfterUpdate(p: PaymentIntent, params: Params, newId: string)
    requires FieldsAgree(p)
    ensures var q := ApplyUpdate(p, params, newId);
      && q.id == p.id && q.latestCharge == p.latestCharge && FieldsAgree(q)
      && q.amountCapturable == p.amountCapturable && q.amountReceived == p.amountReceived
      && (q.status == p.status || (p.status == RequiresPaymentMethod && q.status == RequiresConfirmation
                                   && GetString(q.paymentMethod) != ""))
  {
    hide GetString, GetParam;
  }

  lemma AttachChanges(p: PaymentIntent, params: Params, newId: string)
    ensures var q := AttachPaymentMethod(p, params, newId); q == p.(paymentMethod := q.paymentMethod)
  {
    hide GetString, GetParam;
  }

  lemma RecordConfirmed(q: PaymentIntent, charges: map<string, Charge>, gen: Generated)
    ensures var e := RecordTransition(q, charges, false, false, gen);
      match q.status
      case RequiresAction => e == Effects(q, "", None, [IntentEvent(IntentRequiresAction, q)])
      case RequiresPaymentMethod => q.lastPaymentError.Some? ==>
        e == WithCharge(q, charges, ChargeFailed, false, gen, [], ChargeFailedEvent, IntentPaymentFailed)
      case RequiresCapture =>
        e == WithCharge(q, charges, ChargeSucceeded, false, gen, [], ChargeSucceededEvent, IntentAmountCapturableUpdated)
      case Succeeded => e == WithCharge(q, charges, ChargeSucceeded, true, gen, [], ChargeSucceededEvent, IntentSucceeded)
      case _ => true
  {
    hide WithCharge;
    var v := IntentEvent(IntentRequiresAction, q);
    assert [] + [v] == [v];
  }

  lemma ConfirmMoves(p: PaymentIntent, id: string, charges: map<string, Charge>, t: Trace, params: Params, gen: Generated)
      returns (next: Trace)
    requires Core(p, id, charges, t) && Confirmable(p.status)
    requires gen.chargeId != "" && gen.chargeId !in charges
    ensures var e := RecordTransition(ApplyConfirm(p, params, gen.paymentMethodId), charges, false, false, gen);
      Moves(id, charges, t, next, e)
    ensures next.created == t.created
  {
    hide ApplyConfirm, ChargesOf, Render, Declines, WithCharge, FieldsAgree, RecordTransition, Moves, ChargesCounted;
    AfterConfirm(p, params, gen.paymentMethodId);
    RecordConfirmed(ApplyConfirm(p, params, gen.paymentMethodId), charges, gen);
    var q := ApplyConfirm(p, params, gen.paymentMethodId);
    assert t.ending == Open && LiveCharge(q, charges).None?;
    match q.status
    case RequiresAction =>
      next := t.(attempts := t.attempts + [ActionRequired]);
      AttemptAdded(t, ActionRequired);
      var v := IntentEvent(IntentRequiresAction, q);
      NoCharge(q, id, charges, t, next, v);
    case RequiresPaymentMethod =>
      next := t.(attempts := t.attempts + [Declined]);
      AttemptAdded(t, Declined);
      NewCharge(q, id, charges, t, next, ChargeFailed, false, gen, ChargeFailedEvent, IntentPaymentFailed);
    case RequiresCapture =>
      next := t.(ending := Authorized(StillHeld));
      EndingSettled(t);
      NewCharge(q, id, charges, t, next, ChargeSucceeded, false, gen, ChargeSucceededEvent, IntentAmountCapturableUpdated);
    case _ =>
      next := t.(ending := SettledAtOnce);
      EndingSettled(t);
      NewCharge(q, id, charges, t, next, ChargeSucceeded, true, gen, ChargeSucceededEvent, IntentSucceeded);
  }

  lemma CaptureMoves(p: PaymentIntent, id: string, charges: map<string, Charge>, t: Trace, params: Params, gen: Generated)
      returns (next: Trace)
    requires Core(p, id, charges, t) && p.status == RequiresCapture && ChargeIds(charges)
    ensures var e := RecordTransition(ApplyCapture(p, params), charges, false, true, gen);
      Moves(id, charges, t, next, e)
    ensures next.created == t.created
  {
    var q := ApplyCapture(p, params);
    next := t.(ending := Authorized(CaptureDone));
    var e := RecordTransition(q, charges, false, true, gen);
    KindsOfTwo(e.events[0], e.events[1]);
    assert e.events == [e.events[0], e.events[1]];
    var c := e.charge.value;
    ChargesReplace(charges, e.chargeId, c, id, ChargeFailed);
    ChargesReplace(charges, e.chargeId, c, id, ChargeSucceeded);
    ChargesReplace(charges, e.chargeId, c, id, ChargeOther);
    assert Render(next) == Render(t) + [ChargeCapturedEvent, IntentSucceeded];
  }

  lemma CancelMoves(p: PaymentIntent, id: string, charges: map<string, Charge>, t: Trace, params: Params, gen: Generated)
      returns (next: Trace)
    requires Core(p, id, charges, t) && p.status != Succeeded && p.status != Canceled
    ensures var e := RecordTransition(ApplyCancel(p, params), charges, false, false, gen);
      Moves(id, charges, t, next, e)
    ensures next.created == t.created
  {
    next := t.(ending := if t.ending == Open then CanceledOpen else Authorized(Released));
    EndingCanceled(t);
    AfterCancel(p, params);
    hide ChargesOf, Render, ApplyCancel, FieldsAgree;
    var q := ApplyCancel(p, params);
    var v := IntentEvent(IntentCanceled, q);
    NoCharge(q, id, charges, t, next, v);
    assert [] + [v] == [v];
  }

  lemma EndingCanceled(t: Trace)
    requires t.ending == Open || t.ending == Authorized(StillHeld)
    ensures var next := t.(ending := if t.ending == Open then CanceledOpen else Authorized(Released));
      Render(next) == Render(t) + [IntentCanceled]
  {
  }

  lemma EndingSettled(t: Trace)
    requires t.ending == Open
    ensures Render(t.(ending := Authorized(StillHeld))) == Render(t) + [ChargeSucceededEvent, IntentAmountCapturableUpdated]
    ensures Render(t.(ending := SettledAtOnce)) == Render(t) + [ChargeSucceededEvent, IntentSucceeded]
  {
  }

  /** A transition with one event and no Charge. */
  lemma NoCharge(q: PaymentIntent, id: string, charges: map<string, Charge>, t: Trace, next: Trace, v: Event)
    requires Core(q, id, charges, next) && v.IntentEvent? && v.intent.id == id
    requires Render(next) == Render(t) + [v.kind]
    ensures Moves(id, charges, t, next, Effects(q, "", None, [v]))
  {
    KindsOfTwo(v, v);
  }

  lemma UpdateMoves(p: PaymentIntent, id: string, charges: map<string, Charge>, t: Trace, params: Params, gen: Generated)
    requires Core(p, id, charges, t)
    ensures Moves(id, charges, t, t, Effects(ApplyUpdate(p, params, gen.paymentMethodId), "", None, []))
  {
    AfterUpdate(p, params, gen.paymentMethodId);
    hide ChargesOf, Render, ApplyUpdate, FieldsAgree;
    assert Render(t) + [] == Render(t);
  }

  /** The life of an intent nothing has happened to yet. */
  const BLANK := Trace(false, [], Open)

  lemma AdoptedCore(base: PaymentIntent, id: string, charges: map<string, Charge>)
    requires forall c | c in charges :: charges[c].paymentIntent != id
    ensures Core(Adopt(base, id), id, charges, BLANK) && Render(BLANK) == []
  {
    NoCharges(charges, id);
  }

  lemma NoCharges(charges: map<string, Charge>, id: string)
    requires forall c | c in charges :: charges[c].paymentIntent != id
    ensures forall st :: ChargesOf(charges, id, st) == {}
  {
  }

  /** A new intent just before its creation is recorded: as if it had already been created, unconfirmed. */
  lemma CreateMoves(base: PaymentIntent, charges: map<string, Charge>, params: Params, gen: Generated) returns (next: Trace)
    requires gen.chargeId != "" && gen.chargeId !in charges
    requires forall c | c in charges :: charges[c].paymentIntent != CreatedId(base, gen)
    ensures Moves(CreatedId(base, gen), charges, BLANK, next, CreateEffects(base, charges, params, gen))
    ensures next.created
  {
    var id, q, n := CreatedId(base, gen), Prepared(base, params, gen), NewIntent(base, params, gen);
    var created := Trace(true, [], Open);
    NoCharges(charges, id);
    PreparedCore(base, charges, params, gen);
    hide Prepared, Render, ChargesOf;
    if BoolParam(params.confirm) {
      var q1 := q.(status := RequiresConfirmation);
      ConfirmIgnoresStatus(q, params, gen.paymentMethodId);
      next := ConfirmMoves(q1, id, charges, created, params, gen);
    } else {
      next := created;
      UnconfirmedMoves(n, id, charges, gen);
    }
    assert n.id == id by {
      AfterConfirm(q.(status := RequiresConfirmation), params, gen.paymentMethodId);
      ConfirmIgnoresStatus(q, params, gen.paymentMethodId);
    }
    CreationRecorded(id, charges, n, next, gen);
  }

  lemma ConfirmIgnoresStatus(q: PaymentIntent, params: Params, newId: string)
    ensures ApplyConfirm(q.(status := RequiresConfirmation), params, newId) == ApplyConfirm(q, params, newId)
  {
    hide OutcomeForPaymentMethod, GetString, GetParam;
    var a, b := AttachPaymentMethod(q.(status := RequiresConfirmation), params, newId), AttachPaymentMethod(q, params, newId);
    assert a == b.(status := RequiresConfirmation);
    hide AttachPaymentMethod;
    assert Settle(a, params) == Settle(b, params);
    hide Settle;
  }

  lemma UnconfirmedMoves(n: PaymentIntent, id: string, charges: map<string, Charge>, gen: Generated)
    requires Core(n, id, charges, Trace(true, [], Open)) && n.lastPaymentError.None? && Confirmable(n.status)
    requires n.status != RequiresAction
    ensures Moves(id, charges, Trace(true, [], Open), Trace(true, [], Open), RecordTransition(n, charges, false, false, gen))
  {
    var t := Trace(true, [], Open);
    assert Render(t) + [] == Render(t);
  }

  lemma PreparedCore(base: PaymentIntent, charges: map<string, Charge>, params: Params, gen: Generated)
    requires forall c | c in charges :: charges[c].paymentIntent != CreatedId(base, gen)
    ensures var q, id := Prepared(base, params, gen), CreatedId(base, gen);
      && Core(q.(status := RequiresConfirmation), id, charges, Trace(true, [], Open))
      && Core(q.(status := RequiresPaymentMethod), id, charges, Trace(true, [], Open))
      && q.lastPaymentError.None?
  {
    NoCharges(charges, CreatedId(base, gen));
  }

  lemma {:induction false} KindsAppend(a: seq<Event>, b: seq<Event>)
    ensures Kinds(a + b) == Kinds(a) + Kinds(b)
    decreases |b|
  {
    if b == [] {
      assert a + b == a;
    } else {
      var n := |b| - 1;
      var all := a + b;
      assert all[..|all| - 1] == a + b[..n] && all[|all| - 1] == b[n];
      KindsAppend(a, b[..n]);
    }
  }

  /** Recording a creation puts its event before the others. */
  lemma CreationRecorded(id: string, charges: map<string, Charge>, n: PaymentIntent, next: Trace, gen: Generated)
    requires n.id == id
    requires Moves(id, charges, Trace(true, [], Open), next, RecordTransition(n, charges, false, false, gen))
    ensures Moves(id, charges, BLANK, next, RecordTransition(n, charges, true, false, gen))
  {
    var e, f := RecordTransition(n, charges, false, false, gen), RecordTransition(n, charges, true, false, gen);
    var v := IntentEvent(IntentCreated, n);
    CreationEventFirst(n, charges, gen);
    KindsAppend([v], e.events);
    KindsOfTwo(v, v);
    assert Render(Trace(true, [], Open)) == [IntentCreated] && Render(BLANK) == [];
    hide RecordTransition, Render, Core;
    assert PutCharge(charges, e) == PutCharge(charges, f);
  }

  lemma CreationEventFirst(n: PaymentIntent, charges: map<string, Charge>, gen: Generated)
    ensures var e, f := RecordTransition(n, charges, false, false, gen), RecordTransition(n, charges, true, false, gen);
      f == e.(events := [IntentEvent(IntentCreated, n)] + e.events)
  {
    var e, f := RecordTransition(n, charges, false, false, gen), RecordTransition(n, charges, true, false, gen);
    hide LiveCharge, FillCharge;
    assert f.events == [IntentEvent(IntentCreated, n)] + e.events;
  }

  // The session as a whole.

  /** The Charges of other intents are left alone. */
  lemma OthersKeepCore(q: PaymentIntent, other: string, charges: map<string, Charge>, u: Trace,
                       id: string, t: Trace, next: Trace, e: Effects)
    requires Core(q, other, charges, u) && other != id && Moves(id, charges, t, next, e)
    ensures Core(q, other, PutCharge(charges, e), u)
  {
    if e.charge.Some? {
      var cid, c := e.chargeId, e.charge.value;
      OthersCount(charges, cid, c, other, ChargeFailed);
      OthersCount(charges, cid, c, other, ChargeSucceeded);
      OthersCount(charges, cid, c, other, ChargeOther);
    }
  }

  lemma OthersCount(charges: map<string, Charge>, cid: string, c: Charge, other: string, st: ChargeStatus)
    requires c.paymentIntent != other && (cid in charges ==> charges[cid].paymentIntent != other)
    ensures ChargesOf(charges[cid := c], other, st) == ChargesOf(charges, other, st)
  {
  }

  /** The trace of an intent so far. */
  function TraceOf(traces: map<string, Trace>, id: string): Trace {
    if id in traces then traces[id] else BLANK
  }

  lemma WriteKeepsInv(w: World, traces: map<string, Trace>, id: string, e: Effects, next: Trace)
    requires Inv(w, traces) && Moves(id, w.session.charges, TraceOf(traces, id), next, e)
    ensures Inv(World(Write(w.session, id, e), w.drained), traces[id := next])
  {
    hide Core, Render, PutCharge, About, Moves, Subject, World.Emitted, TraceOf;
    var s := w.session;
    var v := World(Write(s, id, e), w.drained);
    var after := traces[id := next];
    ChargesKept(s, id, e, TraceOf(traces, id), next);
    EventsKept(w, id, e, TraceOf(traces, id), next);
    forall other | other in v.session.intents
      ensures Core(v.session.intents[other], other, v.session.charges, after[other])
      ensures About(v.Emitted(), other) == Render(after[other])
    {
      WriteKeepsIntent(w, traces, id, e, next, other);
    }
  }

  lemma EventsKept(w: World, id: string, e: Effects, t: Trace, next: Trace)
    requires forall x | x in w.Emitted() :: Subject(x) in w.session.intents
    requires Moves(id, w.session.charges, t, next, e)
    ensures var v := World(Write(w.session, id, e), w.drained);
      && v.Emitted() == w.Emitted() + e.events
      && forall x | x in v.Emitted() :: Subject(x) in w.session.intents.Keys + {id}
  {
    var v := World(Write(w.session, id, e), w.drained);
    hide Core, Render, PutCharge;
    assert v.Emitted() == w.Emitted() + e.events;
    assert forall x | x in v.Emitted() :: x in w.Emitted() || x in e.events;
  }

  lemma WriteKeepsIntent(w: World, traces: map<string, Trace>, id: string, e: Effects, next: Trace, other: string)
    requires Inv(w, traces) && Moves(id, w.session.charges, TraceOf(traces, id), next, e)
    requires other == id || other in w.session.intents
    ensures Core(if other == id then e.intent else w.session.intents[other], other, PutCharge(w.session.charges, e),
                 traces[id := next][other])
    ensures About(w.Emitted() + e.events, other) == Render(traces[id := next][other])
  {
    hide Core, Render, PutCharge, About;
    if other == id {
      AboutAppend(w.Emitted(), e.events, id);
      if id !in w.session.intents {
        AboutNone(w.Emitted(), id);
        BlankRender();
      }
    } else {
      OthersKeepCore(w.session.intents[other], other, w.session.charges, traces[other], id, TraceOf(traces, id), next, e);
      AboutSkip(w.Emitted(), e.events, other);
    }
  }

  lemma BlankRender()
    ensures Render(BLANK) == []
  {
  }

  lemma ChargesKept(s: Session, id: string, e: Effects, t: Trace, next: Trace)
    requires forall c | c in s.charges :: s.charges[c].id == c && s.charges[c].paymentIntent in s.intents
    requires Moves(id, s.charges, t, next, e)
    ensures var charges := PutCharge(s.charges, e);
      forall c | c in charges :: charges[c].id == c && charges[c].paymentIntent in s.intents.Keys + {id}
  {
  }

  lemma ActMoves(pi: PaymentIntent, id: string, charges: map<string, Charge>, t: Trace, action: Action, params: Params,
                 gen: Generated) returns (next: Trace)
    requires Core(pi, id, charges, t) && ChargeIds(charges) && gen.chargeId != "" && gen.chargeId !in charges
    requires Decide(pi, charges, action, params, gen).Accepted?
    ensures Moves(id, charges, t, next, Decide(pi, charges, action, params, gen).effects)
    ensures next.created == t.created
  {
    hide RecordTransition, ApplyConfirm, Moves, Render, ChargesOf;
    match action
    case Confirm => next := ConfirmMoves(pi, id, charges, t, params, gen);
    case Capture => next := CaptureMoves(pi, id, charges, t, params, gen);
    case Cancel => next := CancelMoves(pi, id, charges, t, params, gen);
    case Update =>
      next := t;
      UpdateMoves(pi, id, charges, t, params, gen);
  }

  lemma EmptyInv()
    ensures Inv(INITIAL, map[])
  {
  }

  lemma CreateKeepsInv(w: World, traces: map<string, Trace>, params: Params, gen: Generated) returns (after: map<string, Trace>)
    requires Inv(w, traces) && gen.chargeId != "" && gen.chargeId !in w.session.charges
    requires gen.intentBase.Some? ==> CreatedId(gen.intentBase.value, gen) !in w.session.intents
    ensures Inv(World(HandleCreate(w.session, params, gen).0, w.drained), after)
  {
    after := traces;
    var s := w.session;
    if gen.intentBase.Some? && !(BoolParam(params.confirm) && !ConfirmHasPaymentMethod(Null, params)) {
      var base := gen.intentBase.value;
      var id := CreatedId(base, gen);
      var e := CreateEffects(base, s.charges, params, gen);
      var next := CreateMoves(base, s.charges, params, gen);
      hide Moves, CreateEffects, Core, About, Render, Write, CreatedId;
      assert TraceOf(traces, id) == BLANK;
      WriteKeepsInv(w, traces, id, e, next);
      after := traces[id := next];
    }
  }

  lemma ActKeepsInv(w: World, traces: map<string, Trace>, id: string, action: Action, params: Params, gen: Generated)
      returns (after: map<string, Trace>)
    requires Inv(w, traces) && gen.chargeId != "" && gen.chargeId !in w.session.charges
    ensures Inv(World(HandleAct(w.session, id, action, params, gen).0, w.drained), after)
  {
    hide Moves, Decide, Core, About, Render, Write, Adopt;
    after := traces;
    var s := w.session;
    var found := IntentFor(s, id, gen);
    if found.Some? {
      if id !in s.intents {
        AdoptedCore(gen.intentBase.value, id, s.charges);
      }
      var d := Decide(found.value, s.charges, action, params, gen);
      if d.Accepted? {
        var next := ActMoves(found.value, id, s.charges, TraceOf(traces, id), action, params, gen);
        WriteKeepsInv(w, traces, id, d.effects, next);
        after := traces[id := next];
      }
    }
  }

  lemma StepKeepsInv(w: World, traces: map<string, Trace>, r: Request) returns (after: map<string, Trace>)
    requires Inv(w, traces) && FreshIds(w.session, r)
    ensures Inv(Step(w, r), after)
  {
    hide Core, About, Render, HandleCreate, HandleAct;
    after := traces;
    match r
    case Create(stateful, params, gen) =>
      var t := OptIn(w.session, stateful);
      assert Inv(World(t, w.drained), traces);
      if t.enabled {
        after := CreateKeepsInv(World(t, w.drained), traces, params, gen);
      }
    case Act(stateful, id, action, params, gen) =>
      var t := OptIn(w.session, stateful);
      assert Inv(World(t, w.drained), traces);
      if t.enabled && action.Some? {
        after := ActKeepsInv(World(t, w.drained), traces, id, action.value, params, gen);
      }
    case Retrieve(_, _) =>
    case Config(_) =>
    case Drain =>
      assert Step(w, r).Emitted() == w.Emitted();
    case Reset =>
      after := map[];
      EmptyInv();
  }

  lemma {:induction false} RunKeepsInv(rs: seq<Request>) returns (traces: map<string, Trace>)
    requires ValidRun(rs)
    ensures Inv(Run(rs), traces)
  {
    if rs == [] {
      traces := map[];
      EmptyInv();
    } else {
      var n := |rs| - 1;
      assert forall i | 0 <= i < n :: rs[..n][..i] == rs[..i];
      var before := RunKeepsInv(rs[..n]);
      traces := StepKeepsInv(Run(rs[..n]), before, rs[n]);
    }
  }
}
