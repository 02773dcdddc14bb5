/**
 * What happens when a creation stores its intent while an action on that intent holds an older copy: the other
 * way in which an action and the creation of its intent collide. Here it is the creation that is overwritten.
 */
module StaleActions {
  import opened Json
  import opened PaymentIntents
  import opened Sessions
  import opened Lifecycle
  import opened LifecycleTheorems
  import opened Concurrency
  import opened Serializability
  import opened ConcurrencyTheorems
  import opened CreationRaces

  /** An action on an intent that is not stored, which it can take over, and a creation of that intent. */
  predicate Meet(s: Session, c: Request, a: Request) {
    && Simulated(c) && c.Create? && Simulated(a) && a.Act? && Target(a) == Target(c)
    && FreshIds(s, c) && FreshIds(s, a) && NewChargeId(c) != NewChargeId(a)
    && Plan(s, c).Some? && a.gen.intentBase.Some?
  }

  /** What the action decides on the copy it has taken over. */
  function First(s: Session, a: Request): Decision
    requires a.Act? && a.action.Some? && a.gen.intentBase.Some?
  {
    Decide(Adopt(a.gen.intentBase.value, a.id), s.charges, a.action.value, a.params, a.gen)
  }

  lemma MeetsOrRaces(s: Session, c: Request, a: Request)
    requires Meet(s, c, a)
    ensures Plan(s, a) == match First(s, a) case Accepted(e) => Some(e) case Rejected(_) => None
    ensures First(s, a).Accepted? <==> Races(s, c, a)
    ensures IntentFor(s, a.id, a.gen) == Some(Adopt(a.gen.intentBase.value, a.id))
    ensures StoreId(c) == StoreId(a) == a.id
  {
    hide Decide, CreateEffects, Adopt;
  }

  // The schedule.

  /** The session when the creation has stored its intent. */
  function Created(s: Session, c: Request): Session
    requires Plan(s, c).Some?
  {
    Write(OptIn(s, true), StoreId(c), Plan(s, c).value)
  }

  /** What is left when the action that has read before the creation stored its intent writes after it. */
  function Stale(s: Session, c: Request, a: Request): Session
    requires Plan(s, c).Some? && Plan(s, a).Some?
  {
    Write(Created(s, c), StoreId(a), Plan(s, a).value)
  }

  /** An action reads and is then held up. */
  lemma LoadAlone(moves: seq<Move>, a: Request, pi: PaymentIntent) returns (more: seq<Move>)
    requires Schedule(moves) && Simulated(a) && a.Act?
    requires After(moves).lock.None? && NewIds(After(moves), a)
    requires IntentFor(After(moves).world.session, a.id, a.gen) == Some(pi)
    ensures Schedule(moves + more) && After(moves + more) == Standing(After(moves), a, Loaded(pi))
  {
    hide After, Schedule, Take, NewIds, IntentFor, Enabled, Standing;
    var sys, step := After(moves), Advance(|After(moves).threads|);
    LockAlone(sys, a);
    ReadAlone(sys, a);
    Extend(moves, Arrive(a));
    Extend(moves + [Arrive(a)], step);
    Extend(moves + [Arrive(a)] + [step], step);
    more := [Arrive(a), step, step];
    assert moves + more == moves + [Arrive(a)] + [step] + [step];
  }

  /** The system with the creation finished and the action holding the copy it has taken over. */
  function Held(sys: System, c: Request, a: Request): System
    requires Meet(sys.world.session, c, a)
  {
    System(World(Created(sys.world.session, c), sys.world.drained), Some(|sys.threads| + 1), sys.threads +
      [Thread(c, Finished(Served(Plan(sys.world.session, c).value.intent))),
       Thread(a, Loaded(Adopt(a.gen.intentBase.value, a.id)))])
  }

  lemma BegunMeets(sys: System, c: Request, a: Request, ec: Effects)
    requires Meet(sys.world.session, c, a) && NewIds(sys, a) && sys.lock.None? && ec.events != []
    ensures var next := Begun(sys, c, ec);
      && next.lock.None? && NewIds(next, a)
      && IntentFor(next.world.session, a.id, a.gen) == Some(Adopt(a.gen.intentBase.value, a.id))
  {
    hide Decide, Adopt, CreateEffects;
  }

  lemma HeldAfter(sys: System, c: Request, a: Request, ec: Effects)
    requires Meet(sys.world.session, c, a) && Plan(sys.world.session, c) == Some(ec) && ec.events != [] && sys.lock.None?
    ensures var next := Standing(Begun(sys, c, ec), a, Loaded(Adopt(a.gen.intentBase.value, a.id)));
      Underway(next, |sys.threads|) && Finish(next, |sys.threads|) == Held(sys, c, a)
  {
    hide Plan, FreshIds, Adopt;
    var next := Standing(Begun(sys, c, ec), a, Loaded(Adopt(a.gen.intentBase.value, a.id)));
    var s := sys.world.session;
    assert Finish(next, |sys.threads|).threads == Held(sys, c, a).threads;
    assert s.events + [ec.events[0]] + ec.events[1..] == s.events + ec.events;
  }

  lemma HoldsCopy(moves: seq<Move>, c: Request, a: Request) returns (more: seq<Move>)
    requires Schedule(moves) && After(moves).lock.None? && Meet(After(moves).world.session, c, a)
    requires NewIds(After(moves), c) && NewIds(After(moves), a)
    ensures Schedule(moves + more) && After(moves + more) == Held(After(moves), c, a)
  {
    hide After, Schedule, NewIds, Plan, Begun, FreshIds, Finish, Adopt, Underway, Standing, Held;
    var sys := After(moves);
    var ec := Plan(sys.world.session, c).value;
    var m1 := BeginCreation(moves, c);
    BegunMeets(sys, c, a, ec);
    var m2 := LoadAlone(moves + m1, a, Adopt(a.gen.intentBase.value, a.id));
    HeldAfter(sys, c, a, ec);
    var m3 := FinishAlone(moves + m1 + m2, |sys.threads|);
    more := m1 + m2 + m3;
    assert moves + more == moves + m1 + m2 + m3;
  }

  /** The Charge of the creation makes no difference to the decision. */
  lemma DecidedOnCopy(sys: System, c: Request, a: Request)
    requires Meet(sys.world.session, c, a)
    ensures var held, step := Held(sys, c, a), Advance(|sys.threads| + 1);
      && Enabled(held, step)
      && Take(held, step) == match First(sys.world.session, a)
         case Accepted(e) => Become(held, |sys.threads| + 1, Writing(e, false, 0))
         case Rejected(reason) => Become(held, |sys.threads| + 1, Finished(Refused(reason))).(lock := None)
  {
    var s := sys.world.session;
    DecideLooksAtOneCharge(Adopt(a.gen.intentBase.value, a.id), Created(s, c).charges, s.charges, a.action.value, a.params, a.gen);
    hide Decide, Plan, FreshIds, PutCharge;
  }

  lemma StaleAfter(sys: System, c: Request, a: Request, ec: Effects, ea: Effects)
    requires Meet(sys.world.session, c, a) && Plan(sys.world.session, c) == Some(ec) && Plan(sys.world.session, a) == Some(ea)
    ensures var t := |sys.threads| + 1;
      var next := Become(Held(sys, c, a), t, Writing(ea, false, 0));
      && Underway(next, t)
      && Finish(next, t) == System(World(Stale(sys.world.session, c, a), sys.world.drained), None,
           sys.threads + [Thread(c, Finished(Served(ec.intent))), Thread(a, Finished(Served(ea.intent)))])
  {
    hide Plan, FreshIds, Adopt;
    var t := |sys.threads| + 1;
    var next := Become(Held(sys, c, a), t, Writing(ea, false, 0));
    assert Finish(next, t).threads ==
      sys.threads + [Thread(c, Finished(Served(ec.intent))), Thread(a, Finished(Served(ea.intent)))];
    assert ea.events[0..] == ea.events;
  }

  /**
   * The creation is served its intent, but if the action is accepted the session ends with the action's, made
   * from another base.
   */
  lemma CreationOverwritten(moves: seq<Move>, c: Request, a: Request) returns (more: seq<Move>)
    requires Schedule(moves) && After(moves).lock.None? && Races(After(moves).world.session, c, a)
    requires NewIds(After(moves), c) && NewIds(After(moves), a)
    ensures Schedule(moves + more)
    ensures var sys, s := After(moves), After(moves).world.session;
      After(moves + more) == System(World(Stale(s, c, a), sys.world.drained), None, sys.threads +
        [Thread(c, Finished(Served(Plan(s, c).value.intent))), Thread(a, Finished(Served(Plan(s, a).value.intent)))])
  {
    hide After, Schedule, NewIds, Plan, First, FreshIds, Races, Finish, Underway, Held, Stale, Take, Enabled, Become, Meet;
    RacesMeet(After(moves).world.session, c, a);
    var sys, step := After(moves), Advance(|After(moves).threads| + 1);
    MeetsOrRaces(sys.world.session, c, a);
    var m1 := HoldsCopy(moves, c, a);
    DecidedOnCopy(sys, c, a);
    Extend(moves + m1, step);
    StaleAfter(sys, c, a, Plan(sys.world.session, c).value, Plan(sys.world.session, a).value);
    var m2 := FinishAlone(moves + m1 + [step], |sys.threads| + 1);
    more := m1 + [step] + m2;
    assert moves + more == moves + m1 + [step] + m2;
  }

  lemma RacesMeet(s: Session, c: Request, a: Request)
    requires Races(s, c, a)
    ensures Meet(s, c, a) && Plan(s, c).Some? && Plan(s, a).Some?
  {
    hide Decide, CreateEffects, Adopt;
  }

  /** An action that is refused on its older copy has the answer it has before the creation, and changes nothing. */
  lemma RefusedOnCopy(moves: seq<Move>, c: Request, a: Request) returns (more: seq<Move>)
    requires Schedule(moves) && After(moves).lock.None? && Meet(After(moves).world.session, c, a)
    requires NewIds(After(moves), c) && NewIds(After(moves), a) && First(After(moves).world.session, a).Rejected?
    ensures Schedule(moves + more)
    ensures var sys, s := After(moves), After(moves).world.session;
      var refusal := Handle(s, a).1;
      && refusal == Refused(First(s, a).reason)
      && After(moves + more) == System(World(Created(s, c), sys.world.drained), None, sys.threads +
           [Thread(c, Finished(Served(Plan(s, c).value.intent))), Thread(a, Finished(refusal))])
    ensures var w := After(moves).world; SameOutcomeAs(After(moves + more).world, Step(Step(w, a), c))
  {
    hide After, Schedule, NewIds, Plan, First, FreshIds, Held, Take, Enabled, SameOutcomeAs, Handle, Step, Created;
    var sys, step := After(moves), Advance(|After(moves).threads| + 1);
    var m1 := HoldsCopy(moves, c, a);
    DecidedOnCopy(sys, c, a);
    Extend(moves + m1, step);
    more := m1 + [step];
    assert moves + more == moves + m1 + [step];
    RefusalFinishes(sys, c, a, First(sys.world.session, a).reason);
    RefusedFirst(sys.world, c, a);
  }

  lemma RefusalFinishes(sys: System, c: Request, a: Request, reason: Rejection)
    requires Meet(sys.world.session, c, a)
    ensures Become(Held(sys, c, a), |sys.threads| + 1, Finished(Refused(reason))).(lock := None) ==
      System(World(Created(sys.world.session, c), sys.world.drained), None, sys.threads +
        [Thread(c, Finished(Served(Plan(sys.world.session, c).value.intent))), Thread(a, Finished(Refused(reason)))])
  {
    hide Plan, FreshIds, Adopt, Created;
    assert Become(Held(sys, c, a), |sys.threads| + 1, Finished(Refused(reason))).threads == sys.threads +
      [Thread(c, Finished(Served(Plan(sys.world.session, c).value.intent))), Thread(a, Finished(Refused(reason)))];
  }

  lemma RefusedFirst(w: World, c: Request, a: Request)
    requires Meet(w.session, c, a) && First(w.session, a).Rejected?
    ensures Handle(w.session, a).1 == Refused(First(w.session, a).reason)
    ensures SameOutcomeAs(World(Created(w.session, c), w.drained), Step(Step(w, a), c))
  {
    MeetsOrRaces(w.session, c, a);
    RefusedAnswer(w.session, a);
    hide Plan, Handle, Step, Of, FreshIds, First, PutCharge;
    StepWrites(w, a);
    PlanAgain(w.session, Step(w, a).session, c);
    StepWrites(Step(w, a), c);
    var ec := Plan(w.session, c).value;
    assert w.drained + (w.session.events + ec.events) == w.Emitted() + ec.events;
  }

  lemma RefusedAnswer(s: Session, a: Request)
    requires Simulated(a) && a.Act? && a.gen.intentBase.Some? && a.id !in s.intents && First(s, a).Rejected?
    ensures Handle(s, a).1 == Refused(First(s, a).reason)
  {
    hide Decide, Adopt;
  }

  // When the outcome is one of a serial run.

  /** The events and the intent of a transition tell all it writes. */
  predicate Told(e: Effects) {
    if e.charge.Some? then
      |e.events| == 2 && e.events[0].ChargeEvent? && e.events[0].charge == e.charge.value && e.intent.latestCharge == Some(e.chargeId)
    else e.chargeId == "" && forall v | v in e.events :: v.IntentEvent?
  }

  lemma RecordTold(p: PaymentIntent, charges: map<string, Charge>, wasAuthorized: bool, gen: Generated)
    ensures Told(RecordTransition(p, charges, false, wasAuthorized, gen))
  {
    hide LiveCharge, FillCharge;
  }

  lemma DecideTold(p: PaymentIntent, charges: map<string, Charge>, action: Action, params: Params, gen: Generated)
    ensures var d := Decide(p, charges, action, params, gen); d.Accepted? ==> Told(d.effects)
  {
    hide RecordTransition, ApplyConfirm, ApplyCapture, ApplyCancel, ApplyUpdate;
    RecordTold(ApplyConfirm(p, params, gen.paymentMethodId), charges, false, gen);
    RecordTold(ApplyCapture(p, params), charges, true, gen);
    RecordTold(ApplyCancel(p, params), charges, false, gen);
  }

  lemma SameTold(e: Effects, f: Effects)
    requires Told(e) && Told(f) && e.intent == f.intent && e.events == f.events
    ensures e == f
  {
    if e.charge.Some? != f.charge.Some? {
      assert e.events[0] in e.events;
    }
  }

  /** What the requests write, for the comparison below. */
  lemma StaleFacts(s: Session, c: Request, a: Request)
    requires Races(s, c, a)
    ensures var ec, ea := Plan(s, c).value, Plan(s, a).value;
      && ec.events != [] && ec.events[0].kind == IntentCreated
      && Told(ea) && (Second(s, c, a).Accepted? ==> Told(Second(s, c, a).effects))
      && if a.action == Some(Update) then ea.charge.None? && ea.events == [] && Second(s, c, a).Accepted?
         else ea.events != [] && ea.events[0].kind != IntentCreated
  {
    CreatedFirst(c.gen.intentBase.value, s.charges, c.params, c.gen);
    if a.action == Some(Update) {
      UpdateRecordsNothing(s, a);
    } else {
      RaceFacts(s, c, a);
    }
    hide Decide, CreateEffects, FreshIds;
    var ec := Plan(s, c).value;
    DecideTold(Adopt(a.gen.intentBase.value, a.id), s.charges, a.action.value, a.params, a.gen);
    DecideTold(ec.intent, PutCharge(s.charges, ec), a.action.value, a.params, a.gen);
    UpdateAccepted(ec.intent, PutCharge(s.charges, ec), a.params, a.gen);
  }

  lemma UpdateAccepted(p: PaymentIntent, charges: map<string, Charge>, params: Params, gen: Generated)
    ensures Decide(p, charges, Update, params, gen).Accepted?
  {
  }

  lemma StaleParts(w: World, c: Request, a: Request)
    requires Races(w.session, c, a)
    ensures var ec, ea := Plan(w.session, c).value, Plan(w.session, a).value;
      var v := World(Stale(w.session, c, a), w.drained);
      && v.session.intents == w.session.intents[a.id := ec.intent][a.id := ea.intent]
      && v.session.charges == PutCharge(PutCharge(w.session.charges, ec), ea)
      && v.Emitted() == w.Emitted() + (ec.events + ea.events)
  {
    RaceParties(w.session, c, a);
    hide Plan, FreshIds, PutCharge, Races;
    StaleEmits(w, Stale(w.session, c, a), Plan(w.session, c).value.events, Plan(w.session, a).value.events);
  }

  lemma StaleEmits(w: World, s: Session, create: seq<Event>, act: seq<Event>)
    requires s.events == w.session.events + create + act
    ensures World(s, w.drained).Emitted() == w.Emitted() + (create + act)
  {
  }

  /**
   * The outcome of an action on an older copy is that of the creation and then the action exactly if the action
   * decides on the created intent just what it decided on the copy. It is that of the action and then the
   * creation only for an update, and then exactly if it makes of the copy the very intent that is created.
   */
  lemma StaleExact(w: World, c: Request, a: Request)
    requires Races(w.session, c, a)
    ensures var s, v := w.session, World(Stale(w.session, c, a), w.drained);
      && (SameOutcomeAs(v, Step(Step(w, c), a)) <==> Second(s, c, a) == Accepted(Plan(s, a).value))
      && (SameOutcomeAs(v, Step(Step(w, a), c)) <==>
            a.action == Some(Update) && Plan(s, a).value.intent == Plan(s, c).value.intent)
  {
    hide Plan, Step, Second, Stale, Of, Subject, PutCharge, FreshIds, SameOutcomeAs, Told;
    StaleFacts(w.session, c, a);
    RaceSubjects(w.session, c, a);
    StaleParts(w, c, a);
    CreateThenAct(w, c, a);
    ActThenCreate(w, c, a);
    var ec, ea, v := Plan(w.session, c).value, Plan(w.session, a).value, World(Stale(w.session, c, a), w.drained);
    StaleThenAct(w, a.id, ec, ea, Second(w.session, c, a), v, Step(Step(w, c), a));
    StaleThenCreate(w, a.id, ec, ea, a.action == Some(Update), v, Step(Step(w, a), c));
  }

  /** What no confirm, capture or cancellation changes. */
  function Terms(p: PaymentIntent): (Json, Json, Json, Json, map<string, Json>) {
    (p.amount, p.currency, p.customer, p.clientSecret, p.details)
  }

  lemma RecordKeepsTerms(p: PaymentIntent, charges: map<string, Charge>, wasAuthorized: bool, gen: Generated)
    ensures Terms(RecordTransition(p, charges, false, wasAuthorized, gen).intent) == Terms(p)
  {
    hide LiveCharge, FillCharge;
  }

  lemma DecideKeepsTerms(p: PaymentIntent, charges: map<string, Charge>, action: Action, params: Params, gen: Generated)
    requires action != Update && Decide(p, charges, action, params, gen).Accepted?
    ensures Terms(Decide(p, charges, action, params, gen).effects.intent) == Terms(p)
  {
    hide RecordTransition, OutcomeForPaymentMethod, GetString, GetParam;
    match action
    case Confirm =>
      RecordKeepsTerms(ApplyConfirm(p, params, gen.paymentMethodId), charges, false, gen);
    case Capture => RecordKeepsTerms(ApplyCapture(p, params), charges, true, gen);
    case Cancel => RecordKeepsTerms(ApplyCancel(p, params), charges, false, gen);
    case _ =>
  }

  lemma RacesKeepTerms(s: Session, c: Request, a: Request)
    requires Races(s, c, a) && a.action != Some(Update)
    ensures Terms(Plan(s, a).value.intent) == Terms(a.gen.intentBase.value)
    ensures Second(s, c, a).Accepted? ==> Terms(Second(s, c, a).effects.intent) == Terms(Plan(s, c).value.intent)
  {
    hide Decide, CreateEffects, Terms, Adopt;
    var ec := Plan(s, c).value;
    AdoptKeepsTerms(a.gen.intentBase.value, a.id);
    DecideKeepsTerms(Adopt(a.gen.intentBase.value, a.id), s.charges, a.action.value, a.params, a.gen);
    if Second(s, c, a).Accepted? {
      DecideKeepsTerms(ec.intent, PutCharge(s.charges, ec), a.action.value, a.params, a.gen);
    }
  }

  /**
   * So from every state, a confirm or cancellation can replace a served creation by an intent with the terms of
   * the action's own base; where those differ, in amount or client secret say, no serial order explains it.
   */
  lemma StaleIsNotSerial(moves: seq<Move>, c: Request, a: Request) returns (after: seq<Move>)
    requires Schedule(moves) && After(moves).lock.None?
    requires Races(After(moves).world.session, c, a) && NewIds(After(moves), c) && NewIds(After(moves), a)
    requires a.action != Some(Update)
    requires Terms(a.gen.intentBase.value) != Terms(Plan(After(moves).world.session, c).value.intent)
    ensures moves <= after && Schedule(after) && (Quiet(After(moves)) ==> Quiet(After(after)))
    ensures var w, v, n := After(moves).world, After(after).world, |After(moves).threads|;
      && |After(after).threads| == n + 2
      && After(after).threads[n] == Thread(c, Finished(Served(Plan(w.session, c).value.intent)))
      && a.id in v.session.intents && Terms(v.session.intents[a.id]) == Terms(a.gen.intentBase.value)
      && !SameOutcomeAs(v, Step(Step(w, c), a)) && !SameOutcomeAs(v, Step(Step(w, a), c))
  {
    hide Schedule, Plan, NewIds, Step, Stale, SameOutcomeAs, FreshIds, Second, Terms, Races;
    var w := After(moves).world;
    var more := CreationOverwritten(moves, c, a);
    after := moves + more;
    StaleExact(w, c, a);
    StaleParts(w, c, a);
    RacesKeepTerms(w.session, c, a);
    hide After;
  }

  lemma AdoptKeepsTerms(base: PaymentIntent, id: string)
    ensures Terms(Adopt(base, id)) == Terms(base)
  {
  }

  lemma StaleThenAct(w: World, id: string, ec: Effects, ea: Effects, second: Decision, v: World, u: World)
    requires Told(ea) && (second.Accepted? ==> Told(second.effects)) && (second.Rejected? ==> ea.events != [])
    requires forall e | e in ec.events :: Subject(e) == id
    requires forall e | e in ea.events :: Subject(e) == id
    requires second.Accepted? ==> forall e | e in second.effects.events :: Subject(e) == id
    requires v.session.intents == w.session.intents[id := ec.intent][id := ea.intent]
    requires v.session.charges == PutCharge(PutCharge(w.session.charges, ec), ea)
    requires v.Emitted() == w.Emitted() + (ec.events + ea.events)
    requires match second
      case Accepted(e) =>
        && u.session.intents == w.session.intents[id := ec.intent][id := e.intent]
        && u.session.charges == PutCharge(PutCharge(w.session.charges, ec), e)
        && u.Emitted() == w.Emitted() + (ec.events + e.events)
      case Rejected(_) => u.Emitted() == w.Emitted() + ec.events
    ensures SameOutcomeAs(v, u) <==> second == Accepted(ea)
  {
    hide Of, Subject, World.Emitted, Told;
    var later := if second.Accepted? then second.effects.events else [];
    assert ec.events + [] == ec.events;
    SameEventsOf(w.Emitted(), ec.events + ea.events, ec.events + later, id);
    assert (ec.events + ea.events)[|ec.events|..] == ea.events && (ec.events + later)[|ec.events|..] == later;
    assert u.Emitted() == w.Emitted() + (ec.events + later);
    if SameOutcomeAs(v, u) {
      assert ea.events == later;
      assert v.session.intents[id] == ea.intent && u.session.intents[id] == second.effects.intent;
      SameTold(ea, second.effects);
    }
  }

  lemma StaleThenCreate(w: World, id: string, ec: Effects, ea: Effects, update: bool, v: World, x: World)
    requires ec.events != [] && ec.events[0].kind == IntentCreated
    requires if update then ea.charge.None? && ea.events == [] else ea.events != [] && ea.events[0].kind != IntentCreated
    requires forall e | e in ec.events :: Subject(e) == id
    requires forall e | e in ea.events :: Subject(e) == id
    requires v.session.intents == w.session.intents[id := ec.intent][id := ea.intent]
    requires v.session.charges == PutCharge(PutCharge(w.session.charges, ec), ea)
    requires v.Emitted() == w.Emitted() + (ec.events + ea.events)
    requires x.session.intents == w.session.intents[id := ea.intent][id := ec.intent]
    requires x.session.charges == PutCharge(PutCharge(w.session.charges, ea), ec)
    requires x.Emitted() == w.Emitted() + (ea.events + ec.events)
    ensures SameOutcomeAs(v, x) <==> update && ea.intent == ec.intent
  {
    hide Of, Subject, World.Emitted;
    SameEventsOf(w.Emitted(), ec.events + ea.events, ea.events + ec.events, id);
    if update {
      assert ec.events + ea.events == ea.events + ec.events;
      assert v.session.intents[id] == ea.intent && x.session.intents[id] == ec.intent;
    } else {
      assert (ec.events + ea.events)[0] == ec.events[0] && (ea.events + ec.events)[0] == ea.events[0];
    }
  }
}
