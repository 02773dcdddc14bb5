/**
 * What happens when an action works on an intent whose creation is under way. The creation takes no lock, and
 * its first event names the intent before it is stored.
 */
module CreationRaces {
  import opened Json
  import opened PaymentIntents
  import opened Sessions
  import opened Lifecycle
  import opened LifecycleTheorems
  import opened Concurrency
  import opened Serializability
  import opened ConcurrencyTheorems

  lemma Extend(moves: seq<Move>, m: Move)
    requires Schedule(moves) && Enabled(After(moves), m)
    ensures Schedule(moves + [m]) && After(moves + [m]) == Take(After(moves), m)
  {
    hide Take, Enabled;
    assert (moves + [m])[..|moves|] == moves;
    assert forall i | 0 <= i < |moves| :: (moves + [m])[..i] == moves[..i];
  }

  /** A request at its writes, with its Charge still to be stored where it has not been. */
  predicate Underway(sys: System, t: nat) {
    && t < |sys.threads| && sys.threads[t].phase.Writing?
    && var Thread(r, Writing(e, charged, queued)) := sys.threads[t];
       queued <= |e.events| && (charged ==> e.charge.Some?) && (r.Create? && queued == 0 ==> e.events != [])
  }

  function Left(sys: System, t: nat): nat
    requires Underway(sys, t)
  {
    var Writing(e, charged, queued) := sys.threads[t].phase;
    |e.events| - queued + if e.charge.Some? && !charged then 1 else 0
  }

  /** The system once the request number `t` has made all its remaining writes and answered. */
  function Finish(sys: System, t: nat): System
    requires Underway(sys, t)
  {
    var Thread(r, Writing(e, charged, queued)) := sys.threads[t];
    var s := sys.world.session;
    Become(sys, t, Finished(Served(e.intent))).(
      lock := if r.Act? then None else sys.lock,
      world := sys.world.(session := s.(
        charges := if charged then s.charges else PutCharge(s.charges, e),
        events := s.events + e.events[queued..],
        intents := s.intents[StoreId(r) := e.intent])))
  }

  /** The two phases a request goes through, one after the other, leave only the second. */
  lemma BecomeTwice(sys: System, t: nat, p: Phase, q: Phase, lock: Option<nat>, world: World)
    requires t < |sys.threads|
    ensures Become(Become(sys, t, p), t, q) == Become(sys, t, q)
    ensures Become(Become(sys, t, p).(lock := lock, world := world), t, q) == Become(sys, t, q).(lock := lock, world := world)
  {
    var th := sys.threads[t];
    assert sys.threads[t := th.(phase := p)][t := th.(phase := q)] == sys.threads[t := th.(phase := q)];
  }

  predicate ChargeNext(th: Thread)
    requires th.phase.Writing?
  {
    th.phase.effects.charge.Some? && !th.phase.charged && !(th.request.Create? && th.phase.queued == 0)
  }

  lemma ChargeTowardsFinish(sys: System, t: nat)
    requires Underway(sys, t) && ChargeNext(sys.threads[t])
    ensures var next := Progress(sys, t);
      Left(sys, t) > 0 && Underway(next, t) && Left(next, t) < Left(sys, t) && Finish(next, t) == Finish(sys, t)
  {
    hide StoreId;
    var Thread(r, Writing(e, charged, queued)) := sys.threads[t];
    BecomeTwice(sys, t, Writing(e, true, queued), Finished(Served(e.intent)), sys.lock, Progress(sys, t).world);
  }

  lemma EventTowardsFinish(sys: System, t: nat)
    requires Underway(sys, t) && !ChargeNext(sys.threads[t])
    requires sys.threads[t].phase.queued < |sys.threads[t].phase.effects.events|
    ensures var next := Progress(sys, t);
      Left(sys, t) > 0 && Underway(next, t) && Left(next, t) < Left(sys, t) && Finish(next, t) == Finish(sys, t)
  {
    hide StoreId, PutCharge;
    var Thread(r, Writing(e, charged, queued)) := sys.threads[t];
    var events := sys.world.session.events;
    assert (events + [e.events[queued]]) + e.events[queued + 1..] == events + e.events[queued..];
    BecomeTwice(sys, t, Writing(e, charged, queued + 1), Finished(Served(e.intent)), sys.lock, Progress(sys, t).world);
  }

  lemma StoreTowardsFinish(sys: System, t: nat)
    requires Underway(sys, t) && !ChargeNext(sys.threads[t])
    requires sys.threads[t].phase.queued == |sys.threads[t].phase.effects.events|
    ensures var next := Progress(sys, t);
      Left(sys, t) == 0 && t < |next.threads| && next.threads[t] == sys.threads[t].(phase := Stored(sys.threads[t].phase.effects))
      && Progress(next, t) == Finish(sys, t)
  {
    hide StoreId;
    var Thread(r, Writing(e, charged, queued)) := sys.threads[t];
    var events := sys.world.session.events;
    assert events + e.events[queued..] == events;
    BecomeTwice(sys, t, Stored(e), Finished(Served(e.intent)), sys.lock, Progress(sys, t).world);
  }

  lemma WriteTowardsFinish(sys: System, t: nat)
    requires Underway(sys, t)
    ensures Enabled(sys, Advance(t))
    ensures var next := Take(sys, Advance(t));
      if Left(sys, t) > 0 then Underway(next, t) && Left(next, t) < Left(sys, t) && Finish(next, t) == Finish(sys, t)
      else Enabled(next, Advance(t)) && Take(next, Advance(t)) == Finish(sys, t)
  {
    hide Progress, Finish, NewIds, Left;
    var phase := sys.threads[t].phase;
    if ChargeNext(sys.threads[t]) {
      ChargeTowardsFinish(sys, t);
    } else if phase.queued < |phase.effects.events| {
      EventTowardsFinish(sys, t);
    } else {
      StoreTowardsFinish(sys, t);
    }
  }

  /** A request left to itself makes its remaining writes and answers. */
  lemma {:induction false} FinishAlone(moves: seq<Move>, t: nat) returns (more: seq<Move>)
    requires Schedule(moves) && Underway(After(moves), t)
    ensures Schedule(moves + more) && After(moves + more) == Finish(After(moves), t)
    decreases Left(After(moves), t)
  {
    hide After, Schedule, Take, Finish, Underway, Left, Enabled;
    var sys, step := After(moves), Advance(t);
    WriteTowardsFinish(sys, t);
    Extend(moves, step);
    if Left(sys, t) > 0 {
      var rest := FinishAlone(moves + [step], t);
      more := [step] + rest;
      assert moves + more == (moves + [step]) + rest;
    } else {
      Extend(moves + [step], step);
      more := [step, step];
      assert moves + more == (moves + [step]) + [step];
    }
  }

  /** The system with one more action, alone at the lock. */
  function Standing(sys: System, r: Request, phase: Phase): System {
    System(World(OptIn(sys.world.session, true), sys.world.drained),
           if phase.Started? || phase.Finished? then None else Some(|sys.threads|),
           sys.threads + [Thread(r, phase)])
  }

  lemma LockAlone(sys: System, r: Request)
    requires Simulated(r) && r.Act? && sys.lock.None?
    ensures Enabled(sys, Arrive(r)) && Take(sys, Arrive(r)) == Standing(sys, r, Started)
    ensures var next := Standing(sys, r, Started);
      Enabled(next, Advance(|sys.threads|)) && Take(next, Advance(|sys.threads|)) == Standing(sys, r, Locked)
  {
    assert Become(Standing(sys, r, Started), |sys.threads|, Locked).threads == sys.threads + [Thread(r, Locked)];
  }

  lemma ReadAlone(sys: System, r: Request)
    requires Simulated(r) && r.Act? && NewIds(sys, r)
    ensures var next := Standing(sys, r, Locked);
      && Enabled(next, Advance(|sys.threads|))
      && Take(next, Advance(|sys.threads|)) ==
         match IntentFor(sys.world.session, r.id, r.gen)
         case Some(pi) => Standing(sys, r, Loaded(pi))
         case None => Standing(sys, r, Finished(GeneratorFailed))
  {
    hide Adopt;
    var next := Standing(sys, r, Locked);
    assert IntentFor(next.world.session, r.id, r.gen) == IntentFor(sys.world.session, r.id, r.gen);
    assert forall phase :: Become(next, |sys.threads|, phase).threads == sys.threads + [Thread(r, phase)];
  }

  lemma DecideAlone(sys: System, r: Request, pi: PaymentIntent)
    requires Simulated(r) && r.Act?
    ensures var next := Standing(sys, r, Loaded(pi));
      && Enabled(next, Advance(|sys.threads|))
      && Take(next, Advance(|sys.threads|)) ==
         match Decide(pi, sys.world.session.charges, r.action.value, r.params, r.gen)
         case Accepted(e) => Standing(sys, r, Writing(e, false, 0))
         case Rejected(reason) => Standing(sys, r, Finished(Refused(reason)))
  {
    hide Decide;
    var next := Standing(sys, r, Loaded(pi));
    assert forall phase :: Become(next, |sys.threads|, phase).threads == sys.threads + [Thread(r, phase)];
  }

  lemma WriteAlone(sys: System, r: Request, e: Effects)
    requires r.Act?
    ensures var next := Standing(sys, r, Writing(e, false, 0));
      && Underway(next, |sys.threads|)
      && Finish(next, |sys.threads|) ==
         Standing(sys, r, Finished(Served(e.intent))).(world := World(Write(OptIn(sys.world.session, true), r.id, e), sys.world.drained))
  {
    var next := Standing(sys, r, Writing(e, false, 0));
    assert e.events[0..] == e.events;
    assert Become(next, |sys.threads|, Finished(Served(e.intent))).threads == sys.threads + [Thread(r, Finished(Served(e.intent)))];
  }

  /** An action with nothing in between does at once what the serial request does. */
  lemma ServeAlone(moves: seq<Move>, r: Request) returns (more: seq<Move>)
    requires Schedule(moves) && Simulated(r) && r.Act?
    requires After(moves).lock.None? && NewIds(After(moves), r)
    ensures Schedule(moves + more)
    ensures var sys := After(moves);
      var (s, response) := Handle(sys.world.session, r);
      After(moves + more) == System(World(s, sys.world.drained), None, sys.threads + [Thread(r, Finished(response))])
  {
    hide After, Schedule, Take, NewIds, Decide, IntentFor, FreshIds, Enabled, Standing, Finish, Underway, Write;
    var sys := After(moves);
    var step := Advance(|sys.threads|);
    LockAlone(sys, r);
    Extend(moves, Arrive(r));
    Extend(moves + [Arrive(r)], step);
    ReadAlone(sys, r);
    Extend(moves + [Arrive(r)] + [step], step);
    more := [Arrive(r), step, step];
    assert moves + more == moves + [Arrive(r)] + [step] + [step];
    HandledAlone(sys, r);
    var found := IntentFor(sys.world.session, r.id, r.gen);
    if found.Some? {
      DecideAlone(sys, r, found.value);
      Extend(moves + more, step);
      var d := Decide(found.value, sys.world.session.charges, r.action.value, r.params, r.gen);
      if d.Accepted? {
        WriteAlone(sys, r, d.effects);
        var rest := FinishAlone(moves + more + [step], |sys.threads|);
        assert moves + (more + [step] + rest) == moves + more + [step] + rest;
        more := more + [step] + rest;
      } else {
        assert moves + (more + [step]) == moves + more + [step];
        more := more + [step];
      }
    }
  }

  lemma HandledAlone(sys: System, r: Request)
    requires Simulated(r) && r.Act?
    ensures var (s, response) := Handle(sys.world.session, r);
      var result := System(World(s, sys.world.drained), None, sys.threads + [Thread(r, Finished(response))]);
      match IntentFor(sys.world.session, r.id, r.gen)
      case None => result == Standing(sys, r, Finished(GeneratorFailed))
      case Some(pi) =>
        match Decide(pi, sys.world.session.charges, r.action.value, r.params, r.gen)
        case Rejected(reason) => result == Standing(sys, r, Finished(Refused(reason)))
        case Accepted(e) =>
          result == Standing(sys, r, Finished(Served(e.intent))).(
            world := World(Write(OptIn(sys.world.session, true), r.id, e), sys.world.drained))
  {
    hide Decide, Adopt, Write;
    var s := OptIn(sys.world.session, true);
    assert IntentFor(s, r.id, r.gen) == IntentFor(sys.world.session, r.id, r.gen);
  }

  /** A creation that has queued its first event: the event names an intent that is not stored yet. */
  lemma BeginCreation(moves: seq<Move>, c: Request) returns (more: seq<Move>)
    requires Schedule(moves) && Simulated(c) && c.Create? && NewIds(After(moves), c)
    requires Plan(After(moves).world.session, c).Some?
    ensures Schedule(moves + more)
    ensures var sys, e := After(moves), Plan(After(moves).world.session, c).value;
      && Target(c).Some? && Target(c).value !in sys.world.session.intents
      && e.events != [] && e.events[0].IntentEvent? && e.events[0].kind == IntentCreated && e.events[0].intent.id == Target(c).value
      && After(moves + more) == Begun(sys, c, e)
  {
    hide After, Schedule, Take, Enabled, Begun;
    var sys := After(moves);
    var step := Advance(|sys.threads|);
    BeginSteps(sys, c);
    Extend(moves, Arrive(c));
    Extend(moves + [Arrive(c)], step);
    Extend(moves + [Arrive(c)] + [step], step);
    more := [Arrive(c), step, step];
    assert moves + more == moves + [Arrive(c)] + [step] + [step];
  }

  function Begun(sys: System, c: Request, e: Effects): System
    requires e.events != []
  {
    var s := OptIn(sys.world.session, true);
    System(World(s.(events := s.events + [e.events[0]]), sys.world.drained), sys.lock, sys.threads + [Thread(c, Writing(e, false, 1))])
  }

  lemma BeginSteps(sys: System, c: Request)
    requires Simulated(c) && c.Create? && NewIds(sys, c) && Plan(sys.world.session, c).Some?
    ensures var e, step := Plan(sys.world.session, c).value, Advance(|sys.threads|);
      && Target(c).Some? && Target(c).value !in sys.world.session.intents
      && e.events != [] && e.events[0].IntentEvent? && e.events[0].kind == IntentCreated && e.events[0].intent.id == Target(c).value
      && Enabled(sys, Arrive(c))
      && Enabled(Take(sys, Arrive(c)), step)
      && Enabled(Take(Take(sys, Arrive(c)), step), step)
      && Take(Take(Take(sys, Arrive(c)), step), step) == Begun(sys, c, e)
  {
    var e, t := Plan(sys.world.session, c).value, |sys.threads|;
    CreatedFirst(c.gen.intentBase.value, sys.world.session.charges, c.params, c.gen);
    hide CreateEffects, CreatedId;
    var s1 := Take(sys, Arrive(c));
    assert s1.threads == sys.threads + [Thread(c, Started)];
    assert NewIds(s1, c);
    var s2 := Take(s1, Advance(t));
    assert s2.threads == sys.threads + [Thread(c, Writing(e, false, 0))];
    assert Take(s2, Advance(t)).threads == sys.threads + [Thread(c, Writing(e, false, 1))];
  }

  /** What a creation queues: its creation event first, and then what its status says. */
  lemma CreatedFirst(base: PaymentIntent, charges: map<string, Charge>, params: Params, gen: Generated)
    ensures var e, n := CreateEffects(base, charges, params, gen), NewIntent(base, params, gen);
      && n.id == CreatedId(base, gen)
      && e.events != [] && e.events[0] == IntentEvent(IntentCreated, n)
      && (forall v | v in e.events :: Subject(v) == n.id)
  {
    KeepsId(base, params, gen);
    RecordSubjects(NewIntent(base, params, gen), charges, true, false, gen);
    hide NewIntent, CreatedId, LiveCharge, FillCharge;
  }

  lemma RecordSubjects(p: PaymentIntent, charges: map<string, Charge>, isCreate: bool, wasAuthorized: bool, gen: Generated)
    ensures forall v | v in RecordTransition(p, charges, isCreate, wasAuthorized, gen).events :: Subject(v) == p.id
  {
    var before := if isCreate then [IntentEvent(IntentCreated, p)] else [];
    ChargeSubjects(p, charges, ChargeSucceeded, true, gen, before, if wasAuthorized then ChargeCapturedEvent else ChargeSucceededEvent,
                   IntentSucceeded);
    ChargeSubjects(p, charges, ChargeSucceeded, false, gen, before, ChargeSucceededEvent, IntentAmountCapturableUpdated);
    ChargeSubjects(p, charges, ChargeFailed, false, gen, before, ChargeFailedEvent, IntentPaymentFailed);
    hide WithCharge;
  }

  lemma ChargeSubjects(p: PaymentIntent, charges: map<string, Charge>, status: ChargeStatus, captured: bool, gen: Generated,
                       before: seq<Event>, ck: EventType, ik: EventType)
    requires forall v | v in before :: Subject(v) == p.id
    ensures forall v | v in WithCharge(p, charges, status, captured, gen, before, ck, ik).events :: Subject(v) == p.id
  {
    hide LiveCharge;
  }

  /** An action that is accepted on an intent that is not stored, and a creation of that intent, both with new ids. */
  predicate Races(s: Session, c: Request, a: Request) {
    && Simulated(c) && c.Create? && Simulated(a) && a.Act? && Target(a) == Target(c)
    && FreshIds(s, c) && FreshIds(s, a) && NewChargeId(c) != NewChargeId(a)
    && Plan(s, c).Some? && Plan(s, a).Some?
  }

  /** What is left when the action runs after the creation's first event and before its other writes. */
  function Raced(s: Session, c: Request, a: Request): Session
    requires Plan(s, c).Some? && Plan(s, a).Some? && Plan(s, c).value.events != []
  {
    var ec, ea := Plan(s, c).value, Plan(s, a).value;
    s.(enabled := true,
       intents := s.intents[StoreId(c) := ec.intent],
       charges := PutCharge(PutCharge(s.charges, ea), ec),
       events := s.events + [ec.events[0]] + ea.events + ec.events[1..])
  }

  /** Both requests are served, and what the creation stores replaces what the action stored. */
  lemma ActDuringCreation(moves: seq<Move>, c: Request, a: Request) returns (more: seq<Move>)
    requires Schedule(moves) && After(moves).lock.None? && Races(After(moves).world.session, c, a)
    requires NewIds(After(moves), c) && NewIds(After(moves), a)
    ensures Schedule(moves + more)
    ensures var sys, s := After(moves), After(moves).world.session;
      && Plan(s, c).value.events != []
      && After(moves + more) == System(World(Raced(s, c, a), sys.world.drained), None, sys.threads +
           [Thread(c, Finished(Served(Plan(s, c).value.intent))), Thread(a, Finished(Served(Plan(s, a).value.intent)))])
  {
    hide After, Schedule, NewIds, Plan, Begun, Handle, FreshIds, Finish;
    var sys, s := After(moves), After(moves).world.session;
    var t, ec, ea := |sys.threads|, Plan(s, c).value, Plan(s, a).value;
    var m1 := BeginCreation(moves, c);
    BegunReady(sys, c, a, ec);
    var m2 := ServeAlone(moves + m1, a);
    HandleFollowsPlan(After(moves + m1).world, a);
    assert moves + m1 + m2 == (moves + m1) + m2;
    FinishesRaced(sys, c, a, ec, ea, After(moves + m1 + m2));
    var m3 := FinishAlone(moves + m1 + m2, t);
    more := m1 + m2 + m3;
    assert moves + more == moves + m1 + m2 + m3;
  }

  lemma BegunReady(sys: System, c: Request, a: Request, ec: Effects)
    requires Races(sys.world.session, c, a) && sys.lock.None? && NewIds(sys, a) && ec.events != []
    ensures var next := Begun(sys, c, ec);
      && next.lock.None? && NewIds(next, a)
      && next.world.session.(enabled := true) == next.world.session && next.world.drained == sys.world.drained
      && Plan(next.world.session, a) == Plan(sys.world.session, a)
  {
    hide Decide, Adopt, CreateEffects;
    var next := Begun(sys, c, ec);
    assert IntentFor(next.world.session, a.id, a.gen) == IntentFor(sys.world.session, a.id, a.gen);
  }

  lemma FinishesRaced(sys: System, c: Request, a: Request, ec: Effects, ea: Effects, last: System)
    requires Races(sys.world.session, c, a) && ec == Plan(sys.world.session, c).value && ea == Plan(sys.world.session, a).value
    requires ec.events != []
    requires last == System(World(Write(Begun(sys, c, ec).world.session, StoreId(a), ea), sys.world.drained), None,
                            Begun(sys, c, ec).threads + [Thread(a, Finished(Served(ea.intent)))])
    ensures Underway(last, |sys.threads|)
    ensures Finish(last, |sys.threads|) == System(World(Raced(sys.world.session, c, a), sys.world.drained), None, sys.threads +
      [Thread(c, Finished(Served(ec.intent))), Thread(a, Finished(Served(ea.intent)))])
  {
    hide Plan, FreshIds;
    var s := sys.world.session;
    assert Finish(last, |sys.threads|).threads ==
      sys.threads + [Thread(c, Finished(Served(ec.intent))), Thread(a, Finished(Served(ea.intent)))];
    assert Finish(last, |sys.threads|).world.session.intents == s.intents[StoreId(c) := ec.intent];
  }

  // When the outcome is one of a serial run.

  /** The same intents and Charges, and for every intent the same events. */
  ghost predicate SameOutcomeAs(v: World, w: World) {
    && v.session.intents == w.session.intents
    && v.session.charges == w.session.charges
    && forall id :: Of(v.Emitted(), id) == Of(w.Emitted(), id)
  }

  /** The events of a transition that stores a Charge: that of a new Charge, and that of the intent. */
  predicate ChargeEvents(events: seq<Event>, chargeId: string) {
    |events| == 2 && events[0].ChargeEvent? && events[0].kind != IntentCreated && events[0].charge.id == chargeId
  }

  /** A confirm of an intent without a live Charge. */
  lemma ConfirmFacts(p: PaymentIntent, charges: map<string, Charge>, params: Params, gen: Generated)
    requires LiveCharge(p, charges).None?
    ensures var q := ApplyConfirm(p, params, gen.paymentMethodId);
      var e := RecordTransition(q, charges, false, false, gen);
      && (q.status == RequiresAction || q.status == RequiresPaymentMethod || q.status == RequiresCapture || q.status == Succeeded)
      && e.intent.status == q.status
      && if q.status == RequiresAction then e == Effects(q, "", None, [IntentEvent(IntentRequiresAction, q)])
         else ChargeEvents(e.events, gen.chargeId) && e.intent.latestCharge == Some(gen.chargeId)
  {
    hide ApplyConfirm, LiveCharge, RecordTransition, WithCharge, ChargeEvents;
    var q := ApplyConfirm(p, params, gen.paymentMethodId);
    ConfirmLeaves(p, params, gen.paymentMethodId);
    SameLiveCharge(p, q, charges);
    RecordConfirmed(q, charges, gen);
    NewChargeEvents(q, charges, ChargeFailed, false, gen, ChargeFailedEvent, IntentPaymentFailed);
    NewChargeEvents(q, charges, ChargeSucceeded, false, gen, ChargeSucceededEvent, IntentAmountCapturableUpdated);
    NewChargeEvents(q, charges, ChargeSucceeded, true, gen, ChargeSucceededEvent, IntentSucceeded);
  }

  lemma ConfirmLeaves(p: PaymentIntent, params: Params, newId: string)
    ensures var q := ApplyConfirm(p, params, newId);
      && q.latestCharge == p.latestCharge && (q.status == RequiresPaymentMethod ==> q.lastPaymentError.Some?)
      && (q.status == RequiresAction || q.status == RequiresPaymentMethod || q.status == RequiresCapture || q.status == Succeeded)
  {
    hide OutcomeForPaymentMethod, GetString, GetParam;
  }

  lemma SameLiveCharge(p: PaymentIntent, q: PaymentIntent, charges: map<string, Charge>)
    requires p.latestCharge == q.latestCharge
    ensures LiveCharge(p, charges) == LiveCharge(q, charges)
  {
  }

  lemma NewChargeEvents(q: PaymentIntent, charges: map<string, Charge>, status: ChargeStatus, captured: bool, gen: Generated,
                        ck: EventType, ik: EventType)
    requires LiveCharge(q, charges).None? && ck != IntentCreated
    ensures var e := WithCharge(q, charges, status, captured, gen, [], ck, ik);
      ChargeEvents(e.events, gen.chargeId) && e.intent.status == q.status && e.intent.latestCharge == Some(gen.chargeId)
  {
    hide LiveCharge;
  }

  /** A creation: it is not canceled, and its Charge, if it has one, is its own. */
  lemma CreateFacts(base: PaymentIntent, charges: map<string, Charge>, params: Params, gen: Generated)
    ensures var e := CreateEffects(base, charges, params, gen);
      && e.events != [] && e.intent.status != Canceled
      && (e.intent.latestCharge == None || e.intent.latestCharge == Some(gen.chargeId))
      && (Confirmable(e.intent.status) ==> LiveCharge(e.intent, PutCharge(charges, e)).None?)
      && if e.intent.status == RequiresAction then
           e.charge.None? && e.events[1..] == [IntentEvent(IntentRequiresAction, e.intent)] && WaitsForAction(e.intent)
         else e.events[1..] == [] || ChargeEvents(e.events[1..], gen.chargeId)
  {
    var n := NewIntent(base, params, gen);
    CreatedFacts(base, params, gen);
    hide NewIntent;
    CreationEventFirst(n, charges, gen);
    var e, f := RecordTransition(n, charges, true, false, gen), RecordTransition(n, charges, false, false, gen);
    assert e.events[1..] == f.events;
    PlainRecordFacts(n, charges, gen);
    hide RecordTransition, LiveCharge;
    assert PutCharge(charges, e) == PutCharge(charges, f);
  }

  /** What a confirm that asks for another step leaves. */
  predicate WaitsForAction(p: PaymentIntent) {
    && p.status == RequiresAction && p.nextAction == Some("use_stripe_sdk") && p.lastPaymentError == None
    && OutcomeForPaymentMethod(GetString(p.paymentMethod)) == OutcomeRequiresAction
  }

  lemma CreatedFacts(base: PaymentIntent, params: Params, gen: Generated)
    ensures var n := NewIntent(base, params, gen);
      && n.latestCharge == None
      && n.status != Canceled && n.status != Processing
      && (n.status == RequiresAction ==> WaitsForAction(n))
  {
    ConfirmedStatus(Prepared(base, params, gen), params, gen.paymentMethodId);
    hide ApplyConfirm, WaitsForAction, OutcomeForPaymentMethod, GetParam, BoolParam, GetString;
  }

  lemma ConfirmedStatus(p: PaymentIntent, params: Params, newId: string)
    ensures var q := ApplyConfirm(p, params, newId);
      && q.latestCharge == p.latestCharge
      && q.status != Canceled && q.status != Processing
      && (q.status == RequiresAction ==> WaitsForAction(q))
  {
    hide OutcomeForPaymentMethod, GetParam, GetString;
  }

  lemma PlainRecordFacts(n: PaymentIntent, charges: map<string, Charge>, gen: Generated)
    requires n.latestCharge == None && n.status != Canceled && n.status != Processing
    ensures var f := RecordTransition(n, charges, false, false, gen);
      && f.intent.status == n.status
      && (f.intent.latestCharge == None || f.intent.latestCharge == Some(gen.chargeId))
      && (Confirmable(n.status) ==> LiveCharge(f.intent, PutCharge(charges, f)).None?)
      && if n.status == RequiresAction then f == Effects(n, "", None, [IntentEvent(IntentRequiresAction, n)])
         else f.events == [] || ChargeEvents(f.events, gen.chargeId)
  {
    assert forall v: Event :: [] + [v] == [v];
  }

  /** An accepted action other than an update, on an intent taken over: a confirm or a cancellation. */
  lemma AdoptedFacts(base: PaymentIntent, id: string, charges: map<string, Charge>, action: Action, params: Params, gen: Generated)
    requires action != Update && Decide(Adopt(base, id), charges, action, params, gen).Accepted?
    ensures var e := Decide(Adopt(base, id), charges, action, params, gen).effects;
      && (action == Confirm || action == Cancel)
      && (ChargeEvents(e.events, gen.chargeId)
          || (action == Cancel && e.charge.None? && e.events == [IntentEvent(IntentCanceled, e.intent)])
          || (action == Confirm && e.charge.None? && e.events == [IntentEvent(IntentRequiresAction, e.intent)] && Confirmed(e.intent, params)))
  {
    var p := Adopt(base, id);
    assert LiveCharge(p, charges).None? && p.status == RequiresConfirmation;
    hide Adopt;
    match action
    case Confirm =>
      ConfirmFacts(p, charges, params, gen);
      ConfirmedFacts(p, params, gen.paymentMethodId);
      hide ApplyConfirm, RecordTransition;
    case Cancel =>
      assert forall v: Event :: [] + [v] == [v];
    case _ =>
  }

  /** A confirm with these parameters leaves an intent with this payment method as it is. */
  predicate Confirmed(p: PaymentIntent, params: Params) {
    && WaitsForAction(p)
    && (GetParam(params.paymentMethod) != "" ==> p.paymentMethod == Str(GetParam(params.paymentMethod)))
  }

  lemma ConfirmedFacts(p: PaymentIntent, params: Params, newId: string)
    ensures var q := ApplyConfirm(p, params, newId);
      q.status == RequiresAction ==> Confirmed(q, params)
  {
    hide OutcomeForPaymentMethod;
  }

  lemma ConfirmAgain(p: PaymentIntent, params: Params, newId: string)
    requires Confirmed(p, params)
    ensures ApplyConfirm(p, params, newId) == p && ConfirmHasPaymentMethod(p.paymentMethod, params)
  {
    assert GetString(p.paymentMethod) != "" by {
      assert "" !in MAGIC_PAYMENT_METHODS;
    }
    hide OutcomeForPaymentMethod;
  }

  /** The action on the intent the creation has stored. */
  function Second(s: Session, c: Request, a: Request): Decision
    requires Plan(s, c).Some? && a.Act? && a.action.Some?
  {
    var ec := Plan(s, c).value;
    Decide(ec.intent, PutCharge(s.charges, ec), a.action.value, a.params, a.gen)
  }

  lemma SecondFacts(s: Session, c: Request, a: Request)
    requires Races(s, c, a) && a.action != Some(Update) && Second(s, c, a).Accepted?
    ensures var ec, e := Plan(s, c).value, Second(s, c, a).effects;
      e.intent == ec.intent ==> ec.intent.status == RequiresAction && e.events == [IntentEvent(IntentRequiresAction, ec.intent)]
  {
    hide CreateEffects, Decide, LiveCharge, PutCharge;
    var ec := Plan(s, c).value;
    CreateFacts(c.gen.intentBase.value, s.charges, c.params, c.gen);
    ChangesIntent(ec.intent, PutCharge(s.charges, ec), a.action.value, a.params, a.gen);
  }

  /** An action that leaves an intent as it was is a confirm that asks for another step again. */
  lemma ChangesIntent(p: PaymentIntent, charges: map<string, Charge>, action: Action, params: Params, gen: Generated)
    requires action != Update && Decide(p, charges, action, params, gen).Accepted?
    requires p.status != Canceled && p.latestCharge != Some(gen.chargeId)
    requires Confirmable(p.status) ==> LiveCharge(p, charges).None?
    ensures var e := Decide(p, charges, action, params, gen).effects;
      e.intent == p ==> p.status == RequiresAction && e.events == [IntentEvent(IntentRequiresAction, p)]
  {
    match action
    case Confirm =>
      ConfirmFacts(p, charges, params, gen);
      hide RecordTransition, ApplyConfirm;
    case Capture =>
      CaptureRecorded(ApplyCapture(p, params), charges, gen);
      hide RecordTransition;
    case Cancel =>
  }

  /** The events that decide: those of the action and the later ones of the creation. */
  lemma RaceFacts(s: Session, c: Request, a: Request)
    requires Races(s, c, a) && a.action != Some(Update)
    ensures var ec, ea := Plan(s, c).value, Plan(s, a).value;
      && ec.events != [] && ea.events != [] && ea.events[0].kind != IntentCreated
      && (Second(s, c, a).Accepted? && Second(s, c, a).effects.intent == ec.intent ==>
            ec.events[1..] == [IntentEvent(IntentRequiresAction, ec.intent)] == Second(s, c, a).effects.events)
      && (ea.events == ec.events[1..] ==>
            && ec.charge.None? && ea.charge.None?
            && Second(s, c, a) == Accepted(Effects(ec.intent, "", None, ec.events[1..])))
  {
    hide CreateEffects, Decide;
    var ec, ea := Plan(s, c).value, Plan(s, a).value;
    CreateFacts(c.gen.intentBase.value, s.charges, c.params, c.gen);
    AdoptedFacts(a.gen.intentBase.value, a.id, s.charges, a.action.value, a.params, a.gen);
    if Second(s, c, a).Accepted? {
      SecondFacts(s, c, a);
    }
    if ea.events == ec.events[1..] {
      assert a.action == Some(Confirm) && ec.intent == ea.intent && Confirmed(ec.intent, a.params);
      ConfirmsAgain(ec.intent, PutCharge(s.charges, ec), a.params, a.gen);
    }
  }

  lemma ConfirmsAgain(p: PaymentIntent, charges: map<string, Charge>, params: Params, gen: Generated)
    requires Confirmed(p, params) && LiveCharge(p, charges).None?
    ensures Decide(p, charges, Confirm, params, gen) == Accepted(Effects(p, "", None, [IntentEvent(IntentRequiresAction, p)]))
  {
    ConfirmAgain(p, params, gen.paymentMethodId);
    ConfirmFacts(p, charges, params, gen);
    hide ApplyConfirm, RecordTransition, ConfirmHasPaymentMethod;
  }

  lemma DecideSubjects(p: PaymentIntent, charges: map<string, Charge>, action: Action, params: Params, gen: Generated)
    requires Decide(p, charges, action, params, gen).Accepted?
    ensures forall v | v in Decide(p, charges, action, params, gen).effects.events :: Subject(v) == p.id
  {
    hide RecordTransition, OutcomeForPaymentMethod;
    match action
    case Confirm =>
      ConfirmKeepsId(p, params, gen.paymentMethodId);
      hide ApplyConfirm;
      RecordSubjects(ApplyConfirm(p, params, gen.paymentMethodId), charges, false, false, gen);
    case Capture => RecordSubjects(ApplyCapture(p, params), charges, false, true, gen);
    case Cancel => RecordSubjects(ApplyCancel(p, params), charges, false, false, gen);
    case Update =>
  }

  /** Everything the two requests queue, in either order, is about the one intent. */
  lemma RaceSubjects(s: Session, c: Request, a: Request)
    requires Races(s, c, a)
    ensures var ec, ea := Plan(s, c).value, Plan(s, a).value;
      && (forall v | v in ec.events :: Subject(v) == a.id)
      && (forall v | v in ea.events :: Subject(v) == a.id)
      && (Second(s, c, a).Accepted? ==> forall v | v in Second(s, c, a).effects.events :: Subject(v) == a.id)
  {
    var ec := Plan(s, c).value;
    CreatedFirst(c.gen.intentBase.value, s.charges, c.params, c.gen);
    RecordKeepsId(NewIntent(c.gen.intentBase.value, c.params, c.gen), s.charges, true, false, c.gen);
    hide Decide, NewIntent, RecordTransition;
    DecideSubjects(Adopt(a.gen.intentBase.value, a.id), s.charges, a.action.value, a.params, a.gen);
    if Second(s, c, a).Accepted? {
      DecideSubjects(ec.intent, PutCharge(s.charges, ec), a.action.value, a.params, a.gen);
    }
  }

  lemma RecordKeepsId(p: PaymentIntent, charges: map<string, Charge>, isCreate: bool, wasAuthorized: bool, gen: Generated)
    ensures RecordTransition(p, charges, isCreate, wasAuthorized, gen).intent.id == p.id
  {
    hide LiveCharge, FillCharge;
  }

  /** One serial request, seen from its plan. */
  lemma StepWrites(w: World, r: Request)
    requires Simulated(r)
    ensures var v := Step(w, r);
      match Plan(w.session, r)
      case Some(e) =>
        && v.session.intents == w.session.intents[StoreId(r) := e.intent]
        && v.session.charges == PutCharge(w.session.charges, e)
        && v.Emitted() == w.Emitted() + e.events
      case None =>
        v.session.intents == w.session.intents && v.session.charges == w.session.charges && v.Emitted() == w.Emitted()
  {
    hide Plan, Handle, Step, PutCharge, Simulated;
    HandleFollowsPlan(w, r);
    var plan := Plan(w.session, r);
    if plan.Some? {
      assert w.drained + (w.session.events + plan.value.events) == w.drained + w.session.events + plan.value.events;
    }
  }

  lemma PlanSecond(s: Session, v: Session, c: Request, a: Request)
    requires Races(s, c, a)
    requires var ec := Plan(s, c).value; v.intents == s.intents[StoreId(c) := ec.intent] && v.charges == PutCharge(s.charges, ec)
    ensures Plan(v, a) == match Second(s, c, a) case Accepted(e) => Some(e) case Rejected(_) => None
  {
    hide Decide, CreateEffects, FreshIds;
  }

  lemma CreateThenAct(w: World, c: Request, a: Request)
    requires Races(w.session, c, a)
    ensures var s, u := w.session, Step(Step(w, c), a);
      var ec := Plan(s, c).value;
      match Second(s, c, a)
      case Accepted(e) =>
        && u.session.intents == s.intents[a.id := ec.intent][a.id := e.intent]
        && u.session.charges == PutCharge(PutCharge(s.charges, ec), e)
        && u.Emitted() == w.Emitted() + (ec.events + e.events)
      case Rejected(_) =>
        && u.session.intents == s.intents[a.id := ec.intent]
        && u.session.charges == PutCharge(s.charges, ec)
        && u.Emitted() == w.Emitted() + ec.events
  {
    hide Plan, Step, Second, FreshIds, PutCharge;
    StepWrites(w, c);
    StepWrites(Step(w, c), a);
    PlanSecond(w.session, Step(w, c).session, c, a);
    if Second(w.session, c, a).Accepted? {
      var ec, e := Plan(w.session, c).value, Second(w.session, c, a).effects;
      assert w.Emitted() + ec.events + e.events == w.Emitted() + (ec.events + e.events);
    }
  }

  lemma PlanAgain(s: Session, v: Session, c: Request)
    requires c.Create?
    ensures Plan(v, c) == Plan(s, c)
  {
    hide CreateEffects;
    if c.gen.intentBase.Some? {
      CreateLooksAtNoCharge(c.gen.intentBase.value, v.charges, s.charges, c.params, c.gen);
    }
  }

  lemma ActThenCreate(w: World, c: Request, a: Request)
    requires Races(w.session, c, a)
    ensures var s, u := w.session, Step(Step(w, a), c);
      var ec, ea := Plan(s, c).value, Plan(s, a).value;
      && u.session.intents == s.intents[a.id := ea.intent][a.id := ec.intent]
      && u.session.charges == PutCharge(PutCharge(s.charges, ea), ec)
      && u.Emitted() == w.Emitted() + (ea.events + ec.events)
  {
    hide Plan, Step, FreshIds, PutCharge;
    StepWrites(w, a);
    StepWrites(Step(w, a), c);
    PlanAgain(w.session, Step(w, a).session, c);
    var ec, ea := Plan(w.session, c).value, Plan(w.session, a).value;
    assert w.Emitted() + ea.events + ec.events == w.Emitted() + (ea.events + ec.events);
  }

  lemma SameEventsOf(events: seq<Event>, a: seq<Event>, b: seq<Event>, id: string)
    requires forall v | v in a :: Subject(v) == id
    requires forall v | v in b :: Subject(v) == id
    ensures (forall other :: Of(events + a, other) == Of(events + b, other)) <==> a == b
  {
    hide Of, Subject;
    OfAppend(events, a, id);
    OfAppend(events, b, id);
    OfOwn(a, id, id);
    OfOwn(b, id, id);
    var x := Of(events, id);
    assert (x + a)[|x|..] == a && (x + b)[|x|..] == b;
    assert Of(events + a, id) == x + a && Of(events + b, id) == x + b;
  }

  /**
   * A confirm or cancellation that runs between the first event of a creation and its other writes has the
   * outcome of no serial order of the two, except that both may confirm the same intent into waiting for the
   * same further step.
   */
  lemma RaceExact(w: World, c: Request, a: Request)
    requires Races(w.session, c, a) && a.action != Some(Update)
    ensures Plan(w.session, c).value.events != []
    ensures var v := World(Raced(w.session, c, a), w.drained);
      && (SameOutcomeAs(v, Step(Step(w, c), a)) <==> Plan(w.session, a).value.events == Plan(w.session, c).value.events[1..])
      && !SameOutcomeAs(v, Step(Step(w, a), c))
  {
    hide Plan, Step, Second, Raced, Of, Subject, PutCharge, FreshIds, SameOutcomeAs;
    RaceFacts(w.session, c, a);
    RaceSubjects(w.session, c, a);
    CreateThenAct(w, c, a);
    ActThenCreate(w, c, a);
    RacedParts(w, c, a);
    RaceCases(w, a.id, Plan(w.session, c).value, Plan(w.session, a).value, Second(w.session, c, a),
              World(Raced(w.session, c, a), w.drained), Step(Step(w, c), a), Step(Step(w, a), c));
  }

  /** The two serial outcomes `u` and `x` and the other one, `v`, by what the requests write. */
  lemma RaceCases(w: World, id: string, ec: Effects, ea: Effects, second: Decision, v: World, u: World, x: World)
    requires ec.events != [] && ea.events != [] && ec.events[0].kind == IntentCreated != ea.events[0].kind
    requires second.Accepted? && second.effects.intent == ec.intent ==> ec.events[1..] == second.effects.events
    requires ea.events == ec.events[1..] ==>
      ec.charge.None? && ea.charge.None? && second == Accepted(Effects(ec.intent, "", None, ec.events[1..]))
    requires forall e | e in ec.events :: Subject(e) == id
    requires forall e | e in ea.events :: Subject(e) == id
    requires second.Accepted? ==> forall e | e in second.effects.events :: Subject(e) == id
    requires v.session.intents == w.session.intents[id := ec.intent]
    requires v.session.charges == PutCharge(PutCharge(w.session.charges, ea), ec)
    requires v.Emitted() == w.Emitted() + ([ec.events[0]] + ea.events + ec.events[1..])
    requires match second
      case Accepted(e) =>
        && u.session.intents == w.session.intents[id := ec.intent][id := e.intent]
        && u.session.charges == PutCharge(PutCharge(w.session.charges, ec), e)
        && u.Emitted() == w.Emitted() + (ec.events + e.events)
      case Rejected(_) => u.Emitted() == w.Emitted() + ec.events
    requires x.Emitted() == w.Emitted() + (ea.events + ec.events)
    ensures SameOutcomeAs(v, u) <==> ea.events == ec.events[1..]
    ensures !SameOutcomeAs(v, x)
  {
    hide Of, Subject, World.Emitted;
    var raced := [ec.events[0]] + ea.events + ec.events[1..];
    assert forall e | e in raced :: e in ec.events || e in ea.events;
    SameEventsOf(w.Emitted(), raced, ea.events + ec.events, id);
    assert raced[0] == ec.events[0] && (ea.events + ec.events)[0] == ea.events[0];
    var later := if second.Accepted? then second.effects.events else [];
    assert ec.events + [] == ec.events;
    SameEventsOf(w.Emitted(), raced, ec.events + later, id);
    RaceSequences(ec.events, ea.events, later);
    assert second.Accepted? ==> v.session.intents[id] == ec.intent && u.session.intents[id] == second.effects.intent;
    assert u.Emitted() == w.Emitted() + (ec.events + later);
    if ea.events == ec.events[1..] {
      assert later == ec.events[1..] && raced == ec.events + later;
      assert v.session.intents == u.session.intents && v.session.charges == u.session.charges;
      assert SameOutcomeAs(v, u);
    }
    assert SameOutcomeAs(v, u) ==> raced == ec.events + later;
  }

  lemma RacedParts(w: World, c: Request, a: Request)
    requires Races(w.session, c, a)
    ensures var ec, ea := Plan(w.session, c).value, Plan(w.session, a).value;
      && ec.events != [] && ec.events[0].kind == IntentCreated
      && var v := World(Raced(w.session, c, a), w.drained);
      && v.session.intents == w.session.intents[a.id := ec.intent]
      && v.session.charges == PutCharge(PutCharge(w.session.charges, ea), ec)
      && v.Emitted() == w.Emitted() + ([ec.events[0]] + ea.events + ec.events[1..])
  {
    CreatedFirst(c.gen.intentBase.value, w.session.charges, c.params, c.gen);
    hide CreateEffects, Decide, FreshIds, PutCharge, IntentFor;
    RacedEmits(w, Raced(w.session, c, a), Plan(w.session, c).value.events, Plan(w.session, a).value.events);
  }

  lemma RacedEmits(w: World, s: Session, create: seq<Event>, act: seq<Event>)
    requires create != [] && s.events == w.session.events + [create[0]] + act + create[1..]
    ensures World(s, w.drained).Emitted() == w.Emitted() + ([create[0]] + act + create[1..])
  {
  }

  lemma RaceSequences(create: seq<Event>, act: seq<Event>, later: seq<Event>)
    requires create != [] && act != []
    ensures [create[0]] + act + create[1..] == create + later ==>
      && |later| == |act|
      && (create[1..] == later ==> act == create[1..])
    ensures create[1..] == later == act ==> [create[0]] + act + create[1..] == create + later
  {
    var raced := [create[0]] + act + create[1..];
    assert |raced| == |act| + |create| && |create + later| == |create| + |later|;
    if raced == create + later && create[1..] == later {
      assert raced[1..|act| + 1] == act;
      assert (create + later)[1..|create|] == create[1..];
    }
    assert create == [create[0]] + create[1..];
  }

  /**
   * So a schedule that lets a confirm or cancellation run after the first event of a creation leaves what no
   * serial order of the two leaves, but for that exception.
   */
  lemma RaceIsNotSerial(moves: seq<Move>, c: Request, a: Request) returns (after: seq<Move>)
    requires Schedule(moves) && After(moves).lock.None?
    requires Races(After(moves).world.session, c, a) && NewIds(After(moves), c) && NewIds(After(moves), a)
    requires a.action != Some(Update)
    ensures moves <= after && Schedule(after) && (Quiet(After(moves)) ==> Quiet(After(after)))
    ensures var s, w, v := After(moves).world.session, After(moves).world, After(after).world;
      && Plan(s, c).value.events != []
      && (SameOutcomeAs(v, Step(Step(w, c), a)) <==> Plan(s, a).value.events == Plan(s, c).value.events[1..])
      && !SameOutcomeAs(v, Step(Step(w, a), c))
  {
    hide Schedule, Plan, NewIds, Step, Raced, SameOutcomeAs, FreshIds;
    var more := ActDuringCreation(moves, c, a);
    after := moves + more;
    RaceExact(After(moves).world, c, a);
    hide After;
  }

  /** An update in the same place is lost: the outcome is that of a creation alone, or after the update. */
  lemma UpdateLost(w: World, c: Request, a: Request)
    requires Races(w.session, c, a) && a.action == Some(Update)
    ensures Plan(w.session, c).value.events != []
    ensures SameOutcomeAs(World(Raced(w.session, c, a), w.drained), Step(w, c))
    ensures SameOutcomeAs(World(Raced(w.session, c, a), w.drained), Step(Step(w, a), c))
  {
    hide Plan, Step, Raced, Of, FreshIds, CreatedId;
    ActThenCreate(w, c, a);
    RacedParts(w, c, a);
    StepWrites(w, c);
    UpdateRecordsNothing(w.session, a);
    var ec, ea := Plan(w.session, c).value, Plan(w.session, a).value;
    assert [ec.events[0]] + ea.events + ec.events[1..] == ec.events == ea.events + ec.events;
  }

  lemma UpdateRecordsNothing(s: Session, a: Request)
    requires a.Act? && a.action == Some(Update) && Plan(s, a).Some?
    ensures Plan(s, a).value.charge == None && Plan(s, a).value.events == []
  {
    hide ApplyUpdate;
  }

  lemma {:induction false} CountCanceledAttempts(attempts: seq<Attempt>)
    ensures Count(RenderAttempts(attempts), IntentCanceled) == 0
  {
    if attempts != [] {
      var n := |attempts| - 1;
      CountCanceledAttempts(attempts[..n]);
      var last := match attempts[n] case ActionRequired => [IntentRequiresAction]
                                    case Declined => [ChargeFailedEvent, IntentPaymentFailed];
      CountAppend(RenderAttempts(attempts[..n]), last, IntentCanceled);
      CountShort(IntentRequiresAction, IntentRequiresAction, IntentCanceled);
      CountShort(ChargeFailedEvent, IntentPaymentFailed, IntentCanceled);
    }
  }

  /** Only a canceled intent has a cancellation among its events. */
  lemma CanceledTells(t: Trace, status: Status)
    requires TellsStatus(t, status) && Count(Render(t), IntentCanceled) > 0
    ensures status == Canceled
  {
    var head := if t.created then [IntentCreated] else [];
    CountShort(IntentCreated, IntentCreated, IntentCanceled);
    CountAppend(head, RenderAttempts(t.attempts), IntentCanceled);
    CountAppend(head + RenderAttempts(t.attempts), RenderEnding(t.ending), IntentCanceled);
    CountCanceledAttempts(t.attempts);
    CountShort(ChargeSucceededEvent, IntentSucceeded, IntentCanceled);
    CountShort(ChargeSucceededEvent, IntentAmountCapturableUpdated, IntentCanceled);
    CountShort(ChargeCapturedEvent, IntentSucceeded, IntentCanceled);
    if t.ending.Authorized? {
      CountAppend([ChargeSucceededEvent, IntentAmountCapturableUpdated], if t.ending.after == CaptureDone then
                    [ChargeCapturedEvent, IntentSucceeded] else [], IntentCanceled);
    }
  }

  lemma {:induction false} CountKind(events: seq<Event>, v: Event, id: string)
    requires v in events && Subject(v) == id
    ensures Count(About(events, id), v.kind) > 0
  {
    var n := |events| - 1;
    var before := About(events[..n], id);
    CountShort(events[n].kind, events[n].kind, v.kind);
    if Subject(events[n]) == id {
      CountAppend(before, [events[n].kind], v.kind);
    } else {
      assert before + [] == before;
    }
    if v != events[n] {
      CountKind(events[..n], v, id);
    }
  }

  /** After a cancellation during a creation, no trace that has the events of the intent tells its status. */
  lemma CancelBreaksTrace(w: World, c: Request, a: Request, t: Trace)
    requires Races(w.session, c, a) && a.action == Some(Cancel)
    ensures Plan(w.session, c).value.events != []
    ensures var v := World(Raced(w.session, c, a), w.drained);
      && a.id in v.session.intents
      && !(About(v.Emitted(), a.id) == Render(t) && TellsStatus(t, v.session.intents[a.id].status))
  {
    RacedParts(w, c, a);
    RaceSubjects(w.session, c, a);
    CreateFacts(c.gen.intentBase.value, w.session.charges, c.params, c.gen);
    AdoptedFacts(a.gen.intentBase.value, a.id, w.session.charges, Cancel, a.params, a.gen);
    CancelQueues(Adopt(a.gen.intentBase.value, a.id), w.session.charges, a.params, a.gen);
    hide Plan, Raced, About, Render, TellsStatus, Count, FreshIds, CreateEffects, CreatedId;
    var v := World(Raced(w.session, c, a), w.drained);
    var ea := Plan(w.session, a).value;
    assert ea.events[0] in v.Emitted();
    CountKind(v.Emitted(), ea.events[0], a.id);
    if About(v.Emitted(), a.id) == Render(t) && TellsStatus(t, v.session.intents[a.id].status) {
      CanceledTells(t, v.session.intents[a.id].status);
    }
  }

  lemma CancelQueues(p: PaymentIntent, charges: map<string, Charge>, params: Params, gen: Generated)
    requires Decide(p, charges, Cancel, params, gen).Accepted?
    ensures var e := Decide(p, charges, Cancel, params, gen).effects; e.events != [] && e.events[0].kind == IntentCanceled
  {
  }

  // Two captures of one intent.

  /** An accepted action with nothing in between makes its writes and is served. */
  lemma ServeAccepted(moves: seq<Move>, a: Request, e: Effects) returns (after: seq<Move>)
    requires Schedule(moves) && Simulated(a) && a.Act? && After(moves).lock.None? && NewIds(After(moves), a)
    requires Plan(After(moves).world.session, a) == Some(e)
    ensures moves <= after && Schedule(after) && After(after) == Served1(After(moves), a, e)
  {
    hide After, Schedule, NewIds, Plan, Handle;
    var more := ServeAlone(moves, a);
    after := moves + more;
    HandleFollowsPlan(After(moves).world, a);
  }

  function Served1(sys: System, a: Request, e: Effects): System {
    System(World(Write(OptIn(sys.world.session, true), StoreId(a), e), sys.world.drained), None,
           sys.threads + [Thread(a, Finished(Served(e.intent)))])
  }

  /** A request that is given ids of its own still has new ones after another has been served. */
  lemma StillNew(sys: System, a: Request, e: Effects, b: Request)
    requires NewIds(sys, b) && b.Act? && a.Act? && NewChargeId(a) != NewChargeId(b)
    requires e.charge.Some? ==> e.chargeId == a.gen.chargeId || e.chargeId in sys.world.session.charges
    ensures NewIds(Served1(sys, a, e), b)
  {
  }

  predicate WholeCapture(a: Request, c: Request) {
    && Simulated(a) && a.Act? && Target(a) == Target(c)
    && a.action == Some(Capture) && a.params.amountToCapture == None
  }

  /** A capture of a stored intent that has been authorized is accepted, and works on a Charge of its own or the intent's. */
  lemma CapturePlanned(s: Session, a: Request, c: Request)
    requires WholeCapture(a, c) && a.id in s.intents && s.intents[a.id].status == RequiresCapture
    ensures Plan(s, a).Some?
    ensures var e := Plan(s, a).value; e.charge.Some? ==> e.chargeId == a.gen.chargeId || e.chargeId in s.charges
  {
    DecidedChargeId(s.intents[a.id], s.charges, Capture, a.params, a.gen);
    hide RecordTransition;
  }

  lemma ConfirmPlanned(s: Session, a: Request)
    requires a.Act? && Plan(s, a).Some?
    ensures var e := Plan(s, a).value; e.charge.Some? ==> e.chargeId == a.gen.chargeId || e.chargeId in s.charges
  {
    DecidedChargeId(IntentFor(s, a.id, a.gen).value, s.charges, a.action.value, a.params, a.gen);
    hide Decide;
  }

  /** The requests of the lemma below have new Charge ids, all different. */
  predicate NewAndDifferent(sys: System, rs: seq<Request>) {
    && (forall i | 0 <= i < |rs| :: NewIds(sys, rs[i]))
    && forall i, j | 0 <= i < j < |rs| :: NewChargeId(rs[i]) != NewChargeId(rs[j])
  }

  lemma RaceParties(s: Session, c: Request, a: Request)
    requires Races(s, c, a)
    ensures Simulated(c) && c.Create? && Simulated(a) && a.Act? && Target(a) == Target(c) && StoreId(a) == StoreId(c) == a.id
    ensures Plan(s, c).Some? && Plan(s, a).Some? && Plan(s, c).value.events != []
    ensures Plan(s, c).value.charge.Some? ==> Plan(s, c).value.chargeId == c.gen.chargeId
  {
    CreatedFirst(c.gen.intentBase.value, s.charges, c.params, c.gen);
    CreatedFacts(c.gen.intentBase.value, c.params, c.gen);
    hide Decide, NewIntent, FillCharge;
  }

  lemma BegunNew(sys: System, c: Request, b: Request, e: Effects)
    requires NewIds(sys, b) && b.Act? && NewChargeId(c) != NewChargeId(b) && e.events != []
    ensures NewIds(Begun(sys, c, e), b)
  {
  }

  lemma StoredBy(sys: System, a: Request, e: Effects)
    ensures var s := Served1(sys, a, e).world.session; StoreId(a) in s.intents && s.intents[StoreId(a)] == e.intent
    ensures Served1(sys, a, e).lock.None?
  {
  }

  lemma CreationStands(sys: System, c: Request, ec: Effects, a: Request, e1: Effects, b: Request, e2: Effects)
    requires ec.events != []
    ensures var next := Served1(Served1(Begun(sys, c, ec), a, e1), b, e2);
      && |next.threads| == |sys.threads| + 3
      && next.threads[|sys.threads|] == Thread(c, Writing(ec, false, 1)) && Underway(next, |sys.threads|)
      && next.threads[|sys.threads| + 2] == Thread(b, Finished(Served(e2.intent)))
  {
  }

  lemma CreationFinishes(sys: System, t: nat, b: Request)
    requires Underway(sys, t) && sys.threads[t].request.Create? && b.Act?
    requires var Thread(c, Writing(e, _, _)) := sys.threads[t];
      (e.charge.Some? ==> e.chargeId == c.gen.chargeId) && NewChargeId(c) != NewChargeId(b)
    requires NewIds(sys, b)
    ensures var next, Thread(c, Writing(e, _, _)) := Finish(sys, t), sys.threads[t];
      && next.lock == sys.lock && NewIds(next, b)
      && StoreId(c) in next.world.session.intents && next.world.session.intents[StoreId(c)] == e.intent
      && |next.threads| == |sys.threads| && forall u: nat | u < |sys.threads| && u != t :: next.threads[u] == sys.threads[u]
  {
  }

  /**
   * A creation that is confirmed with manual capture, and, before it stores the intent, a confirm and a capture
   * of it: the creation then stores the intent as authorized, and it is captured a second time.
   */
  lemma TwoCaptures(moves: seq<Move>, c: Request, confirm: Request, first: Request, second: Request) returns (after: seq<Move>)
    requires Schedule(moves) && After(moves).lock.None?
    requires Races(After(moves).world.session, c, confirm) && WholeCapture(first, c) && WholeCapture(second, c)
    requires NewAndDifferent(After(moves), [c, confirm, first, second])
    requires var s := After(moves).world.session;
      Plan(s, c).value.intent.status == RequiresCapture && Plan(s, confirm).value.intent.status == RequiresCapture
    ensures moves <= after && Schedule(after)
    ensures var sys, n := After(after), |After(moves).threads|;
      && n + 3 < |sys.threads|
      && Captures(sys.threads[n + 2], confirm.id) && Captures(sys.threads[n + 3], confirm.id)
  {
    hide After, Schedule, Races, Plan, NewIds, Begun, Served1, Finish, Underway, Write, FreshIds, CreatedId;
    var sys, s, t := After(moves), After(moves).world.session, |After(moves).threads|;
    var all := [c, confirm, first, second];
    assert all[0] == c && all[1] == confirm && all[2] == first && all[3] == second;
    RaceParties(s, c, confirm);
    var ec, e1 := Plan(s, c).value, Plan(s, confirm).value;
    // The creation queues its first event.
    var more := BeginCreation(moves, c);
    var m1 := moves + more;
    BegunReady(sys, c, confirm, ec);
    BegunNew(sys, c, first, ec);
    BegunNew(sys, c, second, ec);
    // The intent is taken over, confirmed and captured.
    var sys1 := After(m1);
    ConfirmPlanned(sys1.world.session, confirm);
    var m2 := ServeAccepted(m1, confirm, e1);
    StillNew(sys1, confirm, e1, first);
    StillNew(sys1, confirm, e1, second);
    StoredBy(sys1, confirm, e1);
    var sys2 := After(m2);
    CapturePlanned(sys2.world.session, first, c);
    var e2 := Plan(sys2.world.session, first).value;
    var m3 := ServeAccepted(m2, first, e2);
    StillNew(sys2, first, e2, second);
    StoredBy(sys2, first, e2);
    // The creation stores its own intent.
    CreationStands(sys, c, ec, confirm, e1, first, e2);
    var sys3 := After(m3);
    CreationFinishes(sys3, t, second);
    more := FinishAlone(m3, t);
    var m4 := m3 + more;
    // It is captured again.
    var sys4 := After(m4);
    CapturePlanned(sys4.world.session, second, c);
    var e3 := Plan(sys4.world.session, second).value;
    after := ServeAccepted(m4, second, e3);
    LastServed(sys4, second, e3);
  }

  lemma LastServed(sys: System, a: Request, e: Effects)
    ensures var next := Served1(sys, a, e);
      && |next.threads| == |sys.threads| + 1
      && next.threads[|sys.threads|] == Thread(a, Finished(Served(e.intent)))
      && forall u: nat | u < |sys.threads| :: next.threads[u] == sys.threads[u]
  {
  }
}
