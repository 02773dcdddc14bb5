/** Every interleaving of concurrent requests has the effect of the serial run in the order of their commits. */
module Serializability {
  import opened Json
  import opened PaymentIntents
  import opened Sessions
  import opened Lifecycle
  import opened Concurrency

  // The events of one intent.

  function Of(events: seq<Event>, id: string): seq<Event> {
    if events == [] then []
    else
      var n := |events| - 1;
      Of(events[..n], id) + if Subject(events[n]) == id then [events[n]] else []
  }

  lemma OfOne(events: seq<Event>, v: Event, id: string)
    ensures Of(events + [v], id) == Of(events, id) + if Subject(v) == id then [v] else []
  {
    assert (events + [v])[..|events|] == events;
  }

  lemma {:induction false} OfAppend(events: seq<Event>, more: seq<Event>, id: string)
    ensures Of(events + more, id) == Of(events, id) + Of(more, id)
    decreases |more|
  {
    if more == [] {
      assert events + more == events;
    } else {
      var n := |more| - 1;
      assert events + more == (events + more[..n]) + [more[n]];
      OfOne(events + more[..n], more[n], id);
      OfAppend(events, more[..n], id);
    }
  }

  lemma {:induction false} OfOwn(events: seq<Event>, id: string, other: string)
    requires forall v | v in events :: Subject(v) == id
    ensures Of(events, other) == if other == id then events else []
  {
    hide Subject, Of;
    if events == [] {
      OfNothing(other);
    } else {
      var front, v := events[..|events| - 1], events[|events| - 1];
      assert events == front + [v] && v in events;
      OfOwn(front, id, other);
      OfOne(front, v, other);
    }
  }

  lemma OfNothing(id: string)
    ensures Of([], id) == []
  {
  }

  lemma {:induction false} AboutIsKinds(events: seq<Event>, id: string)
    ensures About(events, id) == Kinds(Of(events, id))
  {
    if events != [] {
      var n := |events| - 1;
      AboutIsKinds(events[..n], id);
      var before := Of(events[..n], id);
      if Subject(events[n]) == id {
        KindsAppend(before, [events[n]]);
        KindsOfTwo(events[n], events[n]);
      } else {
        assert before + [] == before && Kinds(before) + [] == Kinds(before);
      }
    }
  }

  /** A request that writes something does the writes of its plan; any other changes no object and no event. */
  lemma HandleFollowsPlan(w: World, r: Request)
    requires Simulated(r)
    ensures var (s, response) := Handle(w.session, r);
      match Plan(w.session, r)
      case Some(e) =>
        && Target(r).Some?
        && s == Write(w.session.(enabled := true), Target(r).value, e)
        && response == Served(e.intent)
        && Step(w, r) == World(s, w.drained)
      case None =>
        && s.intents == w.session.intents && s.charges == w.session.charges
        && Step(w, r).session == s && Step(w, r).Emitted() == w.Emitted()
  {
    hide CreateEffects, Decide, Adopt, CreatedId, Write;
  }

  /** The events of a plan are about its intent, and its Charge is new or the one the intent already has. */
  ghost predicate PlanFits(s: Session, r: Request, e: Effects) {
    && Target(r).Some?
    && (forall v | v in e.events :: Subject(v) == Target(r).value)
    && (e.charge.Some? ==> NewChargeId(r) == Some(e.chargeId) || (r.Act? && e.chargeId in s.charges))
    && (r.Create? ==> e.events != [])
  }

  lemma RecordedChargeId(p: PaymentIntent, charges: map<string, Charge>, isCreate: bool, wasAuthorized: bool, gen: Generated)
    ensures var e := RecordTransition(p, charges, isCreate, wasAuthorized, gen);
      && (e.charge.Some? ==> e.chargeId == gen.chargeId || e.chargeId in charges)
      && (isCreate ==> e.events != [])
  {
    hide FillCharge;
  }

  lemma PlansFit(w: World, traces: map<string, Trace>, r: Request)
    requires Inv(w, traces) && FreshIds(w.session, r) && Plan(w.session, r).Some?
    ensures PlanFits(w.session, r, Plan(w.session, r).value)
  {
    var s := w.session;
    match r
    case Create(_, params, gen) =>
      var base := gen.intentBase.value;
      RecordedChargeId(NewIntent(base, params, gen), s.charges, true, false, gen);
      hide Render, Core, RecordTransition, NewIntent, About, CreatedId;
      var next := CreateMoves(base, s.charges, params, gen);
    case Act(_, id, Some(action), params, gen) =>
      if id !in s.intents {
        AdoptedCore(gen.intentBase.value, id, s.charges);
      }
      var pi := IntentFor(s, id, gen).value;
      DecidedChargeId(pi, s.charges, action, params, gen);
      hide Render, Core, RecordTransition, Decide, About, Adopt;
      var next := ActMoves(pi, id, s.charges, TraceOf(traces, id), action, params, gen);
  }

  lemma DecidedChargeId(pi: PaymentIntent, charges: map<string, Charge>, action: Action, params: Params, gen: Generated)
    ensures var d := Decide(pi, charges, action, params, gen);
      d.Accepted? && d.effects.charge.Some? ==> d.effects.chargeId == gen.chargeId || d.effects.chargeId in charges
  {
    RecordedChargeId(PaymentIntents.ApplyConfirm(pi, params, gen.paymentMethodId), charges, false, false, gen);
    RecordedChargeId(PaymentIntents.ApplyCapture(pi, params), charges, false, true, gen);
    RecordedChargeId(PaymentIntents.ApplyCancel(pi, params), charges, false, false, gen);
    hide RecordTransition, ApplyConfirm, ApplyCapture, ApplyCancel;
  }

  // A plan looks at one intent and at the Charge behind it.

  /** The same Charge, or none, behind the intent. */
  predicate SameCharge(p: PaymentIntent, a: map<string, Charge>, b: map<string, Charge>) {
    p.latestCharge.Some? ==> Look(a, p.latestCharge.value) == Look(b, p.latestCharge.value)
  }

  function Look<T>(m: map<string, T>, k: string): Option<T> {
    if k in m then Some(m[k]) else None
  }

  lemma RecordLooksAtOneCharge(p: PaymentIntent, a: map<string, Charge>, b: map<string, Charge>, isCreate: bool,
                               wasAuthorized: bool, gen: Generated)
    requires SameCharge(p, a, b)
    ensures RecordTransition(p, a, isCreate, wasAuthorized, gen) == RecordTransition(p, b, isCreate, wasAuthorized, gen)
  {
    hide FillCharge;
    assert LiveCharge(p, a) == LiveCharge(p, b);
    hide LiveCharge;
  }

  lemma DecideLooksAtOneCharge(p: PaymentIntent, a: map<string, Charge>, b: map<string, Charge>, action: Action,
                               params: Params, gen: Generated)
    requires SameCharge(p, a, b)
    ensures Decide(p, a, action, params, gen) == Decide(p, b, action, params, gen)
  {
    hide RecordTransition, OutcomeForPaymentMethod;
    match action
    case Confirm => RecordLooksAtOneCharge(ApplyConfirm(p, params, gen.paymentMethodId), a, b, false, false, gen);
    case Capture => RecordLooksAtOneCharge(ApplyCapture(p, params), a, b, false, true, gen);
    case Cancel => RecordLooksAtOneCharge(ApplyCancel(p, params), a, b, false, false, gen);
    case Update =>
  }

  lemma CreateLooksAtNoCharge(base: PaymentIntent, a: map<string, Charge>, b: map<string, Charge>, params: Params, gen: Generated)
    ensures CreateEffects(base, a, params, gen) == CreateEffects(base, b, params, gen)
  {
    var n := NewIntent(base, params, gen);
    assert n.latestCharge == None by { hide OutcomeForPaymentMethod; }
    RecordLooksAtOneCharge(n, a, b, true, false, gen);
  }

  // The relation between the system and the serial run.

  predicate Busy(th: Thread) {
    th.phase.Writing?
  }

  predicate Wrote(th: Thread) {
    th.phase.Writing? && th.phase.charged
  }

  predicate WroteCharge(th: Thread, c: string) {
    Wrote(th) && th.phase.effects.chargeId == c
  }

  predicate Writes(th: Thread, id: string) {
    Busy(th) && Target(th.request) == Some(id)
  }

  /** Stored Charges are those of the serial run, but for the ones that running requests have already written. */
  ghost predicate ChargesAgree(charges: map<string, Charge>, serial: map<string, Charge>, threads: seq<Thread>) {
    && (forall u: nat | u < |threads| && Wrote(threads[u]) ::
          Look(charges, threads[u].phase.effects.chargeId) == threads[u].phase.effects.charge)
    && (forall c | NoneWroteCharge(threads, c) :: Look(charges, c) == Look(serial, c))
  }

  predicate NoneWroteCharge(threads: seq<Thread>, c: string) {
    forall u: nat | u < |threads| :: !WroteCharge(threads[u], c)
  }

  /** The events of each intent are those of the serial run, and after them what its writer has queued so far. */
  ghost predicate EventsAgree(events: seq<Event>, serial: seq<Event>, threads: seq<Thread>) {
    && (forall u: nat, id | u < |threads| && Writes(threads[u], id) :: WriterAgrees(events, serial, threads[u], id))
    && (forall id | NoneWrites(threads, id) :: Of(events, id) == Of(serial, id))
  }

  predicate WriterAgrees(events: seq<Event>, serial: seq<Event>, th: Thread, id: string)
    requires Busy(th)
  {
    && th.phase.queued <= |th.phase.effects.events|
    && Of(events, id) == Of(serial, id) + th.phase.effects.events[..th.phase.queued]
  }

  predicate NoneWrites(threads: seq<Thread>, id: string) {
    forall u: nat | u < |threads| :: !Writes(threads[u], id)
  }

  /** New ids are still new, and what the request has read and decided is what it would now read and decide. */
  ghost predicate OnTrack(th: Thread, s: Session) {
    && Simulated(th.request)
    && (Drawn(th) ==> FreshIds(s, th.request))
    && match th.phase
       case Started => true
       case Locked => th.request.Act?
       case Loaded(pi) => th.request.Act? && IntentFor(s, th.request.id, th.request.gen) == Some(pi)
       case Writing(e, charged, queued) =>
         && Plan(s, th.request) == Some(e) && PlanFits(s, th.request, e)
         && (charged ==> e.charge.Some?)
       case _ => true
  }

  predicate Holding(th: Thread) {
    th.request.Act? && !th.phase.Started? && !th.phase.Finished?
  }

  predicate LockAgrees(lock: Option<nat>, threads: seq<Thread>) {
    && (lock.Some? ==> lock.value < |threads|)
    && forall t: nat | t < |threads| :: Holding(threads[t]) <==> lock == Some(t)
  }

  /** Requests under way draw different ids, and no two write one intent. */
  predicate AllApart(threads: seq<Thread>) {
    forall a: nat, b: nat | a < |threads| && b < |threads| && a != b :: Apart(threads[a], threads[b])
  }

  predicate Apart(p: Thread, q: Thread) {
    && (Drawn(p) && Drawn(q) ==> NewChargeId(p.request) != NewChargeId(q.request))
    && (Busy(p) && Busy(q) ==> Target(p.request) != Target(q.request))
  }

  /** The order lists the requests that have taken effect, each once. */
  predicate Lists(order: seq<nat>, threads: seq<Thread>) {
    && InRange(order, |threads|)
    && (forall i | 0 <= i < |order| :: Committed(threads[order[i]]))
    && (forall t: nat | t < |threads| && Committed(threads[t]) :: t in order)
    && (forall i, j | 0 <= i < j < |order| :: order[i] != order[j])
  }

  predicate InRange(order: seq<nat>, n: nat) {
    forall i | 0 <= i < |order| :: order[i] < n
  }

  function Requests(threads: seq<Thread>, order: seq<nat>): (rs: seq<Request>)
    requires InRange(order, |threads|)
    ensures |rs| == |order|
  {
    seq(|order|, i requires 0 <= i < |order| => threads[order[i]].request)
  }

  /** What a request that has taken effect answers. */
  function Answer(th: Thread): Option<Response> {
    match th.phase
    case Stored(e) => Some(Served(e.intent))
    case Finished(response) => Some(response)
    case _ => None
  }

  /** All but the drains answer what they answer in the serial run. */
  ghost predicate SameAnswers(threads: seq<Thread>, order: seq<nat>)
    requires InRange(order, |threads|)
  {
    var rs := Requests(threads, order);
    forall i | 0 <= i < |order| && !rs[i].Drain? ::
      Answer(threads[order[i]]) == Some(Handle(Run(rs[..i]).session, rs[i]).1)
  }

  /** The system and a serial run that has come as far as the commits. */
  ghost predicate Agrees(sys: System, w: World) {
    && sys.world.session.intents == w.session.intents
    && ChargesAgree(sys.world.session.charges, w.session.charges, sys.threads)
    && EventsAgree(sys.world.Emitted(), w.Emitted(), sys.threads)
    && (forall u: nat | u < |sys.threads| && !Committed(sys.threads[u]) :: OnTrack(sys.threads[u], w.session))
    && LockAgrees(sys.lock, sys.threads)
    && AllApart(sys.threads)
  }

  ghost predicate Simulates(sys: System, order: seq<nat>) {
    && Lists(order, sys.threads)
    && SameAnswers(sys.threads, order)
    && ValidRun(Requests(sys.threads, order))
    && Agrees(sys, Run(Requests(sys.threads, order)))
  }

  // Moves that commit nothing.

  /** At most one running request writes an intent. */
  lemma OneWriter(threads: seq<Thread>, t: nat, u: nat, id: string)
    requires AllApart(threads) && t < |threads| && u < |threads| && t != u && Writes(threads[t], id)
    ensures !Writes(threads[u], id)
  {
    assert Apart(threads[t], threads[u]);
  }

  /** A step of one request that touches neither the store nor an intent that another one writes. */
  lemma LocalStep(sys: System, w: World, t: nat, phase: Phase, lock: Option<nat>)
    requires Agrees(sys, w) && t < |sys.threads| && !Committed(sys.threads[t]) && !Busy(sys.threads[t])
    requires phase.Locked? || phase.Loaded? || (phase.Writing? && !phase.charged && phase.queued == 0)
    requires OnTrack(sys.threads[t].(phase := phase), w.session)
    requires LockAgrees(lock, Become(sys, t, phase).threads) && AllApart(Become(sys, t, phase).threads)
    ensures Agrees(Become(sys, t, phase).(lock := lock), w)
  {
    hide OnTrack, LockAgrees, Of, Apart;
    var next := Become(sys, t, phase).(lock := lock);
    forall id | Writes(next.threads[t], id)
      ensures Of(sys.world.Emitted(), id) == Of(w.Emitted(), id) + []
    {
      forall u: nat | u < |sys.threads| ensures !Writes(sys.threads[u], id) {
        if u != t { OneWriter(next.threads, t, u, id); }
      }
      assert NoneWrites(sys.threads, id);
    }
    forall c | NoneWroteCharge(next.threads, c) ensures NoneWroteCharge(sys.threads, c) {
      forall u: nat | u < |sys.threads| ensures !WroteCharge(sys.threads[u], c) {
        assert u != t ==> next.threads[u] == sys.threads[u];
      }
    }
    forall id | NoneWrites(next.threads, id) ensures NoneWrites(sys.threads, id) {
      forall u: nat | u < |sys.threads| ensures !Writes(sys.threads[u], id) {
        assert u != t ==> next.threads[u] == sys.threads[u];
      }
    }
  }

  /** A step of one request that keeps it apart from the others. */
  lemma StaysApart(threads: seq<Thread>, t: nat, th: Thread)
    requires t < |threads| && AllApart(threads)
    requires forall u: nat | u < |threads| && u != t :: Apart(th, threads[u])
    ensures AllApart(threads[t := th])
  {
    var next := threads[t := th];
    forall a: nat, b: nat | a < |next| && b < |next| && a != b ensures Apart(next[a], next[b]) {
      assert Apart(threads[a], threads[b]);
      assert a != t ==> next[a] == threads[a];
      assert b != t ==> next[b] == threads[b];
    }
  }

  /** A request that draws nothing and starts no writing stays apart. */
  lemma NothingDrawn(threads: seq<Thread>, t: nat, phase: Phase)
    requires t < |threads| && AllApart(threads)
    requires var th := threads[t].(phase := phase);
      (Drawn(th) ==> Drawn(threads[t])) && (Busy(th) ==> Busy(threads[t]))
    ensures AllApart(threads[t := threads[t].(phase := phase)])
  {
    assert forall u: nat | u < |threads| && u != t :: Apart(threads[t], threads[u]);
    StaysApart(threads, t, threads[t].(phase := phase));
  }

  lemma ArriveStep(sys: System, w: World, r: Request, enabled: bool)
    requires Agrees(sys, w) && Simulated(r)
    ensures Agrees(System(sys.world.(session := sys.world.session.(enabled := enabled)), sys.lock, sys.threads + [Thread(r, Started)]), w)
  {
    hide Of, FreshIds, Plan, PlanFits;
    var th := Thread(r, Started);
    var threads := sys.threads + [th];
    var next := System(sys.world.(session := sys.world.session.(enabled := enabled)), sys.lock, threads);
    assert next.world.Emitted() == sys.world.Emitted();
    assert forall u: nat | u < |sys.threads| :: threads[u] == sys.threads[u];
    assert AllApart(threads) by {
      forall a: nat, b: nat | a < |threads| && b < |threads| && a != b ensures Apart(threads[a], threads[b]) {
        assert a < |sys.threads| && b < |sys.threads| ==> Apart(sys.threads[a], sys.threads[b]);
      }
    }
    hide Apart;
    OneMore(sys.threads, th);
  }

  lemma OneMore(threads: seq<Thread>, th: Thread)
    requires !Busy(th)
    ensures forall c :: NoneWroteCharge(threads + [th], c) <==> NoneWroteCharge(threads, c)
    ensures forall id :: NoneWrites(threads + [th], id) <==> NoneWrites(threads, id)
  {
    var more := threads + [th];
    assert forall u: nat | u < |threads| :: more[u] == threads[u];
  }

  lemma StoredStaysFresh(sys: System, w: World, r: Request)
    requires Agrees(sys, w) && FreshIds(sys.world.session, r)
    ensures FreshIds(w.session, r)
  {
    hide Of, LockAgrees, AllApart, EventsAgree, Plan, PlanFits, Apart, Simulated;
    forall c | c !in sys.world.session.charges ensures c !in w.session.charges {
      forall u: nat | u < |sys.threads| ensures !WroteCharge(sys.threads[u], c) {
        assert Wrote(sys.threads[u]) ==> sys.threads[u].phase.effects.charge.Some?;
      }
      assert NoneWroteCharge(sys.threads, c);
      assert Look(sys.world.session.charges, c) == Look(w.session.charges, c);
    }
  }

  /** A running request stores its Charge. */
  lemma ChargeStep(sys: System, w: World, t: nat, e: Effects, queued: nat)
    requires Agrees(sys, w) && t < |sys.threads| && sys.threads[t].phase == Writing(e, false, queued) && e.charge.Some?
    ensures var s := sys.world.session;
      Agrees(Become(sys, t, Writing(e, true, queued)).(world := sys.world.(session := s.(charges := PutCharge(s.charges, e)))), w)
  {
    hide Of, Plan, PlanFits, FreshIds, Apart, OnTrack, EventsAgree, ChargesAgree;
    var s := sys.world.session;
    var charges := PutCharge(s.charges, e);
    var next := Become(sys, t, Writing(e, true, queued)).(world := sys.world.(session := s.(charges := charges)));
    assert next.world.Emitted() == sys.world.Emitted();
    NothingDrawn(sys.threads, t, next.threads[t].phase);
    assert OnTrack(next.threads[t], w.session) by { ChargedOnTrack(sys.threads[t], w.session); }
    PutChargesAgree(sys, w, t, next.threads);
    SameEvents(sys, w, t, next.threads);
  }

  lemma ChargedOnTrack(th: Thread, s: Session)
    requires OnTrack(th, s) && th.phase.Writing? && th.phase.effects.charge.Some?
    ensures OnTrack(th.(phase := th.phase.(charged := true)), s)
  {
    hide Plan, PlanFits, FreshIds, Simulated;
  }

  lemma PutChargesAgree(sys: System, w: World, t: nat, threads: seq<Thread>)
    requires Agrees(sys, w) && t < |sys.threads| && sys.threads[t].phase.Writing? && !Wrote(sys.threads[t])
    requires sys.threads[t].phase.effects.charge.Some?
    requires threads == sys.threads[t := sys.threads[t].(phase := sys.threads[t].phase.(charged := true))]
    ensures ChargesAgree(PutCharge(sys.world.session.charges, sys.threads[t].phase.effects), w.session.charges, threads)
  {
    hide Of, Plan, PlanFits, FreshIds, Apart, OnTrack, EventsAgree;
    var e := sys.threads[t].phase.effects;
    forall u: nat | u < |sys.threads| && Wrote(sys.threads[u]) ensures sys.threads[u].phase.effects.chargeId != e.chargeId {
      OneChargeWriter(sys, w, t, u);
    }
    forall c | NoneWroteCharge(threads, c) ensures NoneWroteCharge(sys.threads, c) && c != e.chargeId {
      assert !WroteCharge(threads[t], c);
      forall u: nat | u < |sys.threads| ensures !WroteCharge(sys.threads[u], c) {
        assert u != t ==> threads[u] == sys.threads[u];
      }
    }
  }

  lemma SameEvents(sys: System, w: World, t: nat, threads: seq<Thread>)
    requires Agrees(sys, w) && t < |sys.threads| && sys.threads[t].phase.Writing?
    requires threads == sys.threads[t := sys.threads[t].(phase := sys.threads[t].phase.(charged := true))]
    ensures EventsAgree(sys.world.Emitted(), w.Emitted(), threads)
  {
    hide Of, Apart, OnTrack, ChargesAgree, LockAgrees, AllApart;
    SameWriters(sys.threads, threads, t);
    forall u: nat, id | u < |threads| && Writes(threads[u], id) ensures WriterAgrees(sys.world.Emitted(), w.Emitted(), threads[u], id) {
      assert Writes(sys.threads[u], id);
    }
  }

  lemma OneChargeWriter(sys: System, w: World, t: nat, u: nat)
    requires Agrees(sys, w) && t < |sys.threads| && u < |sys.threads| && Busy(sys.threads[t]) && Wrote(sys.threads[u])
    requires sys.threads[t].phase.effects.charge.Some? && !Wrote(sys.threads[t])
    ensures sys.threads[u].phase.effects.chargeId != sys.threads[t].phase.effects.chargeId
  {
    hide ChargesAgree, EventsAgree, Plan;
  }

  /** Changing one thread but not whether, and what, it writes. */
  lemma SameWriters(threads: seq<Thread>, next: seq<Thread>, t: nat)
    requires t < |threads| == |next| && next == threads[t := next[t]]
    requires forall id :: Writes(threads[t], id) <==> Writes(next[t], id)
    ensures forall id :: NoneWrites(threads, id) <==> NoneWrites(next, id)
  {
    assert forall u: nat | u < |threads| && u != t :: threads[u] == next[u];
    forall id ensures NoneWrites(threads, id) <==> NoneWrites(next, id) {
      forall u: nat | u < |threads| ensures Writes(threads[u], id) <==> Writes(next[u], id) {
      }
    }
  }

  lemma SameCharged(threads: seq<Thread>, next: seq<Thread>, t: nat)
    requires t < |threads| == |next| && next == threads[t := next[t]]
    requires forall c :: WroteCharge(threads[t], c) <==> WroteCharge(next[t], c)
    ensures forall c :: NoneWroteCharge(threads, c) <==> NoneWroteCharge(next, c)
  {
    assert forall u: nat | u < |threads| && u != t :: threads[u] == next[u];
    forall c ensures NoneWroteCharge(threads, c) <==> NoneWroteCharge(next, c) {
      forall u: nat | u < |threads| ensures WroteCharge(threads[u], c) <==> WroteCharge(next[u], c) {
      }
    }
  }

  /** A running request queues its next event. */
  lemma EventStep(sys: System, w: World, t: nat, e: Effects, charged: bool, queued: nat)
    requires Agrees(sys, w) && t < |sys.threads| && sys.threads[t].phase == Writing(e, charged, queued) && queued < |e.events|
    ensures var s := sys.world.session;
      Agrees(Become(sys, t, Writing(e, charged, queued + 1)).(world := sys.world.(session := s.(events := s.events + [e.events[queued]]))), w)
  {
    hide Of, Plan, FreshIds, Apart, Subject, EventsAgree;
    var s, v := sys.world.session, e.events[queued];
    var next := Become(sys, t, Writing(e, charged, queued + 1)).(world := sys.world.(session := s.(events := s.events + [v])));
    assert next.world.Emitted() == sys.world.Emitted() + [v];
    assert PlanFits(w.session, sys.threads[t].request, e);
    assert v in e.events;
    var own := Target(sys.threads[t].request).value;
    assert Subject(v) == own && Writes(sys.threads[t], own);
    SameCharged(sys.threads, next.threads, t);
    NothingDrawn(sys.threads, t, next.threads[t].phase);
    QueuedAgrees(sys, w, t, own, next);
  }

  lemma PrefixGrows<T>(s: seq<T>, k: nat)
    requires k < |s|
    ensures s[..k] + [s[k]] == s[..k + 1]
  {
  }

  lemma QueuedAgrees(sys: System, w: World, t: nat, own: string, next: System)
    requires Agrees(sys, w) && t < |sys.threads| && Writes(sys.threads[t], own)
    requires var th := sys.threads[t];
      && th.phase.queued < |th.phase.effects.events|
      && var v := th.phase.effects.events[th.phase.queued];
      && Subject(v) == own && next.world.Emitted() == sys.world.Emitted() + [v]
      && next.threads == sys.threads[t := th.(phase := th.phase.(queued := th.phase.queued + 1))]
    ensures EventsAgree(next.world.Emitted(), w.Emitted(), next.threads)
  {
    hide Of, OnTrack, Apart, Subject, LockAgrees, AllApart, ChargesAgree;
    var e, queued := sys.threads[t].phase.effects, sys.threads[t].phase.queued;
    var v := e.events[queued];
    PrefixGrows(e.events, queued);
    SameWriters(sys.threads, next.threads, t);
    forall id ensures Of(next.world.Emitted(), id) == Of(sys.world.Emitted(), id) + if id == own then [v] else [] {
      OfOne(sys.world.Emitted(), v, id);
    }
    forall u: nat, id | u < |next.threads| && Writes(next.threads[u], id)
      ensures WriterAgrees(next.world.Emitted(), w.Emitted(), next.threads[u], id)
    {
      assert Writes(sys.threads[u], id) && WriterAgrees(sys.world.Emitted(), w.Emitted(), sys.threads[u], id);
      if u != t {
        OneWriter(sys.threads, t, u, own);
      }
    }
    forall id | NoneWrites(next.threads, id) ensures id != own {
      assert Writes(next.threads[t], own);
    }
  }

  /** A request that has taken effect is done. */
  lemma FinishStep(sys: System, w: World, t: nat, e: Effects, response: Response)
    requires Agrees(sys, w) && t < |sys.threads| && sys.threads[t].phase == Stored(e)
    ensures Agrees(Become(sys, t, Finished(response)).(lock := if sys.threads[t].request.Act? then None else sys.lock), w)
  {
    hide Of, OnTrack, Apart;
    var next := Become(sys, t, Finished(response)).(lock := if sys.threads[t].request.Act? then None else sys.lock);
    SameWriters(sys.threads, next.threads, t);
    SameCharged(sys.threads, next.threads, t);
    NothingDrawn(sys.threads, t, Finished(response));
    assert forall u: nat | u < |sys.threads| && u != t :: sys.threads[u] == next.threads[u];
    assert Holding(sys.threads[t]) ==> sys.lock == Some(t);
  }

  // Moves that commit.

  /** The Charge behind an intent in the serial run is not one that a running creation is writing. */
  lemma ReadCharges(sys: System, w: World, traces: map<string, Trace>, t: nat)
    requires Agrees(sys, w) && Inv(w, traces) && t < |sys.threads| && sys.threads[t].phase.Loaded?
    ensures SameCharge(sys.threads[t].phase.intent, sys.world.session.charges, w.session.charges)
  {
    var th := sys.threads[t];
    var pi := th.phase.intent;
    LoadedCharge(w, traces, th);
    hide Core, About, Render, Plan, EventsAgree, AllApart, IntentFor, Simulated;
    if pi.latestCharge.Some? {
      var c := pi.latestCharge.value;
      forall u: nat | u < |sys.threads| ensures !WroteCharge(sys.threads[u], c) {
        NotWriting(sys, w, t, u, c);
      }
      assert NoneWroteCharge(sys.threads, c);
    }
  }

  lemma NotWriting(sys: System, w: World, t: nat, u: nat, c: string)
    requires Agrees(sys, w) && t < |sys.threads| && u < |sys.threads|
    requires sys.threads[t].phase.Loaded? && c in w.session.charges
    ensures !WroteCharge(sys.threads[u], c)
  {
    hide Plan, EventsAgree, AllApart, IntentFor, Simulated, ChargesAgree;
    assert Holding(sys.threads[t]);
    assert Holding(sys.threads[u]) ==> u == t;
  }

  /** The intent an action has read points to no Charge or to a stored one. */
  lemma LoadedCharge(w: World, traces: map<string, Trace>, th: Thread)
    requires Inv(w, traces) && OnTrack(th, w.session) && th.phase.Loaded?
    ensures var p := th.phase.intent;
      p.latestCharge.Some? ==> p.latestCharge.value in w.session.charges
  {
    IntentCharge(w, traces, th.request.id, th.request.gen);
  }

  lemma IntentCharge(w: World, traces: map<string, Trace>, id: string, gen: Generated)
    requires Inv(w, traces) && IntentFor(w.session, id, gen).Some?
    ensures var p := IntentFor(w.session, id, gen).value;
      p.latestCharge.Some? ==> p.latestCharge.value in w.session.charges
  {
    hide About, Render, ChargesCounted, FieldsAgree;
  }

  /** Another request's commit leaves alone what this one has read and decided, unless it stores what this one has read. */
  lemma OtherStaysOnTrack(sys: System, w: World, traces: map<string, Trace>, t: nat, u: nat, e: Effects)
    requires Agrees(sys, w) && Inv(w, traces) && t < |sys.threads| && u < |sys.threads| && t != u
    requires Busy(sys.threads[t]) && sys.threads[t].phase.effects == e && !Committed(sys.threads[u])
    requires Target(sys.threads[t].request).Some?
    requires sys.threads[u].phase.Loaded? ==> Target(sys.threads[t].request) != Target(sys.threads[u].request)
    ensures OnTrack(sys.threads[u], Write(w.session.(enabled := true), Target(sys.threads[t].request).value, e))
  {
    var s := Write(w.session.(enabled := true), Target(sys.threads[t].request).value, e);
    var q, r := sys.threads[t].request, sys.threads[u].request;
    assert Apart(sys.threads[t], sys.threads[u]);
    assert OnTrack(sys.threads[t], w.session) && OnTrack(sys.threads[u], w.session);
    if Drawn(sys.threads[u]) {
      StaysFresh(w.session, q, r, e);
      if r.Act? {
        assert q.Create? by {
          assert Holding(sys.threads[t]) <==> q.Act?;
          assert Holding(sys.threads[u]);
        }
        ReadStays(w, traces, q, r, e);
      } else {
        hide Inv, Agrees, CreateEffects;
        if r.Create? && r.gen.intentBase.Some? {
          CreateLooksAtNoCharge(r.gen.intentBase.value, w.session.charges, s.charges, r.params, r.gen);
        }
      }
    }
  }

  lemma StaysFresh(s: Session, q: Request, r: Request, e: Effects)
    requires PlanFits(s, q, e) && FreshIds(s, r) && Unused(q, r)
    ensures FreshIds(Write(s.(enabled := true), Target(q).value, e), r)
  {
  }

  lemma ReadStays(w: World, traces: map<string, Trace>, q: Request, r: Request, e: Effects)
    requires Inv(w, traces) && q.Create? && r.Act? && Target(q) != Target(r)
    requires PlanFits(w.session, q, e) && FreshIds(w.session, q)
    ensures var s := Write(w.session.(enabled := true), Target(q).value, e);
      && IntentFor(s, r.id, r.gen) == IntentFor(w.session, r.id, r.gen)
      && Plan(s, r) == Plan(w.session, r)
  {
    hide Inv, Decide, Adopt, CreatedId;
    var s := Write(w.session.(enabled := true), Target(q).value, e);
    var found := IntentFor(w.session, r.id, r.gen);
    if found.Some? && r.action.Some? {
      IntentCharge(w, traces, r.id, r.gen);
      assert SameCharge(found.value, w.session.charges, s.charges);
      DecideLooksAtOneCharge(found.value, w.session.charges, s.charges, r.action.value, r.params, r.gen);
    }
  }

  /** A running request stores its intent: the serial run takes the whole request. */
  lemma StoreStep(sys: System, w: World, traces: map<string, Trace>, t: nat, e: Effects, charged: bool)
    requires Agrees(sys, w) && Inv(w, traces) && t < |sys.threads| && sys.threads[t].phase == Writing(e, charged, |e.events|)
    requires e.charge.Some? ==> charged
    requires forall u: nat | u < |sys.threads| && u != t && sys.threads[u].phase.Loaded? ::
      Target(sys.threads[t].request) != Target(sys.threads[u].request)
    ensures var s, r := sys.world.session, sys.threads[t].request;
      Agrees(Become(sys, t, Stored(e)).(world := sys.world.(session := s.(intents := s.intents[StoreId(r) := e.intent]))), Step(w, r))
  {
    hide Of, EventsAgree, ChargesAgree, Inv, Plan, Apart, FreshIds, OnTrack, Step, Write, PlanFits;
    var s, th := sys.world.session, sys.threads[t];
    var r := th.request;
    var next := Become(sys, t, Stored(e)).(world := sys.world.(session := s.(intents := s.intents[StoreId(r) := e.intent])));
    UncommittedOnTrack(sys, w, t);
    NothingDrawn(sys.threads, t, Stored(e));
    WriterFacts(th, w);
    assert next.world.Emitted() == sys.world.Emitted();
    assert forall u: nat | u < |sys.threads| && u != t :: next.threads[u] == sys.threads[u];
    forall u: nat | u < |next.threads| && !Committed(next.threads[u]) ensures OnTrack(next.threads[u], Step(w, r).session) {
      OtherStaysOnTrack(sys, w, traces, t, u, e);
    }
    StoredCharges(sys, w, t, next.threads);
    StoredEvents(sys, w, t, next.threads, Step(w, r).Emitted());
  }

  /** What the serial run does when a running writer commits. */
  lemma WriterFacts(th: Thread, w: World)
    requires OnTrack(th, w.session) && th.phase.Writing?
    ensures var r, e := th.request, th.phase.effects;
      && Target(r).Some?
      && (forall v | v in e.events :: Subject(v) == Target(r).value)
      && (r.Create? ==> e.events != [])
      && (th.phase.charged ==> e.charge.Some?)
      && Handle(w.session, r).1 == Served(e.intent)
      && Step(w, r).session == Write(w.session.(enabled := true), Target(r).value, e)
      && Step(w, r).session.intents == w.session.intents[Target(r).value := e.intent]
      && Step(w, r).session.charges == PutCharge(w.session.charges, e)
      && Step(w, r).Emitted() == w.Emitted() + e.events
  {
    var e := th.phase.effects;
    HandleFollowsPlan(w, th.request);
    hide FreshIds, Step, Plan, Handle;
    assert w.drained + (w.session.events + e.events) == (w.drained + w.session.events) + e.events;
  }

  lemma UncommittedOnTrack(sys: System, w: World, t: nat)
    requires Agrees(sys, w) && t < |sys.threads| && !Committed(sys.threads[t])
    ensures OnTrack(sys.threads[t], w.session)
  {
    hide OnTrack;
  }

  lemma StoredCharges(sys: System, w: World, t: nat, threads: seq<Thread>)
    requires Agrees(sys, w) && t < |sys.threads| && Busy(sys.threads[t])
    requires var th := sys.threads[t];
      (th.phase.effects.charge.Some? ==> th.phase.charged) && threads == sys.threads[t := th.(phase := Stored(th.phase.effects))]
    ensures ChargesAgree(sys.world.session.charges, PutCharge(w.session.charges, sys.threads[t].phase.effects), threads)
  {
    hide Of, EventsAgree, OnTrack, LockAgrees, AllApart;
    var e := sys.threads[t].phase.effects;
    assert forall u: nat | u < |threads| && u != t :: threads[u] == sys.threads[u];
    forall c | NoneWroteCharge(threads, c) && !(e.charge.Some? && c == e.chargeId) ensures NoneWroteCharge(sys.threads, c) {
      if Wrote(sys.threads[t]) {
        TracksCharge(sys, w, t);
      }
      forall u: nat | u < |sys.threads| ensures !WroteCharge(sys.threads[u], c) {
      }
    }
  }

  lemma TracksCharge(sys: System, w: World, t: nat)
    requires Agrees(sys, w) && t < |sys.threads| && Wrote(sys.threads[t])
    ensures sys.threads[t].phase.effects.charge.Some?
  {
    hide Plan, PlanFits, FreshIds, ChargesAgree, EventsAgree;
  }

  lemma StoredEvents(sys: System, w: World, t: nat, threads: seq<Thread>, serial: seq<Event>)
    requires Agrees(sys, w) && t < |sys.threads| && Busy(sys.threads[t]) && Target(sys.threads[t].request).Some?
    requires var th := sys.threads[t];
      && th.phase.queued == |th.phase.effects.events| && threads == sys.threads[t := th.(phase := Stored(th.phase.effects))]
      && serial == w.Emitted() + th.phase.effects.events
      && forall v | v in th.phase.effects.events :: Subject(v) == Target(th.request).value
    ensures EventsAgree(sys.world.Emitted(), serial, threads)
  {
    hide Of, ChargesAgree, OnTrack, LockAgrees, AllApart, Subject, Apart;
    var th := sys.threads[t];
    var own, more := Target(th.request).value, th.phase.effects.events;
    assert more[..|more|] == more;
    assert forall u: nat | u < |threads| && u != t :: threads[u] == sys.threads[u];
    forall id ensures Of(serial, id) == Of(w.Emitted(), id) + if id == own then more else [] {
      OfAppend(w.Emitted(), more, id);
      OfOwn(more, own, id);
    }
    forall u: nat, id | u < |threads| && Writes(threads[u], id)
      ensures WriterAgrees(sys.world.Emitted(), serial, threads[u], id)
    {
      assert Writes(sys.threads[u], id) && WriterAgrees(sys.world.Emitted(), w.Emitted(), sys.threads[u], id);
      OneWriter(sys.threads, t, u, own);
      assert Of(serial, id) == Of(w.Emitted(), id) + [] == Of(w.Emitted(), id);
    }
    forall id | NoneWrites(threads, id) ensures Of(sys.world.Emitted(), id) == Of(serial, id) {
      if id == own {
        assert Writes(th, own);
      } else {
        forall u: nat | u < |sys.threads| ensures !Writes(sys.threads[u], id) {
        }
        assert NoneWrites(sys.threads, id);
        assert Of(serial, id) == Of(w.Emitted(), id) + [] == Of(w.Emitted(), id);
      }
    }
  }

  /** A request that writes nothing is done. */
  lemma NothingStep(sys: System, w: World, t: nat, response: Response, world: World)
    requires Agrees(sys, w) && t < |sys.threads| && !Committed(sys.threads[t]) && !Busy(sys.threads[t])
    requires Plan(w.session, sys.threads[t].request).None?
    requires world.Emitted() == sys.world.Emitted()
    requires world.session.intents == sys.world.session.intents && world.session.charges == sys.world.session.charges
    ensures Agrees(Become(sys, t, Finished(response)).(world := world, lock := if sys.lock == Some(t) then None else sys.lock),
                   Step(w, sys.threads[t].request))
  {
    hide Of, Step, Handle, Plan;
    var next := Become(sys, t, Finished(response)).(world := world, lock := if sys.lock == Some(t) then None else sys.lock);
    var v := Step(w, sys.threads[t].request);
    assert OnTrack(sys.threads[t], w.session);
    HandleFollowsPlan(w, sys.threads[t].request);
    SameWriters(sys.threads, next.threads, t);
    SameCharged(sys.threads, next.threads, t);
    assert forall u: nat | u < |sys.threads| && u != t :: sys.threads[u] == next.threads[u];
    forall u: nat | u < |next.threads| && !Committed(next.threads[u]) ensures OnTrack(next.threads[u], v.session) {
      assert OnTrack(sys.threads[u], w.session);
      OnTrackSame(sys.threads[u], w.session, v.session);
    }
  }

  lemma OnTrackSame(th: Thread, s: Session, v: Session)
    requires v.intents == s.intents && v.charges == s.charges && OnTrack(th, s)
    ensures OnTrack(th, v)
  {
    hide CreateEffects, Decide, Adopt, CreatedId;
  }

  // Runs.

  /** From `sys` to `next`, only request number `t` takes a step, and if it commits, so does the serial run. */
  ghost predicate GoodStep(sys: System, w: World, t: nat, next: System) {
    && t < |sys.threads| == |next.threads|
    && next.threads == sys.threads[t := next.threads[t]]
    && next.threads[t].request == sys.threads[t].request
    && var r := sys.threads[t].request;
       if Commits(sys, next, t) then
         Agrees(next, Step(w, r)) && (!r.Drain? ==> Answer(next.threads[t]) == Some(Handle(w.session, r).1))
       else
         && Agrees(next, w)
         && (Committed(sys.threads[t]) ==> Committed(next.threads[t]) && Answer(next.threads[t]) == Answer(sys.threads[t]))
  }

  lemma ProgressIsGood(sys: System, w: World, traces: map<string, Trace>, t: nat)
    requires Agrees(sys, w) && Inv(w, traces) && Enabled(sys, Advance(t)) && !Collides(sys, Advance(t))
    ensures GoodStep(sys, w, t, Progress(sys, t))
  {
    var th := sys.threads[t];
    hide Agrees, GoodStep, Inv, Progress, Collides, NewIds;
    match th.phase
    case Started => StartedStep(sys, w, traces, t);
    case Locked => LockedStep(sys, w, traces, t);
    case Loaded(_) => LoadedStep(sys, w, traces, t);
    case Writing(_, _, _) => WritingStep(sys, w, traces, t);
    case Stored(e) => StoredStep(sys, w, t);
  }

  lemma StoredStep(sys: System, w: World, t: nat)
    requires Agrees(sys, w) && Enabled(sys, Advance(t)) && sys.threads[t].phase.Stored?
    ensures GoodStep(sys, w, t, Progress(sys, t))
  {
    hide Agrees;
    var e := sys.threads[t].phase.effects;
    FinishStep(sys, w, t, e, Served(e.intent));
  }

  /** Ids that are new when they are drawn keep a request apart. */
  lemma DrawnApart(sys: System, w: World, t: nat, phase: Phase)
    requires Agrees(sys, w) && t < |sys.threads| && NewIds(sys, sys.threads[t].request)
    requires phase.Loaded? || (phase.Writing? && sys.threads[t].request.Create? && Target(sys.threads[t].request).Some?)
    ensures AllApart(Become(sys, t, phase).threads) && FreshIds(w.session, sys.threads[t].request)
  {
    hide FreshIds, OnTrack, ChargesAgree, EventsAgree, LockAgrees;
    StoredStaysFresh(sys, w, sys.threads[t].request);
    StaysApart(sys.threads, t, sys.threads[t].(phase := phase));
  }

  lemma StartedStep(sys: System, w: World, traces: map<string, Trace>, t: nat)
    requires Agrees(sys, w) && Inv(w, traces) && Enabled(sys, Advance(t)) && sys.threads[t].phase.Started?
    ensures GoodStep(sys, w, t, Progress(sys, t))
  {
    hide FreshIds, Step, CreateEffects, ChargesAgree, EventsAgree, AllApart, Inv, NewIds;
    var next, th := Progress(sys, t), sys.threads[t];
    assert OnTrack(th, w.session) && sys.world.session.intents == w.session.intents;
    assert sys.lock != Some(t) by { assert !Holding(th); }
    assert LockAgrees(sys.lock, sys.threads);
    if th.request.Act? {
      assert AllApart(Become(sys, t, Locked).threads) by {
        StaysApart(sys.threads, t, th.(phase := Locked));
      }
    }
    hide Agrees;
    match th.request
    case Create(_, params, gen) =>
      if Plan(w.session, th.request).None? {
        NothingStep(sys, w, t, next.threads[t].phase.response, sys.world);
      } else {
        CreateStarts(sys, w, traces, t);
      }
    case Act(_, _, _, _, _) => LocalStep(sys, w, t, Locked, Some(t));
    case Retrieve(_, _) => NothingStep(sys, w, t, next.threads[t].phase.response, sys.world);
    case Drain => NothingStep(sys, w, t, next.threads[t].phase.response, next.world);
  }

  lemma CreateStarts(sys: System, w: World, traces: map<string, Trace>, t: nat)
    requires Agrees(sys, w) && Inv(w, traces) && t < |sys.threads| && sys.threads[t].phase.Started?
    requires sys.threads[t].request.Create? && Plan(w.session, sys.threads[t].request).Some?
    requires NewIds(sys, sys.threads[t].request)
    ensures var r := sys.threads[t].request;
      var e := CreateEffects(r.gen.intentBase.value, sys.world.session.charges, r.params, r.gen);
      Agrees(Become(sys, t, Writing(e, false, 0)), w)
  {
    hide FreshIds, Inv, NewIds, ChargesAgree, EventsAgree, AllApart, CreateEffects;
    var th := sys.threads[t];
    var r := th.request;
    assert OnTrack(th, w.session);
    assert LockAgrees(sys.lock, sys.threads);
    var e := CreateEffects(r.gen.intentBase.value, sys.world.session.charges, r.params, r.gen);
    CreateLooksAtNoCharge(r.gen.intentBase.value, sys.world.session.charges, w.session.charges, r.params, r.gen);
    DrawnApart(sys, w, t, Writing(e, false, 0));
    PlansFit(w, traces, r);
    hide Agrees;
    assert OnTrack(th.(phase := Writing(e, false, 0)), w.session);
    LocalStep(sys, w, t, Writing(e, false, 0), sys.lock);
  }

  lemma LockedStep(sys: System, w: World, traces: map<string, Trace>, t: nat)
    requires Agrees(sys, w) && Enabled(sys, Advance(t)) && sys.threads[t].phase.Locked?
    ensures GoodStep(sys, w, t, Progress(sys, t))
  {
    hide FreshIds, Step, Adopt, Decide, ChargesAgree, EventsAgree, AllApart, NewIds;
    var th := sys.threads[t];
    assert OnTrack(th, w.session) && sys.world.session.intents == w.session.intents;
    assert Holding(th) && LockAgrees(sys.lock, sys.threads);
    hide Agrees;
    match IntentFor(sys.world.session, th.request.id, th.request.gen)
    case Some(pi) =>
      DrawnApart(sys, w, t, Loaded(pi));
      LocalStep(sys, w, t, Loaded(pi), sys.lock);
    case None => NothingStep(sys, w, t, GeneratorFailed, sys.world);
  }

  lemma LoadedStep(sys: System, w: World, traces: map<string, Trace>, t: nat)
    requires Agrees(sys, w) && Inv(w, traces) && Enabled(sys, Advance(t)) && sys.threads[t].phase.Loaded?
    requires !Collides(sys, Advance(t))
    ensures GoodStep(sys, w, t, Progress(sys, t))
  {
    hide FreshIds, Step, Adopt, Decide, Inv, ChargesAgree, EventsAgree, AllApart, Collides;
    var th := sys.threads[t];
    var r, pi := th.request, th.phase.intent;
    assert OnTrack(th, w.session);
    assert Holding(th) && LockAgrees(sys.lock, sys.threads);
    ReadCharges(sys, w, traces, t);
    hide Agrees;
    DecideLooksAtOneCharge(pi, sys.world.session.charges, w.session.charges, r.action.value, r.params, r.gen);
    match Decide(pi, sys.world.session.charges, r.action.value, r.params, r.gen)
    case Accepted(e) =>
      PlansFit(w, traces, r);
      AcceptedApart(sys, w, t, e);
      LocalStep(sys, w, t, Writing(e, false, 0), sys.lock);
    case Rejected(reason) => NothingStep(sys, w, t, Refused(reason), sys.world);
  }

  lemma AcceptedApart(sys: System, w: World, t: nat, e: Effects)
    requires Agrees(sys, w) && Enabled(sys, Advance(t)) && sys.threads[t].phase.Loaded? && !Collides(sys, Advance(t))
    requires Progress(sys, t) == Become(sys, t, Writing(e, false, 0))
    ensures AllApart(Become(sys, t, Writing(e, false, 0)).threads)
  {
    hide FreshIds, ChargesAgree, EventsAgree, Progress, Plan, PlanFits, IntentFor;
    var th := sys.threads[t];
    assert OnTrack(th, w.session) && Holding(th);
    forall u: nat | u < |sys.threads| && u != t ensures Apart(th.(phase := Writing(e, false, 0)), sys.threads[u]) {
      assert Apart(th, sys.threads[u]);
      assert !CollidesWith(sys, Take(sys, Advance(t)), t, u);
      if Busy(sys.threads[u]) {
        assert OnTrack(sys.threads[u], w.session);
        BusyTarget(sys.threads[u], w.session);
        assert Holding(sys.threads[u]) <==> sys.lock == Some(u);
      }
    }
    StaysApart(sys.threads, t, th.(phase := Writing(e, false, 0)));
  }

  lemma BusyTarget(th: Thread, s: Session)
    requires OnTrack(th, s) && Busy(th)
    ensures Target(th.request).Some? && (th.request.Act? || th.request.Create?)
  {
    hide FreshIds, Plan;
  }

  lemma WritingStep(sys: System, w: World, traces: map<string, Trace>, t: nat)
    requires Agrees(sys, w) && Inv(w, traces) && Enabled(sys, Advance(t)) && sys.threads[t].phase.Writing?
    requires !Collides(sys, Advance(t))
    ensures GoodStep(sys, w, t, Progress(sys, t))
  {
    hide Agrees, FreshIds, Step, Inv, Plan, Handle, Write, PutCharge, Collides, NewIds;
    var th := sys.threads[t];
    var Writing(e, charged, queued) := th.phase;
    if e.charge.Some? && !charged && !(th.request.Create? && queued == 0) {
      ChargeStep(sys, w, t, e, queued);
    } else if queued < |e.events| {
      EventStep(sys, w, t, e, charged, queued);
    } else {
      LastWriteStep(sys, w, traces, t);
    }
  }

  lemma LastWriteStep(sys: System, w: World, traces: map<string, Trace>, t: nat)
    requires Agrees(sys, w) && Inv(w, traces) && Enabled(sys, Advance(t)) && sys.threads[t].phase.Writing?
    requires !Collides(sys, Advance(t))
    requires var th := sys.threads[t];
      && (th.phase.effects.charge.Some? && !th.phase.charged ==> th.request.Create? && th.phase.queued == 0)
      && th.phase.queued >= |th.phase.effects.events|
    ensures GoodStep(sys, w, t, Progress(sys, t))
  {
    hide Agrees, FreshIds, Step, Inv, Plan, Handle, Write, OnTrack, Collides, NewIds;
    var th := sys.threads[t];
    QueuedInRange(sys, w, t);
    UncommittedOnTrack(sys, w, t);
    NotRead(sys, w, t);
    WriterFacts(th, w);
    StoreStep(sys, w, traces, t, th.phase.effects, th.phase.charged);
  }

  /** The intent a request stores is not one an action has read. */
  lemma NotRead(sys: System, w: World, t: nat)
    requires Agrees(sys, w) && Enabled(sys, Advance(t)) && sys.threads[t].phase.Writing? && !Collides(sys, Advance(t))
    requires Progress(sys, t).threads == sys.threads[t := sys.threads[t].(phase := Stored(sys.threads[t].phase.effects))]
    ensures forall u: nat | u < |sys.threads| && u != t && sys.threads[u].phase.Loaded? ::
      Target(sys.threads[t].request) != Target(sys.threads[u].request)
  {
    hide FreshIds, ChargesAgree, EventsAgree, Progress, Plan, IntentFor;
    assert OnTrack(sys.threads[t], w.session);
    forall u: nat | u < |sys.threads| && u != t && sys.threads[u].phase.Loaded?
      ensures Target(sys.threads[t].request) != Target(sys.threads[u].request)
    {
      assert OnTrack(sys.threads[u], w.session) && Holding(sys.threads[u]);
      assert Holding(sys.threads[t]) <==> sys.lock == Some(t);
      assert !CollidesWith(sys, Take(sys, Advance(t)), t, u);
    }
  }

  lemma QueuedInRange(sys: System, w: World, t: nat)
    requires Agrees(sys, w) && t < |sys.threads| && sys.threads[t].phase.Writing?
    ensures sys.threads[t].phase.queued <= |sys.threads[t].phase.effects.events|
  {
    hide Of, FreshIds, Plan;
    var th := sys.threads[t];
    assert OnTrack(th, w.session);
    assert Writes(th, Target(th.request).value);
  }

  lemma RequestsStay(threads: seq<Thread>, next: seq<Thread>, order: seq<nat>)
    requires InRange(order, |threads|) && |threads| <= |next|
    requires forall u: nat | u < |threads| :: next[u].request == threads[u].request
    ensures InRange(order, |next|) && Requests(next, order) == Requests(threads, order)
  {
  }

  /** A move that commits nothing leaves the serial run as it is; one that commits adds its request at the end. */
  lemma MoveSimulates(sys: System, order: seq<nat>, m: Move) returns (after: seq<nat>)
    requires Simulates(sys, order) && Enabled(sys, m) && !Collides(sys, m)
    ensures Simulates(Take(sys, m), after)
    ensures after == order + (if m.Advance? && Commits(sys, Take(sys, m), m.t) then [m.t] else [])
  {
    var w := Run(Requests(sys.threads, order));
    match m
    case Arrive(r) =>
      after := order;
      assert order + [] == order;
      ArriveSimulates(sys, order, r);
    case Advance(t) =>
      var traces := RunKeepsInv(Requests(sys.threads, order));
      hide Agrees, Progress, GoodStep, ValidRun, Run, SameAnswers, Collides, NewIds;
      ProgressIsGood(sys, w, traces, t);
      var next := Progress(sys, t);
      if Commits(sys, next, t) {
        after := order + [t];
        CommitSimulates(sys, order, t, next);
      } else {
        after := order;
        assert order + [] == order;
        KeepSimulates(sys, order, t, next);
      }
  }

  lemma ArriveSimulates(sys: System, order: seq<nat>, r: Request)
    requires Simulates(sys, order) && Enabled(sys, Arrive(r))
    ensures Simulates(Take(sys, Arrive(r)), order)
  {
    var next := Take(sys, Arrive(r));
    hide Agrees, ValidRun, Run;
    assert forall u: nat | u < |sys.threads| :: next.threads[u] == sys.threads[u];
    RequestsStay(sys.threads, next.threads, order);
    ArriveStep(sys, Run(Requests(sys.threads, order)), r, if r.Drain? then sys.world.session.enabled else true);
    assert r.Drain? ==> sys.world.session.(enabled := sys.world.session.enabled) == sys.world.session;
  }

  lemma KeepSimulates(sys: System, order: seq<nat>, t: nat, next: System)
    requires Simulates(sys, order) && GoodStep(sys, Run(Requests(sys.threads, order)), t, next) && !Commits(sys, next, t)
    ensures Simulates(next, order)
  {
    hide Agrees, ValidRun, Run, Handle;
    assert forall u: nat | u < |sys.threads| && u != t :: next.threads[u] == sys.threads[u];
    RequestsStay(sys.threads, next.threads, order);
  }

  lemma CommitSimulates(sys: System, order: seq<nat>, t: nat, next: System)
    requires Simulates(sys, order) && GoodStep(sys, Run(Requests(sys.threads, order)), t, next) && Commits(sys, next, t)
    requires Enabled(sys, Advance(t)) && next == Progress(sys, t)
    ensures Simulates(next, order + [t])
  {
    var rs, r, after := Requests(sys.threads, order), sys.threads[t].request, order + [t];
    CommitterFresh(sys, Run(rs), t);
    hide Agrees, FreshIds, Handle, Step, Run, ValidRun, SameAnswers, Progress, NewIds;
    CommitLists(sys, order, t, next);
    CommittedRequests(sys, order, t, next);
    assert Requests(next.threads, after) == rs + [r];
    OneMoreRequest(rs, r);
    AnswersGrow(sys, order, t, next);
  }

  lemma OneMoreRequest(rs: seq<Request>, r: Request)
    requires ValidRun(rs) && FreshIds(Run(rs).session, r)
    ensures ValidRun(rs + [r]) && Run(rs + [r]) == Step(Run(rs), r)
  {
    hide FreshIds, Step;
    assert forall i | 0 <= i <= |rs| :: (rs + [r])[..i] == rs[..i];
    assert (rs + [r])[..|rs|] == rs;
  }

  lemma CommittedRequests(sys: System, order: seq<nat>, t: nat, next: System)
    requires InRange(order, |sys.threads|) && t < |sys.threads| == |next.threads|
    requires next.threads == sys.threads[t := next.threads[t]] && next.threads[t].request == sys.threads[t].request
    ensures InRange(order + [t], |next.threads|)
    ensures Requests(next.threads, order + [t]) == Requests(sys.threads, order) + [sys.threads[t].request]
  {
  }

  lemma AnswersGrow(sys: System, order: seq<nat>, t: nat, next: System)
    requires Lists(order, sys.threads) && SameAnswers(sys.threads, order) && Commits(sys, next, t)
    requires next.threads == sys.threads[t := next.threads[t]] && next.threads[t].request == sys.threads[t].request
    requires var r, w := sys.threads[t].request, Run(Requests(sys.threads, order));
      !r.Drain? ==> Answer(next.threads[t]) == Some(Handle(w.session, r).1)
    ensures InRange(order + [t], |next.threads|) && SameAnswers(next.threads, order + [t])
  {
    hide Handle, Run, Answer;
    var rs, after := Requests(sys.threads, order), order + [t];
    CommittedRequests(sys, order, t, next);
    var all := Requests(next.threads, after);
    assert all[..|rs|] == rs;
    forall i | 0 <= i < |after| && !all[i].Drain?
      ensures Answer(next.threads[after[i]]) == Some(Handle(Run(all[..i]).session, all[i]).1)
    {
      if i < |order| {
        assert all[..i] == rs[..i] && all[i] == rs[i];
        assert after[i] == order[i] != t;
      }
    }
  }

  /** What commits has drawn its ids, or draws them in the same step. */
  lemma CommitterFresh(sys: System, w: World, t: nat)
    requires Agrees(sys, w) && Enabled(sys, Advance(t)) && Commits(sys, Progress(sys, t), t)
    ensures FreshIds(w.session, sys.threads[t].request)
  {
    hide ChargesAgree, EventsAgree, AllApart, LockAgrees, CreateEffects, Decide, IntentFor, Plan, PlanFits;
    var th := sys.threads[t];
    assert OnTrack(th, w.session);
    if DrawsIds(th) {
      StoredStaysFresh(sys, w, th.request);
    }
  }

  lemma CommitLists(sys: System, order: seq<nat>, t: nat, next: System)
    requires Lists(order, sys.threads) && Commits(sys, next, t)
    requires |sys.threads| == |next.threads| && next.threads == sys.threads[t := next.threads[t]]
    ensures Lists(order + [t], next.threads)
  {
    var after := order + [t];
    forall i | 0 <= i < |after| ensures Committed(next.threads[after[i]]) {
      assert i < |order| ==> after[i] == order[i];
    }
    forall u: nat | u < |next.threads| && Committed(next.threads[u]) ensures u in after {
      assert u == t || u in order;
    }
  }

  lemma IdleSimulates()
    ensures Simulates(IDLE, [])
  {
    assert Requests([], []) == [];
  }

  lemma {:induction false} ScheduleSimulates(moves: seq<Move>)
    requires Orderly(moves)
    ensures Simulates(After(moves), Order(moves))
  {
    hide Simulates, Take, Enabled, Collides, Commits;
    if moves == [] {
      IdleSimulates();
    } else {
      var n := |moves| - 1;
      assert forall i | 0 <= i < n :: moves[..n][..i] == moves[..i];
      ScheduleSimulates(moves[..n]);
      var after := MoveSimulates(After(moves[..n]), Order(moves[..n]), moves[n]);
      assert moves[n].Arrive? ==> after == Order(moves[..n]);
    }
  }
}
