/** The store behind the stateful layer: one session store per session id, created when first written to. */
module StatefulStore {
  import opened Json
  import opened PaymentIntents
  import opened Sessions

  /** The operations of the store; each runs under the store's lock. */
  datatype Op =
    | ResetSession
    | SetEnabled(enabled: bool)
    | IsEnabled
    | PutIntent(id: string, intent: PaymentIntent)
    | GetIntent(id: string)
    | StoreCharge(id: string, charge: Charge)
    | GetCharge(id: string)
    | Enqueue(event: Event)
    | DrainEvents

  datatype Result =
    | Nothing
    | Flag(b: bool)
    | FoundIntent(intent: Option<PaymentIntent>)
    | FoundCharge(charge: Option<Charge>)
    | Batch(events: seq<Event>)

  function OrEmpty(s: Option<Session>): Session {
    if s.Some? then s.value else EMPTY_SESSION
  }

  /** What an operation does to its session, which may not exist, and what it returns. */
  function Apply(s: Option<Session>, op: Op): (Option<Session>, Result) {
    var t := OrEmpty(s);
    match op
    case ResetSession => (None, Nothing)
    case SetEnabled(enabled) => (Some(t.(enabled := enabled)), Nothing)
    case IsEnabled => (s, Flag(t.enabled))
    case PutIntent(id, intent) => (Some(t.(intents := t.intents[id := intent])), Nothing)
    case GetIntent(id) => (s, FoundIntent(if id in t.intents then Some(t.intents[id]) else None))
    case StoreCharge(id, charge) => (Some(t.(charges := t.charges[id := charge])), Nothing)
    case GetCharge(id) => (s, FoundCharge(if id in t.charges then Some(t.charges[id]) else None))
    case Enqueue(event) => (Some(t.(events := t.events + [event])), Nothing)
    case DrainEvents => (if s.Some? then Some(t.(events := [])) else None, Batch(t.events))
  }

  type View = map<string, Session>

  function At(v: View, session: string): Option<Session> {
    if session in v then Some(v[session]) else None
  }

  function With(v: View, session: string, s: Option<Session>): View {
    if s.Some? then v[session := s.value] else v - {session}
  }

  function Exec(v: View, session: string, op: Op): (View, Result) {
    var r := Apply(At(v, session), op);
    (With(v, session, r.0), r.1)
  }

  /** What a writing operation leaves: its session, made if need be, with one part changed. */
  lemma WriteOf(v: View, session: string, op: Op)
    ensures var w := With(v, session, Some(OrEmpty(At(v, session))));
      var t := w[session];
      match op
      case SetEnabled(enabled) => Exec(v, session, op).0 == w[session := t.(enabled := enabled)]
      case PutIntent(id, intent) => Exec(v, session, op).0 == w[session := t.(intents := t.intents[id := intent])]
      case StoreCharge(id, charge) => Exec(v, session, op).0 == w[session := t.(charges := t.charges[id := charge])]
      case Enqueue(event) => Exec(v, session, op).0 == w[session := t.(events := t.events + [event])]
      case _ => true
  {
  }

  function Enqueues(events: seq<Event>): seq<Op> {
    seq(|events|, i requires 0 <= i < |events| => Enqueue(events[i]))
  }

  /** The writes that record a transition: a creation's event first, then the Charge, then the other events. */
  function Recording(e: Effects, isCreate: bool): seq<Op> {
    var first := if isCreate && e.events != [] then 1 else 0;
    Enqueues(e.events[..first]) + (if e.charge.Some? then [StoreCharge(e.chargeId, e.charge.value)] else [])
    + Enqueues(e.events[first..])
  }

  /** All the writes of a transition: the intent is stored last. */
  function Writes(id: string, e: Effects, isCreate: bool): seq<Op> {
    Recording(e, isCreate) + [PutIntent(id, e.intent)]
  }

  /** The writes of a request that the stateful layer handles. */
  function RequestWrites(s: Session, r: Request): seq<Op> {
    match Plan(s, r)
    case Some(e) => Writes(StoreId(r), e, r.Create?)
    case None => []
  }

  /** The objects and the queue of one session. */
  class SessionStore {
    var intents: map<string, PaymentIntent>
    var charges: map<string, Charge>
    var events: seq<Event>
    var statefulEnabled: bool

    constructor ()
      ensures Value() == EMPTY_SESSION
    {
      intents, charges, events, statefulEnabled := map[], map[], [], false;
    }

    ghost function Value(): Session
      reads this
    {
      Session(intents, charges, events, statefulEnabled)
    }
  }

  /** A write of an object or an event to a session. */
  datatype Written = Written(session: string, op: Op)

  function To(session: string, ops: seq<Op>): seq<Written> {
    seq(|ops|, i requires 0 <= i < |ops| => Written(session, ops[i]))
  }

  class Store {
    var sessions: map<string, SessionStore>

    /** The objects and events written so far, in order. */
    ghost var written: seq<Written>

    /** Different sessions have different stores. */
    ghost predicate Valid()
      reads this`sessions
    {
      forall a, b | a in sessions && b in sessions && a != b :: sessions[a] != sessions[b]
    }

    ghost function Repr(): set<SessionStore>
      reads this`sessions
    {
      sessions.Values
    }

    ghost function View(): View
      reads this`sessions, Repr()
    {
      map k | k in sessions :: sessions[k].Value()
    }

    constructor ()
      ensures Valid() && View() == map[]
    {
      sessions := map[];
      written := [];
    }

    method EnsureSession(id: string) returns (sess: SessionStore)
      requires Valid()
      modifies this
      ensures Valid() && id in sessions && sess == sessions[id] && written == old(written)
      ensures id in old(sessions) ==> sessions == old(sessions)
      ensures id !in old(sessions) ==> fresh(sess) && sessions == old(sessions)[id := sess] && sess.Value() == EMPTY_SESSION
      ensures View() == With(old(View()), id, Some(OrEmpty(At(old(View()), id))))
    {
      if id in sessions {
        sess := sessions[id];
      } else {
        sess := new SessionStore();
        sessions := sessions[id := sess];
        assert View() == old(View())[id := EMPTY_SESSION];
      }
    }

    method Reset(session: string)
      requires Valid()
      modifies this
      ensures Valid() && View() == Exec(old(View()), session, ResetSession).0
      ensures Repr() <= old(Repr()) && written == old(written)
    {
      sessions := sessions - {session};
    }

    method SetStatefulEnabled(session: string, enabled: bool)
      requires Valid()
      modifies this, Repr()
      ensures Valid() && fresh(Repr() - old(Repr()))
      ensures View() == Exec(old(View()), session, SetEnabled(enabled)).0 && written == old(written)
    {
      hide Exec, View, With, OrEmpty, At;
      WriteOf(View(), session, SetEnabled(enabled));
      var sess := EnsureSession(session);
      SetFlag(session, sess, enabled);
    }

    method SetFlag(ghost session: string, sess: SessionStore, enabled: bool)
      requires Valid() && session in sessions && sess == sessions[session]
      modifies sess
      ensures var v := old(View()); session in v && View() == v[session := v[session].(enabled := enabled)]
    {
      sess.statefulEnabled := enabled;
    }

    method StatefulEnabled(session: string) returns (enabled: bool)
      requires Valid()
      ensures Flag(enabled) == Exec(View(), session, IsEnabled).1
    {
      enabled := session in sessions && sessions[session].statefulEnabled;
    }

    method PutPaymentIntent(session: string, id: string, obj: PaymentIntent)
      requires Valid()
      modifies this, Repr()
      ensures Valid() && fresh(Repr() - old(Repr()))
      ensures View() == Exec(old(View()), session, PutIntent(id, obj)).0
      ensures written == old(written) + [Written(session, PutIntent(id, obj))]
    {
      hide Exec, View, With, OrEmpty, At;
      WriteOf(View(), session, PutIntent(id, obj));
      written := written + [Written(session, PutIntent(id, obj))];
      var sess := EnsureSession(session);
      SetIntent(session, sess, id, obj);
    }

    method SetIntent(ghost session: string, sess: SessionStore, id: string, obj: PaymentIntent)
      requires Valid() && session in sessions && sess == sessions[session]
      modifies sess
      ensures var v := old(View()); session in v && View() == v[session := v[session].(intents := v[session].intents[id := obj])]
    {
      sess.intents := sess.intents[id := obj];
    }

    method GetPaymentIntent(session: string, id: string) returns (obj: Option<PaymentIntent>)
      requires Valid()
      ensures FoundIntent(obj) == Exec(View(), session, GetIntent(id)).1
    {
      if session !in sessions || id !in sessions[session].intents {
        return None;
      }
      obj := Some(sessions[session].intents[id]);
    }

    method PutChargeObject(session: string, id: string, obj: Charge)
      requires Valid()
      modifies this, Repr()
      ensures Valid() && fresh(Repr() - old(Repr()))
      ensures View() == Exec(old(View()), session, StoreCharge(id, obj)).0
      ensures written == old(written) + [Written(session, StoreCharge(id, obj))]
    {
      hide Exec, View, With, OrEmpty, At;
      WriteOf(View(), session, StoreCharge(id, obj));
      written := written + [Written(session, StoreCharge(id, obj))];
      var sess := EnsureSession(session);
      SetCharge(session, sess, id, obj);
    }

    method SetCharge(ghost session: string, sess: SessionStore, id: string, obj: Charge)
      requires Valid() && session in sessions && sess == sessions[session]
      modifies sess
      ensures var v := old(View()); session in v && View() == v[session := v[session].(charges := v[session].charges[id := obj])]
    {
      sess.charges := sess.charges[id := obj];
    }

    method GetChargeObject(session: string, id: string) returns (obj: Option<Charge>)
      requires Valid()
      ensures FoundCharge(obj) == Exec(View(), session, GetCharge(id)).1
    {
      if session !in sessions || id !in sessions[session].charges {
        return None;
      }
      obj := Some(sessions[session].charges[id]);
    }

    method EnqueueEvent(session: string, event: Event)
      requires Valid()
      modifies this, Repr()
      ensures Valid() && fresh(Repr() - old(Repr()))
      ensures View() == Exec(old(View()), session, Enqueue(event)).0
      ensures written == old(written) + [Written(session, Enqueue(event))]
    {
      hide Exec, View, With, OrEmpty, At;
      WriteOf(View(), session, Enqueue(event));
      written := written + [Written(session, Enqueue(event))];
      var sess := EnsureSession(session);
      AddEvent(session, sess, event);
    }

    method AddEvent(ghost session: string, sess: SessionStore, event: Event)
      requires Valid() && session in sessions && sess == sessions[session]
      modifies sess
      ensures var v := old(View()); session in v && View() == v[session := v[session].(events := v[session].events + [event])]
    {
      sess.events := sess.events + [event];
    }

    method Drain(session: string) returns (events: seq<Event>)
      requires Valid()
      modifies Repr()
      ensures Valid() && Repr() == old(Repr())
      ensures (View(), Batch(events)) == Exec(old(View()), session, DrainEvents)
    {
      ghost var v := View();
      if session !in sessions || |sessions[session].events| == 0 {
        assert session !in v ==> v - {session} == v;
        assert session in v ==> v[session := v[session].(events := [])] == v;
        return [];
      }
      var sess := sessions[session];
      events := sess.events;
      sess.events := [];
      assert View() == v[session := v[session].(events := [])];
    }
  }
}
