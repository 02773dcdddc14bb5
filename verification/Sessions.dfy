/** One session of the mock: its stored objects, its event queue, and what each request does to them. */
module Sessions {
  import opened Json
  import opened PaymentIntents

  datatype Session = Session(
    intents: map<string, PaymentIntent>,
    charges: map<string, Charge>,
    events: seq<Event>,
    enabled: bool)

  const EMPTY_SESSION := Session(map[], map[], [], false)

  /** `stateful` says whether the request carries the header that opts the session in. */
  datatype Request =
    | Create(stateful: bool, params: Params, gen: Generated)
    | Act(stateful: bool, id: string, action: Option<Action>, params: Params, gen: Generated)
    | Retrieve(stateful: bool, id: string)
    | Config(enabled: bool)
    | Drain
    | Reset

  datatype Response =
    | Served(intent: PaymentIntent)
    | Refused(reason: Rejection)
    | GeneratorFailed
    | Generic
    | Events(events: seq<Event>)
    | Acknowledged

  function PutCharge(charges: map<string, Charge>, e: Effects): map<string, Charge> {
    if e.charge.Some? then charges[e.chargeId := e.charge.value] else charges
  }

  /** The session after the writes of one transition of the intent `id`. */
  function Write(s: Session, id: string, e: Effects): Session {
    s.(intents := s.intents[id := e.intent], charges := PutCharge(s.charges, e), events := s.events + e.events)
  }

  function HandleCreate(s: Session, params: Params, gen: Generated): (Session, Response) {
    if BoolParam(params.confirm) && !ConfirmHasPaymentMethod(Null, params) then (s, Refused(MissingPaymentMethod))
    else
      match gen.intentBase
      case None => (s, GeneratorFailed)
      case Some(base) =>
        var e := CreateEffects(base, s.charges, params, gen);
        (Write(s, CreatedId(base, gen), e), Served(e.intent))
  }

  /** The intent an action works on: the stored one, or a new base taking over the id. */
  function IntentFor(s: Session, id: string, gen: Generated): Option<PaymentIntent> {
    if id in s.intents then Some(s.intents[id])
    else if gen.intentBase.Some? then Some(Adopt(gen.intentBase.value, id))
    else None
  }

  function HandleAct(s: Session, id: string, action: Action, params: Params, gen: Generated): (Session, Response) {
    match IntentFor(s, id, gen)
    case None => (s, GeneratorFailed)
    case Some(pi) =>
      match Decide(pi, s.charges, action, params, gen)
      case Rejected(reason) => (s, Refused(reason))
      case Accepted(e) => (Write(s, id, e), Served(e.intent))
  }

  function OptIn(s: Session, stateful: bool): Session {
    if stateful then s.(enabled := true) else s
  }

  function Handle(s: Session, r: Request): (Session, Response) {
    match r
    case Create(stateful, params, gen) =>
      var t := OptIn(s, stateful);
      if t.enabled then HandleCreate(t, params, gen) else (t, Generic)
    case Act(stateful, id, action, params, gen) =>
      var t := OptIn(s, stateful);
      if t.enabled && action.Some? then HandleAct(t, id, action.value, params, gen) else (t, Generic)
    case Retrieve(stateful, id) =>
      var t := OptIn(s, stateful);
      if t.enabled && id in t.intents then (t, Served(t.intents[id])) else (t, Generic)
    case Config(enabled) => (s.(enabled := enabled), Acknowledged)
    case Drain => (s.(events := []), Events(s.events))
    case Reset => (EMPTY_SESSION, Acknowledged)
  }

  /** The intent a request writes. */
  function Target(r: Request): Option<string> {
    match r
    case Create(_, _, gen) => if gen.intentBase.Some? then Some(CreatedId(gen.intentBase.value, gen)) else None
    case Act(_, id, _, _, _) => Some(id)
    case _ => None
  }

  function StoreId(r: Request): string {
    match Target(r)
    case Some(id) => id
    case None => ""
  }

  /** What a request writes in a session that is simulated, if it writes. */
  function Plan(s: Session, r: Request): Option<Effects> {
    match r
    case Create(_, params, gen) =>
      if gen.intentBase.Some? && !(BoolParam(params.confirm) && !ConfirmHasPaymentMethod(Null, params)) then
        Some(CreateEffects(gen.intentBase.value, s.charges, params, gen))
      else None
    case Act(_, id, Some(action), params, gen) =>
      (match IntentFor(s, id, gen)
       case None => None
       case Some(pi) =>
         match Decide(pi, s.charges, action, params, gen)
         case Accepted(e) => Some(e)
         case Rejected(_) => None)
    case _ => None
  }
}
