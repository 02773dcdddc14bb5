/**
 * Requests of one session running at the same time. Every access to the store is a step of its own; actions
 * hold the action lock from before they read their intent until after they have stored it, and creations, reads
 * and drains hold no lock.
 */
module Concurrency {
  import opened Json
  import opened PaymentIntents
  import opened Sessions
  import opened Lifecycle

  /** How far a request has come. */
  datatype Phase =
    | Started
    | Locked
    | Loaded(intent: PaymentIntent)
    | Writing(effects: Effects, charged: bool, queued: nat)
    | Stored(effects: Effects)
    | Finished(response: Response)

  datatype Thread = Thread(request: Request, phase: Phase)

  /** The session with what has been drained from it, the holder of the action lock, and the requests so far. */
  datatype System = System(world: World, lock: Option<nat>, threads: seq<Thread>)

  const IDLE := System(INITIAL, None, [])

  /** A request arrives, or the request number `t` takes its next step. */
  datatype Move = Arrive(request: Request) | Advance(t: nat)

  function NewChargeId(r: Request): Option<string> {
    match r
    case Create(_, _, gen) => Some(gen.chargeId)
    case Act(_, _, _, _, gen) => Some(gen.chargeId)
    case _ => None
  }

  /** A request has taken effect once its intent is stored, or once it is known that it writes nothing. */
  predicate Committed(th: Thread) {
    th.phase.Stored? || th.phase.Finished?
  }

  /** Requests of the stateful layer that opt in, none of which resets or configures the session. */
  predicate Simulated(r: Request) {
    match r
    case Create(stateful, _, _) => stateful
    case Act(stateful, _, action, _, _) => stateful && action.Some?
    case Retrieve(stateful, _) => stateful
    case Drain => true
    case _ => false
  }

  /** The step in which a request gets its new ids. */
  predicate DrawsIds(th: Thread) {
    (th.request.Create? && th.phase.Started?) || (th.request.Act? && th.phase.Locked?)
  }

  /** A request that has its new ids and has not stored its intent. */
  predicate Drawn(th: Thread) {
    th.phase.Loaded? || th.phase.Writing?
  }

  /** When ids are drawn, no stored object has them, and no request that works on an intent uses them. */
  predicate NewIds(sys: System, r: Request) {
    && FreshIds(sys.world.session, r)
    && forall u: nat | u < |sys.threads| && Drawn(sys.threads[u]) :: Unused(sys.threads[u].request, r)
  }

  predicate Unused(q: Request, r: Request) {
    NewChargeId(q) != NewChargeId(r) && (r.Create? && Target(r).Some? ==> Target(q) != Target(r))
  }

  predicate Enabled(sys: System, m: Move) {
    match m
    case Arrive(r) => Simulated(r)
    case Advance(t) =>
      && t < |sys.threads|
      && !sys.threads[t].phase.Finished?
      && (sys.threads[t].request.Act? && sys.threads[t].phase.Started? ==> sys.lock.None?)
      && (DrawsIds(sys.threads[t]) ==> NewIds(sys, sys.threads[t].request))
  }

  function Take(sys: System, m: Move): System {
    match m
    case Arrive(r) =>
      var s := sys.world.session;
      System(sys.world.(session := if r.Drain? then s else s.(enabled := true)), sys.lock, sys.threads + [Thread(r, Started)])
    case Advance(t) =>
      if Enabled(sys, m) then Progress(sys, t) else sys
  }

  function Become(sys: System, t: nat, phase: Phase): System
    requires t < |sys.threads|
  {
    sys.(threads := sys.threads[t := sys.threads[t].(phase := phase)])
  }

  /** One step of the request number `t`. */
  function Progress(sys: System, t: nat): System
    requires t < |sys.threads|
  {
    var th := sys.threads[t];
    var s := sys.world.session;
    match (th.request, th.phase)
    case (Create(_, params, gen), Started) =>
      if BoolParam(params.confirm) && !ConfirmHasPaymentMethod(Null, params) then
        Become(sys, t, Finished(Refused(MissingPaymentMethod)))
      else if gen.intentBase.None? then Become(sys, t, Finished(GeneratorFailed))
      else Become(sys, t, Writing(CreateEffects(gen.intentBase.value, s.charges, params, gen), false, 0))
    case (Act(_, _, Some(_), _, _), Started) => Become(sys, t, Locked).(lock := Some(t))
    case (Act(_, id, Some(_), _, gen), Locked) =>
      (match IntentFor(s, id, gen)
       case Some(pi) => Become(sys, t, Loaded(pi))
       case None => Become(sys, t, Finished(GeneratorFailed)).(lock := None))
    case (Act(_, _, Some(action), params, gen), Loaded(pi)) =>
      (match Decide(pi, s.charges, action, params, gen)
       case Accepted(e) => Become(sys, t, Writing(e, false, 0))
       case Rejected(reason) => Become(sys, t, Finished(Refused(reason))).(lock := None))
    case (r, Writing(e, charged, queued)) => WriteNext(sys, t, r, e, charged, queued)
    case (r, Stored(e)) => Become(sys, t, Finished(Served(e.intent))).(lock := if r.Act? then None else sys.lock)
    case (Retrieve(_, id), Started) => Become(sys, t, Finished(if id in s.intents then Served(s.intents[id]) else Generic))
    case (Drain, Started) =>
      Become(sys, t, Finished(Events(s.events))).(world := World(s.(events := []), sys.world.drained + s.events))
    case _ => sys
  }

  /**
   * The next write of a transition: the Charge comes before the events, except the creation event, and the
   * intent comes last.
   */
  function WriteNext(sys: System, t: nat, r: Request, e: Effects, charged: bool, queued: nat): System
    requires t < |sys.threads|
  {
    var s := sys.world.session;
    if e.charge.Some? && !charged && !(r.Create? && queued == 0) then
      Become(sys, t, Writing(e, true, queued)).(world := sys.world.(session := s.(charges := PutCharge(s.charges, e))))
    else if queued < |e.events| then
      Become(sys, t, Writing(e, charged, queued + 1)).(world := sys.world.(session := s.(events := s.events + [e.events[queued]])))
    else
      Become(sys, t, Stored(e)).(world := sys.world.(session := s.(intents := s.intents[StoreId(r) := e.intent])))
  }

  function After(moves: seq<Move>): System {
    if moves == [] then IDLE else Take(After(moves[..|moves| - 1]), moves[|moves| - 1])
  }

  /** A schedule: any interleaving in which every move can be made. */
  predicate Schedule(moves: seq<Move>) {
    forall i | 0 <= i < |moves| :: Enabled(After(moves[..i]), moves[i])
  }

  /** The requests that have taken effect, in the order in which they did. */
  function Order(moves: seq<Move>): seq<nat> {
    if moves == [] then []
    else
      var n := |moves| - 1;
      Order(moves[..n]) + match moves[n]
                          case Arrive(_) => []
                          case Advance(t) => if Commits(After(moves[..n]), After(moves), t) then [t] else []
  }

  predicate Commits(sys: System, next: System, t: nat) {
    t < |sys.threads| && t < |next.threads| && !Committed(sys.threads[t]) && Committed(next.threads[t])
  }

  // Creations take no lock, and their first event gives their id away before the intent is stored.

  /** A request that is writing its Charge, events and intent. */
  predicate AtWork(sys: System, t: nat) {
    t < |sys.threads| && sys.threads[t].phase.Writing?
  }

  /**
   * A move after which an action and a creation of the same intent may overwrite each other: the action is
   * accepted while the creation is under way, and what it stores is replaced by what the creation stores; or the
   * creation stores the intent while the action holds an older copy, and if the action is then accepted, what the
   * creation has stored is replaced.
   */
  predicate Collides(sys: System, m: Move) {
    m.Advance? && exists u: nat | u < |sys.threads| :: CollidesWith(sys, Take(sys, m), m.t, u)
  }

  predicate CollidesWith(sys: System, next: System, t: nat, u: nat)
    requires u < |sys.threads|
  {
    && t < |sys.threads|
    && Target(sys.threads[t].request).Some? && Target(sys.threads[t].request) == Target(sys.threads[u].request)
    && if sys.threads[t].request.Act? then
         !AtWork(sys, t) && AtWork(next, t) && sys.threads[u].request.Create? && AtWork(sys, u)
       else
         AtWork(sys, t) && !AtWork(next, t) && sys.threads[u].request.Act? && sys.threads[u].phase.Loaded?
  }

  /** A schedule no move of which collides. */
  predicate Orderly(moves: seq<Move>) {
    && Schedule(moves)
    && forall i | 0 <= i < |moves| :: !Collides(After(moves[..i]), moves[i])
  }
}
