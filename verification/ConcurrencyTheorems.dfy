/**
 * What holds of interleaved requests on one session: some things of every schedule, and serializability of
 * every schedule in which no action and creation of the same intent collide.
 */
module ConcurrencyTheorems {
  import opened Json
  import opened PaymentIntents
  import opened Sessions
  import opened Lifecycle
  import opened LifecycleTheorems
  import opened Concurrency
  import opened Serializability

  /** Every request that has arrived has taken effect. */
  predicate Quiet(sys: System) {
    forall u: nat | u < |sys.threads| :: Committed(sys.threads[u])
  }

  /**
   * The requests that have taken effect, in the order in which they did, form a serial run with the same
   * stored intents and the same answers. When no request is under way, the Charges and, intent by intent,
   * the events are the same too.
   */
  lemma Serializable(moves: seq<Move>)
    requires Orderly(moves)
    ensures var sys, order := After(moves), Order(moves);
      && Lists(order, sys.threads)
      && SameAnswers(sys.threads, order)
      && var rs := Requests(sys.threads, order);
         && ValidRun(rs)
         && sys.world.session.intents == Run(rs).session.intents
         && (Quiet(sys) ==>
               && sys.world.session.charges == Run(rs).session.charges
               && forall id :: Of(sys.world.Emitted(), id) == Of(Run(rs).Emitted(), id))
  {
    ScheduleSimulates(moves);
    hide Of, SameAnswers, Run, ValidRun, OnTrack;
    var sys := After(moves);
    if Quiet(sys) {
      QuietAgrees(sys, Run(Requests(sys.threads, Order(moves))));
    }
  }

  lemma QuietAgrees(sys: System, w: World)
    requires Agrees(sys, w) && Quiet(sys)
    ensures sys.world.session.charges == w.session.charges
    ensures forall id :: Of(sys.world.Emitted(), id) == Of(w.Emitted(), id)
  {
    hide Of;
    forall id ensures NoneWrites(sys.threads, id) {
    }
    var a, b := sys.world.session.charges, w.session.charges;
    forall c ensures Look(a, c) == Look(b, c) {
      assert NoneWroteCharge(sys.threads, c);
    }
    assert forall c :: c in a <==> Look(a, c).Some?;
    assert forall c :: c in b <==> Look(b, c).Some?;
    assert forall c | c in a :: a[c] == Look(a, c).value && b[c] == Look(b, c).value;
  }

  /** The serial order respects time: what took effect earlier comes earlier. */
  lemma {:induction false} OrderGrows(moves: seq<Move>, k: nat)
    requires k <= |moves|
    ensures Order(moves[..k]) <= Order(moves)
  {
    if k == |moves| {
      assert moves[..k] == moves;
    } else {
      var n := |moves| - 1;
      assert moves[..n][..k] == moves[..k];
      OrderGrows(moves[..n], k);
    }
  }

  /** A step changes the request that makes it and no other, and what has taken effect stays so. */
  lemma ProgressOnly(sys: System, t: nat)
    requires t < |sys.threads|
    ensures var next := Progress(sys, t);
      && |next.threads| == |sys.threads| && next.threads == sys.threads[t := next.threads[t]]
      && next.threads[t].request == sys.threads[t].request
      && (Committed(sys.threads[t]) ==> Committed(next.threads[t]))
  {
    hide CreateEffects, Decide, Adopt, IntentFor, PutCharge;
  }

  /** In every schedule, the order lists what has taken effect, each request once. */
  lemma {:induction false} OrderLists(moves: seq<Move>)
    requires Schedule(moves)
    ensures Lists(Order(moves), After(moves).threads)
  {
    if moves != [] {
      var n := |moves| - 1;
      assert forall i | 0 <= i < n :: moves[..n][..i] == moves[..i];
      OrderLists(moves[..n]);
      MoveLists(After(moves[..n]), Order(moves[..n]), moves[n]);
      assert Order(moves[..n]) + [] == Order(moves[..n]);
    }
  }

  lemma MoveLists(sys: System, order: seq<nat>, m: Move)
    requires Lists(order, sys.threads) && Enabled(sys, m)
    ensures var next := Take(sys, m);
      Lists(order + if m.Advance? && Commits(sys, next, m.t) then [m.t] else [], next.threads)
  {
    hide Progress, NewIds;
    var next := Take(sys, m);
    if m.Advance? {
      ProgressOnly(sys, m.t);
      if Commits(sys, next, m.t) {
        CommitLists(sys, order, m.t, next);
        return;
      }
    }
    assert order + [] == order;
    assert forall u: nat | u < |sys.threads| :: Committed(next.threads[u]) <==> Committed(sys.threads[u]);
  }

  /** In every schedule, a request that has taken effect before another arrives comes before it in the order. */
  lemma RealTime(moves: seq<Move>, k: nat, i: nat, j: nat)
    requires Schedule(moves) && k <= |moves| && i < |Order(moves)| && j < |Order(moves)|
    requires var early := After(moves[..k]);
      && Order(moves)[i] < |early.threads| && Committed(early.threads[Order(moves)[i]])
      && Order(moves)[j] >= |early.threads|
    ensures i < j
  {
    assert Schedule(moves[..k]) by {
      assert forall n | 0 <= n < k :: moves[..k][..n] == moves[..n];
    }
    OrderGrows(moves, k);
    OrderLists(moves[..k]);
    OrderLists(moves);
    hide After;
    var before := Order(moves[..k]);
    assert Order(moves)[i] in before;
  }

  lemma {:induction false} AllSimulated(moves: seq<Move>)
    requires Schedule(moves)
    ensures forall th | th in After(moves).threads :: Simulated(th.request)
  {
    if moves != [] {
      var n := |moves| - 1;
      assert forall i | 0 <= i < n :: moves[..n][..i] == moves[..i];
      AllSimulated(moves[..n]);
      var sys := After(moves[..n]);
      hide Simulated, NewIds, After, Schedule;
      assert Enabled(sys, moves[n]);
      MoveKeepsRequests(sys, moves[n]);
    }
  }

  lemma MoveKeepsRequests(sys: System, m: Move)
    requires Enabled(sys, m) && forall th | th in sys.threads :: Simulated(th.request)
    ensures forall th | th in Take(sys, m).threads :: Simulated(th.request)
  {
    hide Simulated, NewIds, CreateEffects, Decide, Adopt;
    var next := Take(sys, m);
    forall u: nat | u < |next.threads|
      ensures next.threads[u].request == if u < |sys.threads| then sys.threads[u].request else m.request
    {
    }
  }

  // What holds of every schedule, collisions included.

  predicate Resolves(p: PaymentIntent, charges: map<string, Charge>) {
    p.latestCharge.Some? ==> p.latestCharge.value in charges
  }

  /** An intent about to be stored, with its Charge stored or still to be stored before it. */
  predicate ToBeStored(th: Thread, charges: map<string, Charge>)
    requires th.phase.Writing?
  {
    var e := th.phase.effects;
    && FieldsAgree(e.intent)
    && (Resolves(e.intent, charges) || (e.charge.Some? && e.intent.latestCharge == Some(e.chargeId)))
    && (th.phase.charged && e.charge.Some? ==> e.chargeId in charges)
    && (th.request.Create? ==> e.events != [])
  }

  predicate ThreadSound(th: Thread, charges: map<string, Charge>) {
    match th.phase
    case Loaded(pi) => FieldsAgree(pi) && Resolves(pi, charges)
    case Writing(_, _, _) => ToBeStored(th, charges)
    case _ => true
  }

  ghost predicate Sound(sys: System) {
    var s := sys.world.session;
    && (forall id | id in s.intents :: FieldsAgree(s.intents[id]) && Resolves(s.intents[id], s.charges))
    && (forall u: nat | u < |sys.threads| :: ThreadSound(sys.threads[u], s.charges))
  }

  lemma RecordKeepsSound(p: PaymentIntent, charges: map<string, Charge>, isCreate: bool, wasAuthorized: bool, gen: Generated)
    requires FieldsAgree(p) && Resolves(p, charges)
    ensures var e := RecordTransition(p, charges, isCreate, wasAuthorized, gen);
      && FieldsAgree(e.intent)
      && (Resolves(e.intent, charges) || (e.charge.Some? && e.intent.latestCharge == Some(e.chargeId)))
      && (isCreate ==> e.events != [])
  {
    hide FillCharge;
  }

  lemma DecideKeepsSound(p: PaymentIntent, charges: map<string, Charge>, action: Action, params: Params, gen: Generated)
    requires FieldsAgree(p) && Resolves(p, charges) && Decide(p, charges, action, params, gen).Accepted?
    ensures var e := Decide(p, charges, action, params, gen).effects;
      && FieldsAgree(e.intent)
      && (Resolves(e.intent, charges) || (e.charge.Some? && e.intent.latestCharge == Some(e.chargeId)))
  {
    hide RecordTransition, OutcomeForPaymentMethod;
    match action
    case Confirm =>
      AfterConfirm(p, params, gen.paymentMethodId);
      RecordKeepsSound(ApplyConfirm(p, params, gen.paymentMethodId), charges, false, false, gen);
    case Capture => RecordKeepsSound(ApplyCapture(p, params), charges, false, true, gen);
    case Cancel => RecordKeepsSound(ApplyCancel(p, params), charges, false, false, gen);
    case Update =>
  }

  lemma CreateIsSound(base: PaymentIntent, charges: map<string, Charge>, params: Params, gen: Generated)
    ensures var e := CreateEffects(base, charges, params, gen);
      && FieldsAgree(e.intent)
      && (Resolves(e.intent, charges) || (e.charge.Some? && e.intent.latestCharge == Some(e.chargeId)))
      && e.events != []
  {
    var q := Prepared(base, params, gen);
    assert FieldsAgree(q.(status := RequiresConfirmation)) && FieldsAgree(q.(status := RequiresPaymentMethod)) && q.latestCharge == None;
    hide Prepared, RecordTransition;
    AfterConfirm(q.(status := RequiresConfirmation), params, gen.paymentMethodId);
    ConfirmIgnoresStatus(q, params, gen.paymentMethodId);
    hide ApplyConfirm;
    RecordKeepsSound(NewIntent(base, params, gen), charges, true, false, gen);
  }

  lemma ThreadStaysSound(th: Thread, charges: map<string, Charge>, more: map<string, Charge>)
    requires ThreadSound(th, charges) && charges.Keys <= more.Keys
    ensures ThreadSound(th, more)
  {
    hide FieldsAgree;
  }

  lemma {:induction false} ScheduleIsSound(moves: seq<Move>)
    requires Schedule(moves)
    ensures Sound(After(moves))
  {
    if moves != [] {
      var n := |moves| - 1;
      assert forall i | 0 <= i < n :: moves[..n][..i] == moves[..i];
      ScheduleIsSound(moves[..n]);
      hide Sound, Take, Enabled;
      MoveKeepsSound(After(moves[..n]), moves[n]);
    }
  }

  lemma MoveKeepsSound(sys: System, m: Move)
    requires Sound(sys) && Enabled(sys, m)
    ensures Sound(Take(sys, m))
  {
    hide FieldsAgree, Resolves, Progress, ToBeStored;
    match m
    case Arrive(_) =>
    case Advance(t) =>
      ProgressOnly(sys, t);
      StepIsSound(sys, t);
      var next := Progress(sys, t);
      forall u: nat | u < |next.threads| ensures ThreadSound(next.threads[u], next.world.session.charges) {
        if u != t {
          assert next.threads[u] == sys.threads[u];
          ThreadStaysSound(sys.threads[u], sys.world.session.charges, next.world.session.charges);
        }
      }
  }

  /** The step from `sys` to `next` keeps what is stored sound, and the request that makes it. */
  ghost predicate SoundStep(sys: System, t: nat, next: System) {
    var s, v := sys.world.session, next.world.session;
    && t < |next.threads|
    && s.charges.Keys <= v.charges.Keys
    && (forall id | id in v.intents :: FieldsAgree(v.intents[id]) && Resolves(v.intents[id], v.charges))
    && ThreadSound(next.threads[t], v.charges)
  }

  lemma WriteIsSound(sys: System, t: nat)
    requires Sound(sys) && t < |sys.threads| && sys.threads[t].phase.Writing?
    ensures var th := sys.threads[t];
      SoundStep(sys, t, WriteNext(sys, t, th.request, th.phase.effects, th.phase.charged, th.phase.queued))
  {
    hide FieldsAgree, StoreId;
    assert ThreadSound(sys.threads[t], sys.world.session.charges);
  }

  lemma StepIsSound(sys: System, t: nat)
    requires Sound(sys) && t < |sys.threads|
    ensures SoundStep(sys, t, Progress(sys, t))
  {
    hide FieldsAgree, CreateEffects, Decide, WriteNext;
    var th, s := sys.threads[t], sys.world.session;
    assert ThreadSound(th, s.charges);
    match (th.request, th.phase)
    case (Create(_, params, gen), Started) =>
      if gen.intentBase.Some? {
        CreateIsSound(gen.intentBase.value, s.charges, params, gen);
      }
    case (Act(_, id, Some(_), _, gen), Locked) =>
      if gen.intentBase.Some? {
        AdoptAgrees(gen.intentBase.value, id);
      }
    case (Act(_, _, Some(action), params, gen), Loaded(pi)) =>
      if Decide(pi, s.charges, action, params, gen).Accepted? {
        DecideKeepsSound(pi, s.charges, action, params, gen);
      }
    case (_, Writing(_, _, _)) => WriteIsSound(sys, t);
    case _ =>
  }

  lemma AdoptAgrees(base: PaymentIntent, id: string)
    ensures FieldsAgree(Adopt(base, id)) && Adopt(base, id).latestCharge == None
  {
  }

  /**
   * In every schedule, at every moment, also in the middle of an action: the fields of a stored intent fit its
   * status, and the Charge it points to is stored.
   */
  lemma AlwaysSound(moves: seq<Move>, id: string)
    requires Schedule(moves) && id in After(moves).world.session.intents
    ensures var s := After(moves).world.session;
      && FieldsAgree(s.intents[id])
      && (s.intents[id].latestCharge.Some? ==> s.intents[id].latestCharge.value in s.charges)
  {
    ScheduleIsSound(moves);
  }

  // Schedules without collisions.

  /** No action and creation of one intent are both waiting for their answer. */
  predicate Separate(sys: System) {
    forall t: nat, u: nat | t < |sys.threads| && u < |sys.threads| :: OneAnswered(sys.threads[t], sys.threads[u])
  }

  predicate OneAnswered(a: Thread, c: Thread) {
    a.request.Act? && c.request.Create? && Target(a.request) == Target(c.request) ==> a.phase.Finished? || c.phase.Finished?
  }

  lemma CollisionOverlaps(sys: System, m: Move)
    requires Enabled(sys, m) && Collides(sys, m)
    ensures !Separate(sys)
  {
    hide NewIds, IntentFor, Decide, CreateEffects, WriteNext;
    var u: nat :| u < |sys.threads| && CollidesWith(sys, Take(sys, m), m.t, u);
    if sys.threads[m.t].request.Act? {
      assert !OneAnswered(sys.threads[m.t], sys.threads[u]);
    } else {
      assert !OneAnswered(sys.threads[u], sys.threads[m.t]);
    }
  }

  /**
   * So a client that has the answer to a creation before it acts on the intent sees no collision: the theorems
   * below hold whenever no action and creation of one intent are unanswered at the same time.
   */
  lemma SeparateIsOrderly(moves: seq<Move>)
    requires Schedule(moves) && forall i | 0 <= i <= |moves| :: Separate(After(moves[..i]))
    ensures Orderly(moves)
  {
    hide After, Enabled, Separate, Collides;
    forall i | 0 <= i < |moves| ensures !Collides(After(moves[..i]), moves[i]) {
      if Collides(After(moves[..i]), moves[i]) {
        CollisionOverlaps(After(moves[..i]), moves[i]);
      }
    }
  }

  /** Without collisions, when no request is under way, the events and Charges of an intent tell its status, as in a serial run. */
  lemma ConcurrentEventTrace(moves: seq<Move>, id: string) returns (t: Trace)
    requires Orderly(moves) && Quiet(After(moves))
    ensures var w := After(moves).world;
      About(w.Emitted(), id) == Render(t) &&
      if id in w.session.intents then
        && TellsStatus(t, w.session.intents[id].status) && ChargesCounted(t, w.session.charges, id)
        && FieldsAgree(w.session.intents[id]) && ChargeAgrees(w.session.intents[id], w.session.charges)
      else t == BLANK
  {
    Serializable(moves);
    var sys := After(moves);
    var rs := Requests(sys.threads, Order(moves));
    hide Of, About, Render, Run, ValidRun, ChargesCounted, FieldsAgree, ChargeAgrees, TellsStatus;
    t := EventTrace(rs, id);
    if id in sys.world.session.intents {
      ReachableIntents(rs, id);
    }
    AboutIsKinds(sys.world.Emitted(), id);
    AboutIsKinds(Run(rs).Emitted(), id);
    assert Of(sys.world.Emitted(), id) == Of(Run(rs).Emitted(), id);
  }

  predicate Captures(th: Thread, id: string) {
    th.request.Act? && th.request.id == id && th.request.action == Some(Capture) && Answer(th).Some? && Answer(th).value.Served?
  }

  /** Without collisions, no two captures of one intent are both served. */
  lemma OneCapture(moves: seq<Move>, a: nat, b: nat, id: string)
    requires Orderly(moves) && a < |After(moves).threads| && b < |After(moves).threads| && a != b
    ensures !(Captures(After(moves).threads[a], id) && Captures(After(moves).threads[b], id))
  {
    hide Agrees, SameAnswers, ValidRun, Run, After, Schedule, Collides;
    var sys, order := After(moves), Order(moves);
    if Captures(sys.threads[a], id) && Captures(sys.threads[b], id) {
      ScheduleSimulates(moves);
      assert Committed(sys.threads[a]) && Committed(sys.threads[b]);
      var i :| 0 <= i < |order| && order[i] == a;
      var j :| 0 <= j < |order| && order[j] == b;
      SecondCaptureRefused(moves, if i < j then i else j, if i < j then j else i, id);
    }
  }

  lemma SecondCaptureRefused(moves: seq<Move>, i: nat, j: nat, id: string)
    requires Orderly(moves) && i < j < |Order(moves)|
    requires Simulates(After(moves), Order(moves))
    requires Captures(After(moves).threads[Order(moves)[i]], id)
    ensures !Captures(After(moves).threads[Order(moves)[j]], id)
  {
    var sys, order := After(moves), Order(moves);
    var rs := Requests(sys.threads, order);
    AllSimulated(moves);
    SerialRunSimulated(sys.threads, order);
    hide Agrees, After, Order, Schedule, Run, ValidRun, Handle;
    SerialSecondCapture(rs, i, j, id);
  }

  lemma SerialRunSimulated(threads: seq<Thread>, order: seq<nat>)
    requires InRange(order, |threads|) && forall th | th in threads :: Simulated(th.request)
    ensures forall r | r in Requests(threads, order) :: Simulated(r)
  {
  }

  /** After a capture has been served, a later one on the same intent is refused. */
  lemma SerialSecondCapture(rs: seq<Request>, i: nat, j: nat, id: string)
    requires ValidRun(rs) && i < j < |rs| && forall r | r in rs :: Simulated(r)
    requires rs[i].Act? && rs[i].id == id && rs[i].action == Some(Capture)
    requires Handle(Run(rs[..i]).session, rs[i]).1.Served?
    ensures rs[j].Act? && rs[j].id == id && rs[j].action == Some(Capture) ==> !Handle(Run(rs[..j]).session, rs[j]).1.Served?
  {
    var first, more := rs[..i + 1], rs[i + 1..j];
    assert rs[i] in rs && rs[j] in rs;
    SplitRun(rs, i, j);
    ServedCaptureSettles(Run(rs[..i]), rs[i]);
    hide Run, ValidRun, Step, Decide, Simulated;
    FinalForever(first, more, id);
    var p := Run(rs[..j]).session.intents[id];
    if rs[j].Act? && rs[j].id == id && rs[j].action == Some(Capture) {
      DecideKeepsFinal(p, Run(rs[..j]).session.charges, Capture, rs[j].params, rs[j].gen);
    }
  }

  lemma SplitRun(rs: seq<Request>, i: nat, j: nat)
    requires ValidRun(rs) && i < j < |rs| && forall r | r in rs :: Simulated(r)
    ensures var first, more := rs[..i + 1], rs[i + 1..j];
      first + more == rs[..j] && Run(first) == Step(Run(rs[..i]), rs[i]) && ValidRun(rs[..j]) && NoReset(more)
  {
    hide Step, ValidRun, Run, FreshIds;
    var first, more := rs[..i + 1], rs[i + 1..j];
    assert first + more == rs[..j];
    assert forall r | r in more :: r in rs;
    PrefixValid(rs, j);
    assert first[..i] == rs[..i] && first[i] == rs[i];
    LastStep(first);
  }

  lemma LastStep(rs: seq<Request>)
    requires rs != []
    ensures Run(rs) == Step(Run(rs[..|rs| - 1]), rs[|rs| - 1])
  {
    hide Step;
  }

  lemma PrefixValid(rs: seq<Request>, j: nat)
    requires ValidRun(rs) && j <= |rs|
    ensures ValidRun(rs[..j])
  {
    hide Run, FreshIds;
    assert forall k | 0 <= k < j :: rs[..j][..k] == rs[..k];
  }

  lemma ServedCaptureSettles(w: World, r: Request)
    requires Simulated(r) && r.Act? && r.action == Some(Capture) && Handle(w.session, r).1.Served?
    ensures r.id in Step(w, r).session.intents && Step(w, r).session.intents[r.id].status == Succeeded
  {
    var found := IntentFor(w.session, r.id, r.gen);
    hide Adopt, RecordTransition;
    CaptureRecorded(ApplyCapture(found.value, r.params), w.session.charges, r.gen);
  }
}
