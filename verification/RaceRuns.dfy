/** Runs of a new session in which an action collides with the creation of its intent. */
module RaceRuns {
  import opened Json
  import opened PaymentIntents
  import opened Sessions
  import opened Lifecycle
  import opened LifecycleTheorems
  import opened CaptureBound
  import opened Concurrency
  import opened Serializability
  import opened ConcurrencyTheorems
  import opened CreationRaces
  import opened StaleActions

  const CREATE := Create(true, NO_PARAMS.(amount := Some(Num(100.0))), Ids("ch_1"))

  const CANCEL := Act(true, "pi_1", Some(Cancel), NO_PARAMS, Ids("ch_2"))

  const CONFIRM := Act(true, "pi_1", Some(Confirm), NO_PARAMS.(captureMethod := Some(Str("manual")),
                                                             paymentMethod := Some(Str("pm_card_visa"))), Ids("ch_2"))

  const CAPTURE_AGAIN := Act(true, "pi_1", Some(Capture), NO_PARAMS, Ids("ch_4"))

  /** The creation waits for a payment method. */
  lemma CreatePlan()
    ensures var plan := Plan(EMPTY_SESSION, CREATE);
      && plan.Some? && plan.value.intent.amount == Num(100.0) && plan.value.intent.status == RequiresPaymentMethod
      && Kinds(plan.value.events) == [IntentCreated]
    ensures Target(CREATE) == Some("pi_1")
  {
    var base := CREATE.gen.intentBase.value;
    assert base == BASE && CreatedId(base, CREATE.gen) == "pi_1";
  }

  lemma CancelPlan()
    ensures var plan := Plan(EMPTY_SESSION, CANCEL);
      && plan.Some? && plan.value.intent.amount == Num(2000.0) && plan.value.intent.status == Canceled
      && Kinds(plan.value.events) == [IntentCanceled]
  {
    assert CANCEL.gen.intentBase == Some(BASE);
    assert [] + [IntentEvent(IntentCanceled, ApplyCancel(Adopt(BASE, "pi_1"), NO_PARAMS))] ==
           [IntentEvent(IntentCanceled, ApplyCancel(Adopt(BASE, "pi_1"), NO_PARAMS))];
  }

  lemma CancelRaces()
    ensures Races(EMPTY_SESSION, CREATE, CANCEL) && NewIds(IDLE, CREATE) && NewIds(IDLE, CANCEL)
  {
    CreatePlan();
    CancelPlan();
    hide Plan;
  }

  lemma AtStart()
    ensures Schedule([]) && After([]) == IDLE && Quiet(IDLE) && IDLE.lock.None?
    ensures IDLE.world == INITIAL && INITIAL.session == EMPTY_SESSION
  {
  }

  lemma TwoSteps(a: Request, b: Request)
    ensures Run([a, b]) == Step(Step(INITIAL, a), b)
  {
    hide Step;
    assert [a, b][..1] == [a] && [a][..0] == [];
    assert Run([a]) == Step(INITIAL, a);
  }

  /**
   * A cancellation during the creation is served and its event queued, and then the intent waits for a payment
   * method all the same. Neither order of the two requests, run one after the other, leaves that.
   */
  lemma CancellationLost() returns (moves: seq<Move>)
    ensures Schedule(moves) && Quiet(After(moves)) && !Orderly(moves)
    ensures var w := After(moves).world;
      && "pi_1" in w.session.intents && w.session.intents["pi_1"].status == RequiresPaymentMethod
      && Kinds(w.Emitted()) == [IntentCreated, IntentCanceled]
      && !SameOutcomeAs(w, Run([CREATE, CANCEL])) && !SameOutcomeAs(w, Run([CANCEL, CREATE]))
  {
    hide After, Schedule, Plan, NewIds, Step, FreshIds, Races, Raced, SameOutcomeAs, Run, Kinds;
    AtStart();
    CancelRaces();
    CreatePlan();
    CancelPlan();
    moves := ActDuringCreation([], CREATE, CANCEL);
    assert [] + moves == moves;
    RaceExact(INITIAL, CREATE, CANCEL);
    RacedParts(INITIAL, CREATE, CANCEL);
    TwoSteps(CREATE, CANCEL);
    TwoSteps(CANCEL, CREATE);
    var ec, ea := Plan(EMPTY_SESSION, CREATE).value, Plan(EMPTY_SESSION, CANCEL).value;
    KindsOfRace(ec.events, ea.events);
    NotOrderly(moves, CREATE, CANCEL);
  }

  /** A schedule of two requests that neither order explains is not orderly. */
  lemma NotOrderly(moves: seq<Move>, a: Request, b: Request)
    requires Quiet(After(moves)) && |After(moves).threads| == 2
    requires After(moves).threads[0].request == a && After(moves).threads[1].request == b
    requires !SameOutcomeAs(After(moves).world, Run([a, b])) && !SameOutcomeAs(After(moves).world, Run([b, a]))
    ensures !Orderly(moves)
  {
    if Orderly(moves) {
      Serializable(moves);
      hide After, Order, Orderly, Run, ValidRun, Of, SameAnswers;
      var threads, order := After(moves).threads, Order(moves);
      TwoOrders(threads, order);
    }
  }

  function Members(order: seq<nat>): set<nat> {
    set t | t in order
  }

  lemma {:induction false} DistinctMembers(order: seq<nat>)
    requires forall i, j | 0 <= i < j < |order| :: order[i] != order[j]
    ensures |Members(order)| == |order|
  {
    if order != [] {
      var n := |order| - 1;
      DistinctMembers(order[..n]);
      assert order == order[..n] + [order[n]];
      assert Members(order) == Members(order[..n]) + {order[n]};
    }
  }

  lemma TwoOrders(threads: seq<Thread>, order: seq<nat>)
    requires |threads| == 2 && Lists(order, threads) && forall u: nat | u < 2 :: Committed(threads[u])
    ensures Requests(threads, order) == [threads[0].request, threads[1].request]
         || Requests(threads, order) == [threads[1].request, threads[0].request]
  {
    assert Committed(threads[0]) && Committed(threads[1]);
    assert 0 in order && 1 in order;
    DistinctMembers(order);
    assert Members(order) == {0, 1};
    assert order == [0, 1] || order == [1, 0];
  }

  lemma KindsOfRace(create: seq<Event>, act: seq<Event>)
    requires Kinds(create) == [IntentCreated] && Kinds(act) == [IntentCanceled]
    ensures create != [] && act != create[1..]
    ensures Kinds([] + ([create[0]] + act + create[1..])) == [IntentCreated, IntentCanceled]
  {
    assert create == [create[0]] && act == [act[0]];
    assert [] + ([create[0]] + act + create[1..]) == [create[0], act[0]];
    KindsOfTwo(create[0], act[0]);
    KindsOfTwo(act[0], create[0]);
  }

  /**
   * A creation for 100 that is stored while a cancellation holds the copy it has taken over: the client has the
   * answer that its intent for 100 waits for a payment method, and the session has a canceled one for 2000.
   */
  lemma CreationReplaced() returns (moves: seq<Move>)
    ensures Schedule(moves) && Quiet(After(moves)) && !Orderly(moves)
    ensures var w, threads := After(moves).world, After(moves).threads;
      && |threads| == 2 && threads[0].request == CREATE && threads[0].phase.Finished? && threads[0].phase.response.Served?
      && threads[0].phase.response.intent.amount == Num(100.0)
      && threads[0].phase.response.intent.status == RequiresPaymentMethod
      && "pi_1" in w.session.intents && w.session.intents["pi_1"].amount == Num(2000.0)
      && w.session.intents["pi_1"].status == Canceled
      && Kinds(w.Emitted()) == [IntentCreated, IntentCanceled]
      && !SameOutcomeAs(w, Run([CREATE, CANCEL])) && !SameOutcomeAs(w, Run([CANCEL, CREATE]))
  {
    hide After, Schedule, Plan, NewIds, Step, FreshIds, Races, Stale, SameOutcomeAs, Run, Kinds, Second;
    AtStart();
    CancelRaces();
    CreatePlan();
    CancelPlan();
    moves := CreationOverwritten([], CREATE, CANCEL);
    assert [] + moves == moves;
    StaleExact(INITIAL, CREATE, CANCEL);
    RacesKeepTerms(EMPTY_SESSION, CREATE, CANCEL);
    StaleParts(INITIAL, CREATE, CANCEL);
    TwoSteps(CREATE, CANCEL);
    TwoSteps(CANCEL, CREATE);
    var ec, ea := Plan(EMPTY_SESSION, CREATE).value, Plan(EMPTY_SESSION, CANCEL).value;
    KindsOfBoth(ec.events, ea.events);
    NotOrderly(moves, CREATE, CANCEL);
  }

  lemma KindsOfBoth(create: seq<Event>, act: seq<Event>)
    requires Kinds(create) == [IntentCreated] && Kinds(act) == [IntentCanceled]
    ensures Kinds([] + (create + act)) == [IntentCreated, IntentCanceled]
  {
    assert create == [create[0]] && act == [act[0]];
    assert [] + (create + act) == [create[0], act[0]];
    KindsOfTwo(create[0], act[0]);
    KindsOfTwo(act[0], create[0]);
  }

  // Two captures.

  lemma AuthorizePlan()
    ensures var plan := Plan(EMPTY_SESSION, AUTHORIZE); plan.Some? && plan.value.intent.status == RequiresCapture
    ensures Target(AUTHORIZE) == Some("pi_1")
  {
    assert OutcomeForPaymentMethod("pm_card_visa") == OutcomeSucceed;
    hide OutcomeForPaymentMethod;
    assert AUTHORIZE.gen.intentBase == Some(BASE) && CreatedId(BASE, AUTHORIZE.gen) == "pi_1";
  }

  lemma ConfirmPlan()
    ensures var plan := Plan(EMPTY_SESSION, CONFIRM); plan.Some? && plan.value.intent.status == RequiresCapture
  {
    assert OutcomeForPaymentMethod("pm_card_visa") == OutcomeSucceed;
    hide OutcomeForPaymentMethod;
    assert CONFIRM.gen.intentBase == Some(BASE);
  }

  lemma ConfirmRaces()
    ensures Races(EMPTY_SESSION, AUTHORIZE, CONFIRM)
    ensures WholeCapture(CAPTURE, AUTHORIZE) && WholeCapture(CAPTURE_AGAIN, AUTHORIZE)
    ensures NewAndDifferent(IDLE, [AUTHORIZE, CONFIRM, CAPTURE, CAPTURE_AGAIN])
  {
    AuthorizePlan();
    ConfirmPlan();
    hide Plan;
  }

  /** Two captures of one intent, both served, in a new session. */
  lemma CapturedTwice() returns (moves: seq<Move>)
    ensures Schedule(moves) && !Orderly(moves)
    ensures var threads := After(moves).threads; |threads| > 3 && Captures(threads[2], "pi_1") && Captures(threads[3], "pi_1")
  {
    hide After, Schedule, Plan, NewIds, FreshIds, Races, Captures, WholeCapture, NewAndDifferent, Orderly;
    AtStart();
    AuthorizePlan();
    ConfirmPlan();
    ConfirmRaces();
    moves := TwoCaptures([], AUTHORIZE, CONFIRM, CAPTURE, CAPTURE_AGAIN);
    if Orderly(moves) {
      OneCapture(moves, 2, 3, "pi_1");
    }
  }
}
