/** Requests that run at the same time make the writes that the request handlers make, in the same order. */
module WriteOrder {
  import opened Json
  import opened PaymentIntents
  import opened Sessions
  import opened StatefulStore
  import opened Concurrency

  /** How many of its writes a request has made. */
  function Made(phase: Phase): nat
    requires phase.Writing?
  {
    phase.queued + if phase.charged then 1 else 0
  }

  /** A request between its writes: the Charge goes right after a creation's first event, or first of all. */
  predicate BetweenWrites(th: Thread) {
    th.phase.Writing? ==>
      var Writing(e, charged, queued) := th.phase;
      var first := if th.request.Create? then 1 else 0;
      && first <= |e.events| && queued <= |e.events|
      && (charged ==> e.charge.Some? && first <= queued)
      && (e.charge.Some? && !charged ==> queued <= first)
  }

  lemma WriteAt(id: string, e: Effects, isCreate: bool, k: nat)
    requires isCreate ==> e.events != []
    ensures var ops, first, n := Writes(id, e, isCreate), if isCreate then 1 else 0, if e.charge.Some? then 1 else 0;
      && |ops| == |e.events| + n + 1
      && (k < first ==> ops[k] == Enqueue(e.events[k]))
      && (k == first && e.charge.Some? ==> ops[k] == StoreCharge(e.chargeId, e.charge.value))
      && (first + n <= k < |e.events| + n ==> ops[k] == Enqueue(e.events[k - n]))
      && (k == |e.events| + n ==> ops[k] == PutIntent(id, e.intent))
  {
  }

  /** The next step of a request at its writes is its handler's next store operation. */
  lemma StepIsNextWrite(sys: System, t: nat)
    requires t < |sys.threads| && sys.threads[t].phase.Writing? && BetweenWrites(sys.threads[t])
    ensures var Thread(r, phase) := sys.threads[t];
      var ops, k, next := Writes(StoreId(r), phase.effects, r.Create?), Made(phase), Progress(sys, t);
      && k < |ops|
      && Some(next.world.session) == Apply(Some(sys.world.session), ops[k]).0
      && next.world.drained == sys.world.drained
      && |next.threads| == |sys.threads| && next.threads[t].request == r
      && if k + 1 < |ops| then
           && next.threads[t].phase.Writing? && next.threads[t].phase.effects == phase.effects
           && Made(next.threads[t].phase) == k + 1 && BetweenWrites(next.threads[t])
         else next.threads[t].phase == Stored(phase.effects)
  {
    hide Writes, StoreId;
    var Thread(r, phase) := sys.threads[t];
    WriteAt(StoreId(r), phase.effects, r.Create?, Made(phase));
  }

  /** Only its own steps change what a request is at, and it begins with none of its writes made. */
  lemma StaysBetween(sys: System, m: Move)
    requires forall t: nat | t < |sys.threads| :: BetweenWrites(sys.threads[t])
    ensures forall t: nat | t < |Take(sys, m).threads| :: BetweenWrites(Take(sys, m).threads[t])
  {
    hide IntentFor, NewIds, CreateEffects, Decide;
    if m.Advance? && Enabled(sys, m) {
      var th := sys.threads[m.t];
      if th.phase.Writing? {
        StepIsNextWrite(sys, m.t);
      } else if th.request.Create? && th.request.gen.intentBase.Some? {
        CreationQueues(th.request.gen.intentBase.value, sys.world.session.charges, th.request.params, th.request.gen);
      }
    }
  }

  lemma CreationQueues(base: PaymentIntent, charges: map<string, Charge>, params: Params, gen: Generated)
    ensures CreateEffects(base, charges, params, gen).events != []
  {
    hide NewIntent;
  }

  /** In every run, each step of a request at its writes is the next operation of its handler. */
  lemma {:induction false} AlwaysNextWrite(moves: seq<Move>, t: nat)
    requires t < |After(moves).threads| && After(moves).threads[t].phase.Writing?
    ensures var sys := After(moves);
      var Thread(r, phase) := sys.threads[t];
      var ops, k, next := Writes(StoreId(r), phase.effects, r.Create?), Made(phase), Progress(sys, t);
      && k < |ops| && Some(next.world.session) == Apply(Some(sys.world.session), ops[k]).0
      && if k + 1 < |ops| then next.threads[t].phase.Writing? && Made(next.threads[t].phase) == k + 1
         else next.threads[t].phase == Stored(phase.effects)
  {
    hide Writes, StoreId, Progress, After, Apply;
    AlwaysBetween(moves);
    StepIsNextWrite(After(moves), t);
  }

  lemma {:induction false} AlwaysBetween(moves: seq<Move>)
    ensures forall t: nat | t < |After(moves).threads| :: BetweenWrites(After(moves).threads[t])
  {
    hide Take, BetweenWrites;
    if moves != [] {
      AlwaysBetween(moves[..|moves| - 1]);
      StaysBetween(After(moves[..|moves| - 1]), moves[|moves| - 1]);
    }
  }
}
