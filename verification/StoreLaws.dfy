/** Sessions do not interfere, and no event is lost, repeated or reordered. */
module StoreLaws {
  import opened PaymentIntents
  import opened StatefulStore

  datatype Call = Call(session: string, op: Op)

  /** Runs calls one after another; the results are in the order of the calls. */
  function RunCalls(v: View, calls: seq<Call>): (View, seq<Result>) {
    if calls == [] then (v, [])
    else
      var n := |calls| - 1;
      var (w, results) := RunCalls(v, calls[..n]);
      var (x, r) := Exec(w, calls[n].session, calls[n].op);
      (x, results + [r])
  }

  lemma {:induction false} ResultPerCall(v: View, calls: seq<Call>)
    ensures |RunCalls(v, calls).1| == |calls|
  {
    if calls != [] {
      ResultPerCall(v, calls[..|calls| - 1]);
    }
  }

  /** The calls of one session. */
  function Project(calls: seq<Call>, session: string): seq<Call> {
    if calls == [] then []
    else
      var n := |calls| - 1;
      Project(calls[..n], session) + if calls[n].session == session then [calls[n]] else []
  }

  /** The results of the calls of one session. */
  function ResultsOf(calls: seq<Call>, results: seq<Result>, session: string): seq<Result>
    requires |calls| == |results|
  {
    if calls == [] then []
    else
      var n := |calls| - 1;
      ResultsOf(calls[..n], results[..n], session) + if calls[n].session == session then [results[n]] else []
  }

  /** A session sees of a run of many sessions what it would see if its own calls were run alone. */
  lemma {:induction false} SessionsDoNotInterfere(v: View, calls: seq<Call>, session: string)
    ensures |RunCalls(v, calls).1| == |calls|
    ensures var alone := RunCalls(v, Project(calls, session));
      && At(RunCalls(v, calls).0, session) == At(alone.0, session)
      && ResultsOf(calls, RunCalls(v, calls).1, session) == alone.1
  {
    ResultPerCall(v, calls);
    if calls != [] {
      var n := |calls| - 1;
      var c := calls[n];
      SessionsDoNotInterfere(v, calls[..n], session);
      var results := RunCalls(v, calls).1;
      assert results[..n] == RunCalls(v, calls[..n]).1;
      var before := Project(calls[..n], session);
      ExecIsLocal(RunCalls(v, calls[..n]).0, RunCalls(v, before).0, c, session);
      if c.session == session {
        var own := before + [c];
        assert Project(calls, session) == own && own[..|own| - 1] == before && own[|own| - 1] == c;
      } else {
        assert before + [] == before;
      }
    }
  }

  /** A call looks at and changes its own session only. */
  lemma ExecIsLocal(v: View, w: View, c: Call, session: string)
    ensures c.session != session ==> At(Exec(v, c.session, c.op).0, session) == At(v, session)
    ensures c.session == session && At(v, session) == At(w, session) ==>
      && Exec(v, session, c.op).1 == Exec(w, session, c.op).1
      && At(Exec(v, session, c.op).0, session) == At(Exec(w, session, c.op).0, session)
  {
  }

  /** The events queued for a session since its last reset. */
  function Enqueued(calls: seq<Call>, session: string): seq<Event> {
    if calls == [] then []
    else
      var n := |calls| - 1;
      var before := Enqueued(calls[..n], session);
      if calls[n].session != session then before
      else
        match calls[n].op
        case ResetSession => []
        case Enqueue(event) => before + [event]
        case _ => before
  }

  /** The batches drained from a session since its last reset, put together in order. */
  function Drained(calls: seq<Call>, results: seq<Result>, session: string): seq<Event>
    requires |calls| == |results|
  {
    if calls == [] then []
    else
      var n := |calls| - 1;
      var before := Drained(calls[..n], results[..n], session);
      if calls[n].session != session then before
      else
        match calls[n].op
        case ResetSession => []
        case DrainEvents => before + if results[n].Batch? then results[n].events else []
        case _ => before
  }

  function Queue(v: View, session: string): seq<Event> {
    if session in v then v[session].events else []
  }

  /** What has been queued is what has been drained followed by what is still in the queue. */
  lemma {:induction false} QueueIsFifo(calls: seq<Call>, session: string)
    ensures |RunCalls(map[], calls).1| == |calls|
    ensures var (v, results) := RunCalls(map[], calls);
      Enqueued(calls, session) == Drained(calls, results, session) + Queue(v, session)
  {
    ResultPerCall(map[], calls);
    if calls != [] {
      var n := |calls| - 1;
      QueueIsFifo(calls[..n], session);
      var results := RunCalls(map[], calls).1;
      assert results[..n] == RunCalls(map[], calls[..n]).1;
      QueueStep(RunCalls(map[], calls[..n]).0, calls[n], session, Drained(calls[..n], results[..n], session));
    }
  }

  lemma QueueStep(v: View, c: Call, session: string, drained: seq<Event>)
    ensures var (w, r) := Exec(v, c.session, c.op);
      if c.session != session then Queue(w, session) == Queue(v, session)
      else
        match c.op
        case ResetSession => Queue(w, session) == []
        case Enqueue(event) => drained + Queue(w, session) == drained + Queue(v, session) + [event]
        case DrainEvents => r == Batch(Queue(v, session)) && Queue(w, session) == []
        case _ => Queue(w, session) == Queue(v, session)
  {
  }
}
