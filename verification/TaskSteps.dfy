/** What each step of the machine of TaskDelivery does to the call it is about, to the other calls, and to the task of
    a call that ends. */
module TaskSteps {
  import opened Lists
  import opened PendingQueue
  import opened Flush
  import opened TaskDelivery
  import opened TaskEffects

  /** What a call answers: without bypass an error becomes QUEUED. */
  function Answer(c: Call, r: Result): Result {
    if r.Failure? && c.retry.None? then Failure(c.taskId, "QUEUED") else r
  }

  /** Where a new call stands: it sends to a peer under its own id, to a relay under the relay's, it asks around, or it
      has ended for want of a relay. */
  function PhaseByRoute(c: Call, route: Route): Phase {
    match route
    case ToPeer => Sending(c.taskId)
    case ToRelay(w) => Sending(w)
    case Ask => Querying
    case NoRelay(w) => Done(Answer(c, Failure(w, "NO_TRACKER")))
  }

  /** The call that a step starts. */
  function NewCall(s: State, a: Step): Call
    requires Enabled(s, a) && (a.Begin? || a.StartRetry?)
  {
    match a
    case Begin(_, _, id, target, capability, payload, ttl, _) => Call(id, target, capability, payload, ttl, None, Querying)
    case StartRetry(_, _, task, id, _) =>
      var t := s.launched[task];
      Call(id, t.target, t.capability, t.payload, t.ttl, Some(t), Querying)
  }

  /** A step of a call that has begun. */
  predicate OfRunning(a: Step) {
    a.Answered? || a.Sent? || a.SendFailed? || a.Cancel? || a.Wake? || a.Timeout? || a.Raise?
  }

  /** The phase that a step of a running call leads to. */
  function PhaseAfter(s: State, a: Step): Phase
    requires Enabled(s, a) && OfRunning(a)
  {
    var c := s.calls[a.k];
    match a
    case Answered(_, _, found) => if found then Sending(c.taskId) else Done(Answer(c, Failure(c.taskId, "NO_PEER")))
    case Sent(_) => Awaiting(c.phase.wire)
    case SendFailed(_, _) =>
      Done(Answer(c, Failure(c.phase.wire, if c.phase.wire == c.taskId then "SEND_ERROR" else "RELAY_ERROR")))
    case Cancel(_) => c.phase
    case Wake(_, _) => Done(Answer(c, s.futures[c.phase.wire].result))
    case Timeout(_, _) => Done(Answer(c, Failure(c.phase.wire, "TIMEOUT")))
    case Raise(_) => Raised
  }

  lemma FinishUserMoves(s: State, k: nat, r: Result, now: int)
    requires k in s.calls && s.calls[k].retry.None?
    ensures Finish(s, k, r, now).calls == s.calls[k := s.calls[k].(phase := Done(Answer(s.calls[k], r)))]
  {
  }

  lemma FinishRetryMoves(s: State, k: nat, r: Result, now: int)
    requires k in s.calls && s.calls[k].retry.Some?
    ensures Finish(s, k, r, now).calls == s.calls[k := s.calls[k].(phase := Done(Answer(s.calls[k], r)))]
  {
  }

  lemma FinishMoves(s: State, k: nat, r: Result, now: int)
    requires k in s.calls
    ensures Finish(s, k, r, now).calls == s.calls[k := s.calls[k].(phase := Done(Answer(s.calls[k], r)))]
  {
    if s.calls[k].retry.None? { FinishUserMoves(s, k, r, now); } else { FinishRetryMoves(s, k, r, now); }
  }

  lemma RouteMoves(s: State, k: nat, route: Route, now: int)
    requires k in s.calls && s.calls[k].phase == Querying
    ensures TakeRoute(s, k, route, now).calls == s.calls[k := s.calls[k].(phase := PhaseByRoute(s.calls[k], route))]
  {
    if route.NoRelay? { FinishMoves(s, k, Failure(route.unsent, "NO_TRACKER"), now); }
  }

  /** A call that starts is the one that was asked for, or that of the stored task, and stands where its route says. */
  lemma StartedCall(s: State, a: Step)
    requires Enabled(s, a) && (a.Begin? || a.StartRetry?)
    ensures Apply(s, a).calls == s.calls[a.k := NewCall(s, a).(phase := PhaseByRoute(NewCall(s, a), a.route))]
  {
    if a.Begin? {
      RouteMoves(AddCall(s.(clock := a.now), a.k, NewCall(s, a)), a.k, a.route, a.now);
    } else {
      RouteMoves(AddRetry(s.(clock := a.now), a.k, a.id, s.launched[a.task]), a.k, a.route, a.now);
    }
  }

  lemma WaitEndMoves(s: State, a: Step)
    requires Enabled(s, a) && (a.Wake? || a.Timeout?)
    ensures Apply(s, a).calls == s.calls[a.k := s.calls[a.k].(phase := PhaseAfter(s, a))]
  {
    var w := s.calls[a.k].phase.wire;
    var s0 := Unwait(s.(clock := a.now), a.k);
    FinishMoves(s0, a.k, if a.Wake? then s.futures[w].result else Failure(w, "TIMEOUT"), a.now);
    assert s0.calls[a.k := s.calls[a.k].(phase := PhaseAfter(s, a))] == s.calls[a.k := s.calls[a.k].(phase := PhaseAfter(s, a))];
  }

  lemma EarlyEndMoves(s: State, a: Step)
    requires Enabled(s, a) && (a.SendFailed? || (a.Answered? && !a.found))
    ensures Apply(s, a).calls == s.calls[a.k := s.calls[a.k].(phase := PhaseAfter(s, a))]
  {
    var s0 := s.(clock := a.now);
    FinishMoves(s0, a.k, if a.SendFailed? then SendError(s.calls[a.k]) else Failure(s.calls[a.k].taskId, "NO_PEER"), a.now);
  }

  lemma RaiseMoves(s: State, a: Step)
    requires Enabled(s, a) && a.Raise?
    ensures Apply(s, a).calls == s.calls[a.k := s.calls[a.k].(phase := Raised)]
  {
    if s.calls[a.k].phase.Awaiting? { FailMoves(Unwait(s, a.k), a.k); } else { FailMoves(s, a.k); }
  }

  lemma FailMoves(s: State, k: nat)
    requires k in s.calls
    ensures Fail(s, k).calls == s.calls[k := s.calls[k].(phase := Raised)]
  {
  }

  lemma OnTheWayMoves(s: State, a: Step)
    requires Enabled(s, a) && (a.Sent? || a.Cancel? || (a.Answered? && a.found))
    ensures Apply(s, a).calls == s.calls[a.k := s.calls[a.k].(phase := PhaseAfter(s, a))]
  {
  }

  /** A running call moves to the phase of its step, and nothing else of it changes. */
  lemma MovedCall(s: State, a: Step)
    requires Enabled(s, a) && OfRunning(a)
    ensures Apply(s, a).calls == s.calls[a.k := s.calls[a.k].(phase := PhaseAfter(s, a))]
  {
    if a.Wake? || a.Timeout? {
      WaitEndMoves(s, a);
    } else if a.Raise? {
      RaiseMoves(s, a);
    } else if a.SendFailed? || (a.Answered? && !a.found) {
      EarlyEndMoves(s, a);
    } else {
      OnTheWayMoves(s, a);
    }
  }

  lemma NoCallMoves(s: State, a: Step)
    requires Enabled(s, a) && !OfCall(a)
    ensures Apply(s, a).calls == s.calls
  {
  }

  /** No step touches another call, or makes one up. */
  lemma OtherCallsUntouched(s: State, a: Step, j: nat, s': State)
    requires Enabled(s, a) && s' == Apply(s, a) && !(OfCall(a) && a.k == j)
    ensures j in s'.calls <==> j in s.calls
    ensures j in s.calls ==> s'.calls[j] == s.calls[j]
  {
    if a.Begin? || a.StartRetry? {
      StartedCall(s, a);
    } else if OfRunning(a) {
      MovedCall(s, a);
    } else {
      NoCallMoves(s, a);
    }
  }

  // ---------------------------------------------------------------- what becomes of the task of a call that ends

  lemma FinishedUserTask(s: State, k: nat, r: Result, now: int)
    requires k in s.calls && s.calls[k].retry.None?
    ensures var s', c := Finish(s, k, r, now), s.calls[k];
            && s'.expired == s.expired && s'.delivered == s.delivered
            && s'.queue == if r.Success? then s.queue
                           else s.queue.Append(
                                  Cons(PendingTask(c.taskId, c.target, c.capability, c.payload, now, 0, c.ttl), Nil))
  {
  }

  /** A retry that ends in success delivers its task; one that fails puts it at the end of the queue, counted, or lets
      it expire if it is more than 600 s old. */
  lemma FinishedRetryTask(s: State, k: nat, r: Result, now: int)
    requires k in s.calls && s.calls[k].retry.Some? && s.calls[k].retry.value.taskId !in Ids(s.queue)
    ensures var s', t := Finish(s, k, r, now), s.calls[k].retry.value;
            && (r.Success? ==>
                  s'.queue == s.queue && s'.expired == s.expired && s'.delivered == s.delivered[t.taskId := k])
            && (r.Failure? && now - t.createdAt > 600_000_000 ==>
                  s'.queue == s.queue && s'.expired == s.expired + {t.taskId} && s'.delivered == s.delivered)
            && (r.Failure? && now - t.createdAt <= 600_000_000 ==>
                  && s'.queue == s.queue.Append(Cons(t.(retries := t.retries + 1), Nil))
                  && s'.expired == s.expired && s'.delivered == s.delivered)
  {
  }

  /** The result that ends a running call, before the call turns it into its answer. */
  function EndResult(s: State, a: Step): Result
    requires Enabled(s, a) && EndsRunning(a)
  {
    var c := s.calls[a.k];
    match a
    case Wake(_, _) => s.futures[c.phase.wire].result
    case Timeout(_, _) => Failure(c.phase.wire, "TIMEOUT")
    case SendFailed(_, _) => Failure(c.phase.wire, if c.phase.wire == c.taskId then "SEND_ERROR" else "RELAY_ERROR")
    case Answered(_, _, _) => Failure(c.taskId, "NO_PEER")
  }

  predicate EndsRunning(a: Step) {
    a.Wake? || a.Timeout? || a.SendFailed? || (a.Answered? && !a.found)
  }

  /** The state in which such a step ends its call: its time, and no entry for it. */
  function EndState(s: State, a: Step): State
    requires Enabled(s, a) && EndsRunning(a)
  {
    if a.Wake? || a.Timeout? then Unwait(s.(clock := a.now), a.k) else s.(clock := a.now)
  }

  lemma EndingStepFinishes(s: State, a: Step)
    requires Enabled(s, a) && EndsRunning(a)
    ensures Apply(s, a) == Finish(EndState(s, a), a.k, EndResult(s, a), a.now)
  {
  }

  lemma EndStateKeepsTasks(s: State, a: Step)
    requires Enabled(s, a) && EndsRunning(a)
    ensures var s0 := EndState(s, a);
            && s0.queue == s.queue && s0.expired == s.expired && s0.delivered == s.delivered
            && a.k in s0.calls && s0.calls[a.k].(phase := Querying) == s.calls[a.k].(phase := Querying)
  {
  }

  /** In every run, a retry that fails once its call is under way goes back to the end of the queue, counted, or
      expires if its task is more than 600 s old. */
  lemma FailedRetryGoesBackOrExpires(r: Run, s: State, a: Step, s': State)
    requires StepsTo(r, s, a, s') && EndsRunning(a) && s.calls[a.k].retry.Some? && EndResult(s, a).Failure?
    ensures var t := s.calls[a.k].retry.value;
            if a.now - t.createdAt > 600_000_000 then s'.queue == s.queue && s'.expired == s.expired + {t.taskId}
            else s'.queue == s.queue.Append(Cons(t.(retries := t.retries + 1), Nil)) && s'.expired == s.expired
  {
    EveryRunKeepsInv(r, s);
    RetriedIsNowhereElse(s, a.k);
    FailedRetryStep(s, a);
  }

  lemma FailedRetryStep(s: State, a: Step)
    requires Enabled(s, a) && EndsRunning(a) && s.calls[a.k].retry.Some? && EndResult(s, a).Failure?
    requires s.calls[a.k].retry.value.taskId !in Ids(s.queue)
    ensures var s', t := Apply(s, a), s.calls[a.k].retry.value;
            if a.now - t.createdAt > 600_000_000 then s'.queue == s.queue && s'.expired == s.expired + {t.taskId}
            else s'.queue == s.queue.Append(Cons(t.(retries := t.retries + 1), Nil)) && s'.expired == s.expired
  {
    EndingStepFinishes(s, a);
    EndStateKeepsTasks(s, a);
    FinishedRetryTask(EndState(s, a), a.k, EndResult(s, a), a.now);
  }

  /** A call without bypass that ends stores its task, with the time of the end, if it got an error, and nothing if it
      got a success. */
  lemma EndedCallStoresTask(s: State, a: Step)
    requires Enabled(s, a) && EndsRunning(a) && s.calls[a.k].retry.None?
    ensures var s', c := Apply(s, a), s.calls[a.k];
            && s'.expired == s.expired && s'.delivered == s.delivered
            && s'.queue == if EndResult(s, a).Success? then s.queue
                           else s.queue.Append(
                                  Cons(PendingTask(c.taskId, c.target, c.capability, c.payload, a.now, 0, c.ttl), Nil))
  {
    EndingStepFinishes(s, a);
    EndStateKeepsTasks(s, a);
    FinishedUserTask(EndState(s, a), a.k, EndResult(s, a), a.now);
  }

  /** In every run, a retry that gets a success delivers its task and leaves queue and expired tasks alone. */
  lemma SuccessfulRetryDelivers(r: Run, s: State, a: Step, s': State)
    requires StepsTo(r, s, a, s') && EndsRunning(a) && s.calls[a.k].retry.Some? && EndResult(s, a).Success?
    ensures s'.queue == s.queue && s'.expired == s.expired
    ensures s'.delivered == s.delivered[s.calls[a.k].retry.value.taskId := a.k]
  {
    EveryRunKeepsInv(r, s);
    RetriedIsNowhereElse(s, a.k);
    EndingStepFinishes(s, a);
    EndStateKeepsTasks(s, a);
    FinishedRetryTask(EndState(s, a), a.k, EndResult(s, a), a.now);
  }

  // ---------------------------------------------------------------- the reply to a routed call

  /** The step sends call k on its way under the id w: its own id to a peer, the relay's id to a relay. */
  ghost predicate RoutesNow(before: Run, a: Step, k: nat, w: string) {
    || (a.Begin? && a.k == k && (a.route == ToRelay(w) || (a.route.ToPeer? && a.id == w)))
    || (a.StartRetry? && a.k == k && (a.route == ToRelay(w) || (a.route.ToPeer? && a.id == w)))
    || (a.Answered? && a.k == k && a.found && exists s :: Reaches(before, s) && k in s.calls && s.calls[k].taskId == w)
  }

  ghost predicate RoutedTo(r: Run, k: nat, w: string) {
    r.Do? && (RoutedTo(r.before, k, w) || RoutesNow(r.before, r.step, k, w))
  }

  /** From then on the call sends and waits under w until it ends. */
  ghost predicate UsesWire(s: State, k: nat, w: string) {
    k in s.calls && !s.calls[k].phase.Querying?
    && (s.calls[k].phase.Sending? || s.calls[k].phase.Awaiting? ==> s.calls[k].phase.wire == w)
  }

  lemma RoutingStep(before: Run, s: State, a: Step, s': State, k: nat, w: string)
    requires StepsTo(before, s, a, s') && RoutesNow(before, a, k, w)
    ensures UsesWire(s', k, w)
  {
    if a.Begin? || a.StartRetry? {
      StartedCall(s, a);
    } else {
      var t :| Reaches(before, t) && k in t.calls && t.calls[k].taskId == w;
      RunLeadsToOneState(before, t, s);
      MovedCall(s, a);
    }
  }

  lemma WireStays(s: State, a: Step, s': State, k: nat, w: string)
    requires Enabled(s, a) && s' == Apply(s, a) && UsesWire(s, k, w)
    ensures UsesWire(s', k, w)
  {
    if OfCall(a) && a.k == k {
      MovedCall(s, a);
    } else {
      OtherCallsUntouched(s, a, k, s');
    }
  }

  /** A call that was routed to w waits under w, and under no other id. */
  lemma {:induction false} RoutedCallUsesItsWire(r: Run, s: State, k: nat, w: string)
    requires Reaches(r, s) && RoutedTo(r, k, w)
    ensures UsesWire(s, k, w)
  {
    var s0 :| StepsTo(r.before, s0, r.step, s);
    if RoutesNow(r.before, r.step, k, w) {
      RoutingStep(r.before, s0, r.step, s, k, w);
    } else {
      RoutedCallUsesItsWire(r.before, s0, k, w);
      WireStays(s0, r.step, s, k, w);
    }
  }

  /** Call k waits, and its wait is open. */
  ghost predicate WaitsOpenly(s: State, k: nat) {
    k in s.calls && s.calls[k].phase.Awaiting? && s.calls[k].phase.wire in s.futures
    && s.futures[s.calls[k].phase.wire].Waiting?
  }

  /** After call k was routed to the id of this reply, the reply came while the wait of the call was open. */
  ghost predicate Met(r: Run, k: nat, reply: Reply) {
    r.Do? && (Met(r.before, k, reply)
              || (r.step == Arrive(reply) && RoutedTo(r.before, k, reply.id)
                  && exists s :: Reaches(r.before, s) && WaitsOpenly(s, k)))
  }

  /** The call still waits and its future holds the reply, or it has ended. */
  ghost predicate Holds(s: State, k: nat, reply: Reply) {
    && k in s.calls && !s.calls[k].phase.Querying? && !s.calls[k].phase.Sending?
    && (s.calls[k].phase.Awaiting? ==>
          && s.calls[k].phase.wire == reply.id && reply.id in s.futures
          && s.futures[reply.id] == Resolved(ResultOf(reply)))
  }

  lemma MeetingStep(before: Run, s: State, s': State, k: nat, reply: Reply)
    requires StepsTo(before, s, Arrive(reply), s') && RoutedTo(before, k, reply.id)
    requires exists t :: Reaches(before, t) && WaitsOpenly(t, k)
    ensures Holds(s', k, reply)
  {
    var t :| Reaches(before, t) && WaitsOpenly(t, k);
    RunLeadsToOneState(before, t, s);
    RoutedCallUsesItsWire(before, s, k, reply.id);
    OtherCallsUntouched(s, Arrive(reply), k, s');
    LastStep(before, s, Arrive(reply), s');
  }

  lemma HoldingStep(before: Run, s: State, a: Step, s': State, k: nat, reply: Reply)
    requires StepsTo(before, s, a, s') && Holds(s, k, reply)
    ensures Holds(s', k, reply)
  {
    LastStep(before, s, a, s');
    if OfCall(a) && a.k == k {
      MovedCall(s, a);
    } else {
      OtherCallsUntouched(s, a, k, s');
      if s.calls[k].phase.Awaiting? { OtherWaitsUntouched(s, a, k); }
    }
  }

  /** The future of a waiting call that is done stays while other calls move. */
  lemma OtherWaitsUntouched(s: State, a: Step, k: nat)
    requires IdsOwned(s.calls, s.owner) && Enabled(s, a) && !(OfCall(a) && a.k == k)
    requires k in s.calls && s.calls[k].phase.Awaiting?
    requires s.calls[k].phase.wire in s.futures && !s.futures[s.calls[k].phase.wire].Waiting?
    ensures var w := s.calls[k].phase.wire; w in FuturesAfter(s, a) && FuturesAfter(s, a)[w] == s.futures[w]
  {
    assert OwnsIds(s.calls[k], k, s.owner);
    if OfCall(a) && a.k in s.calls { assert OwnsIds(s.calls[a.k], a.k, s.owner); }
  }

  lemma {:induction false} MetCallHoldsReply(r: Run, s: State, k: nat, reply: Reply)
    requires Reaches(r, s) && Met(r, k, reply)
    ensures Holds(s, k, reply)
  {
    var s0 :| StepsTo(r.before, s0, r.step, s);
    if Met(r.before, k, reply) {
      MetCallHoldsReply(r.before, s0, k, reply);
      HoldingStep(r.before, s0, r.step, s, k, reply);
    } else {
      MeetingStep(r.before, s0, s, k, reply);
    }
  }

  /** Over whole runs, with anything in between: a call routed to an id, to its peer or to a relay, at once or after
      asking around, and met by a success RESULT with that id while its wait is open, returns that success when it
      wakes up. */
  lemma RepliedCallReturnsIt(r: Run, s: State, k: nat, now: int, s': State, w: string, payload: string)
    requires Met(r, k, Reply(w, true, payload)) && StepsTo(r, s, Wake(k, now), s')
    ensures k in s'.calls && s'.calls[k].phase == Done(Success(w, payload))
  {
    MetCallHoldsReply(r, s, k, Reply(w, true, payload));
    MovedCall(s, Wake(k, now));
  }
}
