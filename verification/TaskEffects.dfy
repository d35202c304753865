/** What one step of the machine of TaskDelivery changes, and what it leaves alone. The lemmas are small on
    purpose: each speaks of one kind of step and asks for no more than it needs. */
module TaskEffects {
  import opened PendingQueue
  import opened Flush
  import opened TaskDelivery

  ghost predicate OldIn(id: string, s: State) {
    id in s.record && TooOld(s.record[id], s.clock)
  }

  /** A new task, first stored between the two times. */
  predicate StampedIn(t: PendingTask, from: int, to: int) {
    from <= t.createdAt <= to && t.retries == 0
  }

  predicate SucceededRetry(c: Call) {
    c.retry.Some? && c.phase.Done? && c.phase.result.Success?
  }

  /** Call k has delivered its task in s, or had ended so before. */
  predicate DeliversIn(k: nat, s: State, s': State)
    requires k in s'.calls
  {
    SucceededRetry(s'.calls[k]) ==>
      || (k in s.calls && s.calls[k] == s'.calls[k])
      || (var id := s'.calls[k].retry.value.taskId; id in s'.delivered && s'.delivered[id] == k)
  }

  /** What only grows: time, the record, the owners, the finished calls and the delivered tasks; and only old
      tasks expire. */
  ghost predicate Onward(s: State, s': State) {
    && s'.clock >= s.clock
    && (forall id :: id in s.record ==> id in s'.record && s'.record[id] == s.record[id])
    && (forall id :: id in s'.record && id !in s.record ==> StampedIn(s'.record[id], s.clock, s'.clock))
    && (forall w :: w in s.owner ==> w in s'.owner && s'.owner[w] == s.owner[w])
    && (forall k :: k in s.calls && !s.calls[k].Active() ==> k in s'.calls && s'.calls[k] == s.calls[k])
    && (forall id :: id in s'.expired ==> id in s.expired || OldIn(id, s'))
    && (forall id :: id in s.delivered ==> id in s'.delivered && s'.delivered[id] == s.delivered[id])
    && (forall k :: k in s'.calls ==> DeliversIn(k, s, s'))
  }

  lemma OnwardTrans(a: State, b: State, c: State)
    requires Onward(a, b) && Onward(b, c)
    ensures Onward(a, c)
  {
    assert forall id :: OldIn(id, b) ==> OldIn(id, c);
    forall k | k in c.calls
      ensures DeliversIn(k, a, c)
    {
      assert DeliversIn(k, b, c);
      if k in b.calls { assert DeliversIn(k, a, b); }
    }
  }

  /** The call can end: it has stored nothing yet, or it retries a recorded task. */
  ghost predicate CanEnd(s: State, k: nat) {
    && k in s.calls && s.calls[k].Active()
    && (s.calls[k].retry.None? ==> s.calls[k].taskId !in s.record)
    && (s.calls[k].retry.Some? ==>
          var t := s.calls[k].retry.value; IsRecorded(t, t.taskId, s.record) && t.taskId !in s.delivered)
  }

  lemma ActiveCanEnd(s: State, k: nat)
    requires Inv(s) && k in s.calls && s.calls[k].Active()
    ensures CanEnd(s, k)
  {
    NotStoredYet(s, k);
    if s.calls[k].retry.Some? { RetriedIsNowhereElse(s, k); }
  }

  /** Fields that the end of a call leaves alone, and the call is over. */
  predicate Ended(s: State, k: nat, r: Result, s': State) {
    && s'.clock == s.clock && s'.futures == s.futures && s'.owner == s.owner && s'.aborted == s.aborted
    && s'.launched == s.launched
    && k in s'.calls && s'.calls[k].phase.Done? && (s'.calls[k].phase.result.Success? <==> r.Success?)
  }

  lemma FinishUserOnward(s: State, k: nat, r: Result)
    requires CanEnd(s, k) && s.calls[k].retry.None?
    ensures Onward(s, Finish(s, k, r, s.clock)) && Ended(s, k, r, Finish(s, k, r, s.clock))
  {
  }

  lemma FinishRetryOnward(s: State, k: nat, r: Result)
    requires CanEnd(s, k) && s.calls[k].retry.Some?
    ensures Onward(s, Finish(s, k, r, s.clock)) && Ended(s, k, r, Finish(s, k, r, s.clock))
  {
  }

  lemma FinishOnward(s: State, k: nat, r: Result)
    requires CanEnd(s, k)
    ensures Onward(s, Finish(s, k, r, s.clock)) && Ended(s, k, r, Finish(s, k, r, s.clock))
  {
    if s.calls[k].retry.None? { FinishUserOnward(s, k, r); } else { FinishRetryOnward(s, k, r); }
  }

  /** What a step does to the pending results. */
  function FuturesAfter(s: State, a: Step): map<string, Future>
    requires Enabled(s, a)
  {
    match a
    case Sent(k) => s.futures[s.calls[k].phase.wire := Waiting]
    case Arrive(r) => Deliver(s.futures, r)
    case Cancel(k) => s.futures[s.calls[k].phase.wire := Cancelled]
    case Wake(k, _) => s.futures - {s.calls[k].phase.wire}
    case Timeout(k, _) => s.futures - {s.calls[k].phase.wire}
    case Raise(k) => if s.calls[k].phase.Awaiting? then s.futures - {s.calls[k].phase.wire} else s.futures
    case _ => s.futures
  }

  predicate OfCall(a: Step) {
    !a.LoseLaunched? && !a.Arrive? && !a.FlushQueue?
  }

  /** The steps that end a call with a result. */
  predicate Ends(a: Step) {
    match a
    case Begin(_, _, _, _, _, _, _, route) => route.NoRelay?
    case StartRetry(_, _, _, _, route) => route.NoRelay?
    case Answered(_, _, found) => !found
    case _ => a.SendFailed? || a.Wake? || a.Timeout?
  }

  /** The call wakes up with a success. */
  predicate WakesWithSuccess(s: State, a: Step)
    requires Enabled(s, a)
  {
    a.Wake? && s.futures[s.calls[a.k].phase.wire].result.Success?
  }

  /** A step gives up a task exactly if it drops a started retry, or ends a running one by an exception. */
  predicate GivesUp(s: State, a: Step, id: string) {
    (a.LoseLaunched? && a.task == id)
    || (a.Raise? && a.k in s.calls && s.calls[a.k].retry.Some? && s.calls[a.k].retry.value.taskId == id)
  }

  ghost predicate Effect(s: State, a: Step, s': State)
    requires Enabled(s, a)
  {
    && Onward(s, s')
    && s'.futures == FuturesAfter(s, a)
    && (!a.FlushQueue? ==> s'.launched.Keys <= s.launched.Keys)
    && (forall id :: id in s'.aborted <==> id in s.aborted || GivesUp(s, a, id))
    && (OfCall(a) ==>
          && a.k in s'.calls && (s'.calls[a.k].phase.Done? <==> Ends(a))
          && (Ends(a) ==> (s'.calls[a.k].phase.result.Success? <==> WakesWithSuccess(s, a))))
  }

  /** The facts about the state that a step's effect rests on. */
  ghost predicate Ready(s: State, a: Step)
    requires Enabled(s, a)
  {
    match a
    case Begin(_, _, id, _, _, _, _, _) => id !in s.record
    case StartRetry(_, _, task, _, _) => IsRecorded(s.launched[task], task, s.record) && task !in s.delivered
    case Answered(k, _, _) => CanEnd(s, k)
    case SendFailed(k, _) => CanEnd(s, k)
    case Wake(k, _) => CanEnd(s, k)
    case Timeout(k, _) => CanEnd(s, k)
    case FlushQueue(now, _) =>
      forall id :: id in Ids(Expired(s.queue, now)) ==> id in s.record && TooOld(s.record[id], now)
    case _ => true
  }

  lemma {:induction false} ExpiredIdsAreOld(l: Tasks, now: int, record: Record)
    requires Recorded(l, record)
    ensures forall id :: id in Ids(Expired(l, now)) ==> id in record && TooOld(record[id], now)
  {
    if l.Cons? { ExpiredIdsAreOld(l.tail, now, record); }
  }

  lemma InvReady(s: State, a: Step)
    requires Inv(s) && Enabled(s, a)
    ensures Ready(s, a)
  {
    if a.Begin? {
      assert RecordOk(s.record, s.owner, s.calls);
    } else if a.StartRetry? {
      assert LaunchedOk(s.launched, s.record);
      assert Places(s, a.task) == Bit(a.task in s.record);
    } else if a.FlushQueue? {
      ExpiredIdsAreOld(s.queue, a.now, s.record);
    } else if a.Answered? || a.SendFailed? || a.Wake? || a.Timeout? {
      ActiveCanEnd(s, a.k);
    }
  }

  lemma ClockOnward(s: State, now: int)
    requires now >= s.clock
    ensures Onward(s, s.(clock := now))
  {
  }

  /** A running call goes on to another phase in which it runs. */
  lemma PhaseOnward(s: State, k: nat, p: Phase)
    requires k in s.calls && s.calls[k].Active() && (p.Sending? || p.Awaiting?)
    ensures Onward(s, SetPhase(s, k, p))
  {
  }

  lemma RouteEffect(s: State, k: nat, route: Route)
    requires CanEnd(s, k)
    requires route.ToRelay? ==> route.wire !in s.owner
    ensures var s' := TakeRoute(s, k, route, s.clock);
            && Onward(s, s') && s'.futures == s.futures && s'.aborted == s.aborted && s'.launched == s.launched
            && k in s'.calls && (if route.NoRelay? then s'.calls[k].phase.Done? && s'.calls[k].phase.result.Failure?
                                 else s'.calls[k].Active())
  {
    if route.NoRelay? { FinishOnward(s, k, Failure(route.unsent, "NO_TRACKER")); }
  }

  lemma AddUserOnward(s: State, k: nat, now: int, c: Call)
    requires k !in s.calls && now >= s.clock && c.taskId !in s.owner && c.Active()
    ensures Onward(s, AddCall(s.(clock := now), k, c))
  {
  }

  lemma AddRetryOnward(s: State, k: nat, now: int, id: string, t: PendingTask)
    requires k !in s.calls && now >= s.clock && id !in s.owner
    ensures Onward(s, AddRetry(s.(clock := now), k, id, t))
  {
  }

  lemma BeginEffect(s: State, a: Step)
    requires Enabled(s, a) && a.Begin? && Ready(s, a)
    ensures Effect(s, a, Apply(s, a))
  {
    var c := Call(a.id, a.target, a.capability, a.payload, a.ttl, None, Querying);
    var s2 := AddCall(s.(clock := a.now), a.k, c);
    AddUserOnward(s, a.k, a.now, c);
    RouteEffect(s2, a.k, a.route);
    OnwardTrans(s, s2, TakeRoute(s2, a.k, a.route, a.now));
  }

  lemma StartRetryEffect(s: State, a: Step)
    requires Enabled(s, a) && a.StartRetry? && Ready(s, a)
    ensures Effect(s, a, Apply(s, a))
  {
    var s2 := AddRetry(s.(clock := a.now), a.k, a.id, s.launched[a.task]);
    AddRetryOnward(s, a.k, a.now, a.id, s.launched[a.task]);
    RouteEffect(s2, a.k, a.route);
    OnwardTrans(s, s2, TakeRoute(s2, a.k, a.route, a.now));
  }

  lemma FoundEffect(s: State, a: Step)
    requires Enabled(s, a) && a.Answered? && a.found
    ensures Effect(s, a, Apply(s, a))
  {
    var s1 := s.(clock := a.now);
    ClockOnward(s, a.now);
    PhaseOnward(s1, a.k, Sending(s.calls[a.k].taskId));
    OnwardTrans(s, s1, Apply(s, a));
  }

  lemma NotFoundEffect(s: State, a: Step)
    requires Enabled(s, a) && a.Answered? && !a.found && Ready(s, a)
    ensures Effect(s, a, Apply(s, a))
  {
    var s1 := s.(clock := a.now);
    ClockOnward(s, a.now);
    FinishOnward(s1, a.k, Failure(s.calls[a.k].taskId, "NO_PEER"));
    OnwardTrans(s, s1, Apply(s, a));
  }

  lemma SendFailedEffect(s: State, a: Step)
    requires Enabled(s, a) && a.SendFailed? && Ready(s, a)
    ensures Effect(s, a, Apply(s, a))
  {
    var s1 := s.(clock := a.now);
    ClockOnward(s, a.now);
    FinishOnward(s1, a.k, SendError(s.calls[a.k]));
    OnwardTrans(s, s1, Apply(s, a));
  }

  lemma UnwaitOnward(s: State, k: nat)
    requires k in s.calls && s.calls[k].phase.Awaiting?
    ensures Onward(s, Unwait(s, k))
  {
  }

  lemma EndWaitEffect(s: State, a: Step)
    requires Enabled(s, a) && (a.Wake? || a.Timeout?) && Ready(s, a)
    ensures Effect(s, a, Apply(s, a))
  {
    var s1 := s.(clock := a.now);
    var s2 := Unwait(s1, a.k);
    ClockOnward(s, a.now);
    UnwaitOnward(s1, a.k);
    OnwardTrans(s, s1, s2);
    var w := s.calls[a.k].phase.wire;
    FinishOnward(s2, a.k, if a.Wake? then s.futures[w].result else Failure(w, "TIMEOUT"));
    OnwardTrans(s, s2, Apply(s, a));
  }

  predicate Failed(s: State, k: nat, s': State)
    requires k in s.calls
  {
    s'.futures == s.futures && s'.launched == s.launched
    && s'.aborted == s.aborted + (if s.calls[k].retry.Some? then {s.calls[k].retry.value.taskId} else {})
    && k in s'.calls && s'.calls[k].phase.Raised?
  }

  lemma FailUserEffect(s: State, k: nat)
    requires k in s.calls && s.calls[k].Active() && s.calls[k].retry.None?
    ensures Onward(s, Fail(s, k)) && Failed(s, k, Fail(s, k))
  {
  }

  lemma FailRetryEffect(s: State, k: nat)
    requires k in s.calls && s.calls[k].Active() && s.calls[k].retry.Some?
    ensures Onward(s, Fail(s, k)) && Failed(s, k, Fail(s, k))
  {
  }

  lemma FailEffect(s: State, k: nat)
    requires k in s.calls && s.calls[k].Active()
    ensures Onward(s, Fail(s, k)) && Failed(s, k, Fail(s, k))
  {
    if s.calls[k].retry.None? { FailUserEffect(s, k); } else { FailRetryEffect(s, k); }
  }

  lemma RaiseWaitingEffect(s: State, a: Step)
    requires Enabled(s, a) && a.Raise? && s.calls[a.k].phase.Awaiting?
    ensures Effect(s, a, Apply(s, a))
  {
    var s1 := Unwait(s, a.k);
    UnwaitOnward(s, a.k);
    FailEffect(s1, a.k);
    OnwardTrans(s, s1, Fail(s1, a.k));
  }

  lemma RaiseEffect(s: State, a: Step)
    requires Enabled(s, a) && a.Raise? && !s.calls[a.k].phase.Awaiting?
    ensures Effect(s, a, Apply(s, a))
  {
    FailEffect(s, a.k);
  }

  lemma FlushOnward(s: State, a: Step)
    requires Enabled(s, a) && a.FlushQueue? && Ready(s, a)
    ensures Onward(s, Apply(s, a))
  {
  }

  lemma FlushEffect(s: State, a: Step)
    requires Enabled(s, a) && a.FlushQueue? && Ready(s, a)
    ensures Effect(s, a, Apply(s, a))
  {
    FlushOnward(s, a);
  }

  lemma LoseEffect(s: State, a: Step)
    requires Enabled(s, a) && a.LoseLaunched?
    ensures Effect(s, a, Apply(s, a))
  {
  }

  lemma SentEffect(s: State, a: Step)
    requires Enabled(s, a) && a.Sent?
    ensures Effect(s, a, Apply(s, a))
  {
  }

  lemma CancelEffect(s: State, a: Step)
    requires Enabled(s, a) && a.Cancel?
    ensures Effect(s, a, Apply(s, a))
  {
  }

  lemma ArriveEffect(s: State, a: Step)
    requires Enabled(s, a) && a.Arrive?
    ensures Effect(s, a, Apply(s, a))
  {
  }

  lemma StepEffect(s: State, a: Step)
    requires Enabled(s, a) && Ready(s, a)
    ensures Effect(s, a, Apply(s, a))
  {
    if a.Begin? {
      BeginEffect(s, a);
    } else if a.StartRetry? {
      StartRetryEffect(s, a);
    } else if a.Answered? {
      if a.found { FoundEffect(s, a); } else { NotFoundEffect(s, a); }
    } else if a.SendFailed? {
      SendFailedEffect(s, a);
    } else if a.Wake? || a.Timeout? {
      EndWaitEffect(s, a);
    } else if a.Raise? {
      if s.calls[a.k].phase.Awaiting? { RaiseWaitingEffect(s, a); } else { RaiseEffect(s, a); }
    } else if a.FlushQueue? {
      FlushEffect(s, a);
    } else if a.LoseLaunched? {
      LoseEffect(s, a);
    } else if a.Sent? {
      SentEffect(s, a);
    } else if a.Cancel? {
      CancelEffect(s, a);
    } else {
      ArriveEffect(s, a);
    }
  }

  /** The last step of a run, and what it leaves alone. */
  lemma LastStep(before: Run, s: State, a: Step, s': State)
    requires StepsTo(before, s, a, s')
    ensures Inv(s) && Effect(s, a, s')
  {
    EveryRunKeepsInv(before, s);
    InvReady(s, a);
    StepEffect(s, a);
  }
}
