/** What the machine of TaskDelivery guarantees in every run. */
module TaskGuarantees {
  import opened Lists
  import opened PendingQueue
  import opened Flush
  import opened TaskDelivery
  import opened TaskEffects

  /** r continues r0. */
  ghost predicate Extends(r: Run, r0: Run) {
    r == r0 || (r.Do? && Extends(r.before, r0))
  }

  lemma {:induction false} EveryRunExtendsStart(r: Run)
    ensures Extends(r, Start)
  {
    if r.Do? { EveryRunExtendsStart(r.before); }
  }

  lemma {:induction false} RunIsOnward(r: Run, s: State, r0: Run, s0: State)
    requires Reaches(r, s) && Reaches(r0, s0) && Extends(r, r0)
    ensures Onward(s0, s)
  {
    if r == r0 {
      RunLeadsToOneState(r, s, s0);
    } else {
      var s1 :| StepsTo(r.before, s1, r.step, s);
      RunIsOnward(r.before, s1, r0, s0);
      LastStep(r.before, s1, r.step, s);
      OnwardTrans(s0, s1, s);
    }
  }

  lemma OneMoreStep(r: Run, s: State, a: Step)
    requires Reaches(r, s) && Enabled(s, a)
    ensures Reaches(Do(r, a), Apply(s, a))
  {
    assert StepsTo(r, s, a, Apply(s, a));
  }

  // ---------------------------------------------------------------- stored tasks are conserved

  /** A stored task is, at any time, in exactly one of: the queue, the retries about to start, the running
      retries, the delivered, the expired and the aborted tasks. Other ids are in none of them. */
  lemma StoredTaskIsInOnePlace(r: Run, s: State, id: string)
    requires Reaches(r, s)
    ensures Places(s, id) == if id in s.record then 1 else 0
  {
    EveryRunKeepsInv(r, s);
  }

  lemma OneRetryAtATime(r: Run, s: State, i: nat, j: nat)
    requires Reaches(r, s) && i in s.calls && j in s.calls && s.calls[i].Active() && s.calls[j].Active()
    requires s.calls[i].retry.Some? && s.calls[j].retry.Some?
    requires s.calls[i].retry.value.taskId == s.calls[j].retry.value.taskId
    ensures i == j
  {
    EveryRunKeepsInv(r, s);
  }

  /** What was first stored under an id, with the time it was stored, stays as it is whatever happens later. */
  lemma TasksNeverChange(r: Run, s: State, r0: Run, s0: State, id: string)
    requires Reaches(r, s) && Reaches(r0, s0) && Extends(r, r0)
    ensures id in s0.record ==> id in s.record && s.record[id] == s0.record[id]
    ensures id in s.record && id !in s0.record ==> StampedIn(s.record[id], s0.clock, s.clock)
  {
    RunIsOnward(r, s, r0, s0);
  }

  /** What waits in the queue, is about to be retried or is being retried is, but for its retry count, the task
      that was stored; a retry sends that task. */
  lemma CopiesAreFaithful(r: Run, s: State, id: string)
    requires Reaches(r, s)
    ensures Recorded(s.queue, s.record)
    ensures id in s.launched ==> IsRecorded(s.launched[id], id, s.record)
    ensures id in s.retrying ==> Retries(s.retrying[id], id, s.calls, s.record)
  {
    EveryRunKeepsInv(r, s);
  }

  // ---------------------------------------------------------------- the outcome of send_task

  /** A call stores its task exactly when it is no retry and ends with an error; the task is then the one it was
      asked to send, and the answer is QUEUED. A success is backed by a success RESULT to this call. */
  lemma CallOutcome(r: Run, s: State, k: nat)
    requires Reaches(r, s) && k in s.calls
    ensures var c := s.calls[k];
            && (c.taskId in s.record <==> c.retry.None? && c.phase.Done? && c.phase.result.Failure?)
            && (c.taskId in s.record ==> c.phase.result == Failure(c.taskId, "QUEUED") && StoredFor(s.record[c.taskId], c))
            && (c.phase.Done? && c.phase.result.Success? ==>
                  var id := c.phase.result.id;
                  id in s.owner && s.owner[id] == k && Reply(id, true, c.phase.result.payload) in s.replies)
  {
    EveryRunKeepsInv(r, s);
    assert OwnsIds(s.calls[k], k, s.owner);
    var id := s.calls[k].taskId;
    assert id in s.record ==> QueuedBy(s.owner[id], id, s.calls, s.record);
    assert s.calls[k].phase.Done? ==> OwnSuccess(s.calls[k].phase.result, k, s.owner, s.replies);
  }

  /** A call ends with a result exactly at these steps, and with success exactly when it wakes up with one. */
  lemma CallEndsWithWhatItGot(r: Run, s: State, a: Step, s': State)
    requires StepsTo(r, s, a, s') && OfCall(a)
    ensures a.k in s'.calls && (s'.calls[a.k].phase.Done? <==> Ends(a))
    ensures Ends(a) ==> (s'.calls[a.k].phase.result.Success? <==> WakesWithSuccess(s, a))
  {
    LastStep(r, s, a, s');
  }

  /** A stored task is delivered at most once: the retry that ended with success is the one on record. */
  lemma DeliveredAtMostOnce(r: Run, s: State, k: nat, id: string)
    requires Reaches(r, s)
    ensures HasDelivered(k, id, s.calls) <==> id in s.delivered && s.delivered[id] == k
  {
    EveryRunKeepsInv(r, s);
    EveryRunExtendsStart(r);
    RunIsOnward(r, s, Start, INITIAL);
    if HasDelivered(k, id, s.calls) { assert DeliversIn(k, INITIAL, s); }
  }

  /** A delivered task was answered: its retry ended with a success RESULT to that very retry. */
  lemma DeliveredMeansAnswered(r: Run, s: State, id: string)
    requires Reaches(r, s) && id in s.delivered
    ensures HasDelivered(s.delivered[id], id, s.calls)
    ensures var result := s.calls[s.delivered[id]].phase.result;
            && Reply(result.id, true, result.payload) in s.replies
            && result.id in s.owner && s.owner[result.id] == s.delivered[id]
  {
    EveryRunKeepsInv(r, s);
    assert HasDelivered(s.delivered[id], id, s.calls);
    CallOutcome(r, s, s.delivered[id]);
  }

  // ---------------------------------------------------------------- ten minutes

  /** The flush takes the task out of the queue for a retry. */
  predicate Takes(s: State, a: Step, id: string) {
    a.FlushQueue? && id in Ids(Launched(s.queue, a.now, a.reachable))
  }

  /** The last flush of the run that took the task did so at time t0. */
  ghost predicate TakenBy(r: Run, id: string, t0: int) {
    r.Do? && if exists s :: Reaches(r.before, s) && Takes(s, r.step, id) then r.step.now == t0 else TakenBy(r.before, id, t0)
  }

  lemma {:induction false} TakenAtOneTime(r: Run, id: string, t0: int, t1: int)
    requires TakenBy(r, id, t0) && TakenBy(r, id, t1)
    ensures t0 == t1
  {
    if !(exists s :: Reaches(r.before, s) && Takes(s, r.step, id)) { TakenAtOneTime(r.before, id, t0, t1); }
  }

  lemma {:induction false} LaunchedAreFresh(l: Tasks, id: string, now: int)
    requires AllFresh(l, now) && id in Ids(l)
    ensures id in TaskMap(l) && !TooOld(TaskMap(l)[id], now)
  {
    if id != l.head.taskId { LaunchedAreFresh(l.tail, id, now); }
  }

  /** A flush starts no retry of a task older than ten minutes and leaves none in the queue. */
  lemma FlushLimitsAge(r: Run, s: State, a: Step, s': State, id: string)
    requires StepsTo(r, s, a, s') && a.FlushQueue?
    ensures AllFresh(s'.queue, a.now)
    ensures id in s'.launched && id !in s.launched ==> !TooOld(s'.launched[id], a.now)
  {
    var started := Launched(s.queue, a.now, a.reachable);
    FlushEnforcesAge(s.queue, a.now, a.reachable);
    EveryRunKeepsInv(r, s);
    FlushRecords(s.queue, a.now, a.reachable, s.record);
    TaskMapOf(started, s.record);
    if id in Ids(started) { LaunchedAreFresh(started, id, a.now); }
  }

  lemma {:induction false} RecordedIds(l: Tasks, now: int, record: Record, id: string)
    requires Recorded(l, record) && AllFresh(l, now) && id in Ids(l)
    ensures id in record && now - record[id].createdAt <= 600_000_000
  {
    if id != l.head.taskId { RecordedIds(l.tail, now, record, id); }
  }

  lemma NewlyLaunched(before: Run, s: State, a: Step, s': State, id: string)
    requires StepsTo(before, s, a, s') && id in s'.launched && id !in s.launched
    ensures Takes(s, a, id)
  {
    LastStep(before, s, a, s');
    assert id in s'.launched.Keys && id !in s.launched.Keys;
    FlushRecords(s.queue, a.now, a.reachable, s.record);
    TaskMapOf(Launched(s.queue, a.now, a.reachable), s.record);
  }

  lemma TakenAreYoung(before: Run, s: State, a: Step, id: string)
    requires Reaches(before, s) && Takes(s, a, id)
    ensures id in s.record && a.now - s.record[id].createdAt <= 600_000_000
  {
    EveryRunKeepsInv(before, s);
    FlushRecords(s.queue, a.now, a.reachable, s.record);
    FlushEnforcesAge(s.queue, a.now, a.reachable);
    RecordedIds(Launched(s.queue, a.now, a.reachable), a.now, s.record, id);
  }

  /** The task was taken by the flush at t0, at most 600 s old, and t0 is not in the future. */
  ghost predicate TakenYoung(r: Run, s: State, id: string, t0: int) {
    TakenBy(r, id, t0) && t0 <= s.clock && id in s.record && t0 - s.record[id].createdAt <= 600_000_000
  }

  lemma {:induction false} LaunchedWereTakenYoung(r: Run, s: State, id: string) returns (t0: int)
    requires Reaches(r, s) && id in s.launched
    ensures TakenYoung(r, s, id, t0)
  {
    if r.Start? {
      t0 := 0;
    } else {
      var s0 :| StepsTo(r.before, s0, r.step, s);
      LastStep(r.before, s0, r.step, s);
      if t :| Reaches(r.before, t) && Takes(t, r.step, id) {
        RunLeadsToOneState(r.before, t, s0);
        TakenAreYoung(r.before, s0, r.step, id);
        FlushSetsClock(s0, r.step);
        t0 := r.step.now;
      } else {
        if id !in s0.launched { NewlyLaunched(r.before, s0, r.step, s, id); }
        t0 := LaunchedWereTakenYoung(r.before, s0, id);
      }
    }
  }

  lemma FlushSetsClock(s: State, a: Step)
    requires Enabled(s, a) && a.FlushQueue?
    ensures Apply(s, a).clock == a.now
  {
  }

  /** When a retry starts, its task is older than 600 s by no more than the time since the flush that took it. */
  lemma RetryAgeIsBounded(r: Run, s: State, a: Step, s': State, t0: int)
    requires StepsTo(r, s, a, s') && a.StartRetry? && TakenBy(r, a.task, t0)
    ensures t0 <= a.now && a.task in s.record && a.now - s.record[a.task].createdAt <= 600_000_000 + (a.now - t0)
  {
    var t1 := LaunchedWereTakenYoung(r, s, a.task);
    TakenAtOneTime(r, a.task, t0, t1);
  }

  /** And there is always such a flush. */
  lemma RetriesWereTaken(r: Run, s: State, a: Step, s': State)
    requires StepsTo(r, s, a, s') && a.StartRetry?
    ensures exists t0 :: TakenBy(r, a.task, t0)
  {
    var t0 := LaunchedWereTakenYoung(r, s, a.task);
  }

  /** In every run, a retry that starts at most d after the flush that took its task is of a task at most 600 s old. */
  ghost predicate PromptRetriesAreYoung(d: nat) {
    forall r, s, a, s', t0 :: StepsTo(r, s, a, s') && a.StartRetry? && TakenBy(r, a.task, t0) && a.now - t0 <= d ==>
      a.task in s.record && a.now - s.record[a.task].createdAt <= 600_000_000
  }

  /** The age limit holds for the retries that start at the very instant of the flush, and for no longer delay. */
  lemma RetriesAreYoungIffImmediate(d: nat)
    ensures PromptRetriesAreYoung(d) <==> d == 0
  {
    if d == 0 {
      forall r, s, a, s', t0 | StepsTo(r, s, a, s') && a.StartRetry? && TakenBy(r, a.task, t0) && a.now - t0 <= d
        ensures a.task in s.record && a.now - s.record[a.task].createdAt <= 600_000_000
      {
        RetryAgeIsBounded(r, s, a, s', t0);
      }
    } else {
      var s := LateRetryStartsOld();
      var a := StartRetry(1, 600_000_001, "id", "retry", ToPeer);
      assert StepsTo(FLUSHED_LATE, s, a, Apply(s, a));
    }
  }

  /** Only tasks older than ten minutes expire. */
  lemma ExpiredAreOld(r: Run, s: State, id: string)
    requires Reaches(r, s) && id in s.expired
    ensures OldIn(id, s) && id in s.record && s.clock - s.record[id].createdAt > 600_000_000
  {
    EveryRunExtendsStart(r);
    RunIsOnward(r, s, Start, INITIAL);
  }

  /** Some retry of this task was dropped before it ran, or ended by an exception. */
  ghost predicate GaveUp(r: Run, id: string) {
    r.Do? && (GaveUp(r.before, id) || exists s :: Reaches(r.before, s) && GivesUp(s, r.step, id))
  }

  lemma {:induction false} AbortedIffGaveUp(r: Run, s: State, id: string)
    requires Reaches(r, s)
    ensures id in s.aborted <==> GaveUp(r, id)
  {
    if r.Do? {
      var s0 :| StepsTo(r.before, s0, r.step, s);
      AbortedIffGaveUp(r.before, s0, id);
      LastStep(r.before, s0, r.step, s);
      forall t | Reaches(r.before, t)
        ensures t == s0
      {
        RunLeadsToOneState(r.before, t, s0);
      }
    }
  }

  ghost predicate InCare(s: State, id: string) {
    id in Ids(s.queue) || id in s.launched || id in s.retrying || id in s.delivered
  }

  /** A stored task is queued, about to be retried, being retried, delivered or expired exactly when no retry of
      this task was given up; and while it is young it is not expired. */
  lemma NothingIsLostUnlessGivenUp(r: Run, s: State, id: string)
    requires Reaches(r, s) && id in s.record
    ensures InCare(s, id) || id in s.expired <==> !GaveUp(r, id)
    ensures !OldIn(id, s) ==> (InCare(s, id) <==> !GaveUp(r, id))
  {
    StoredTaskIsInOnePlace(r, s, id);
    AbortedIffGaveUp(r, s, id);
    if id in s.expired { ExpiredAreOld(r, s, id); }
  }

  const FAILED := Do(Do(Start, Begin(0, 0, "id", "node", "cap", "{}", 60, ToPeer)), SendFailed(0, 0))
  const FLUSHED := Do(FAILED, FlushQueue(0, {"id"}))
  const FLUSHED_LATE := Do(FAILED, FlushQueue(600_000_000, {"id"}))
  const DROPPED := Do(FLUSHED, LoseLaunched("id"))

  lemma FailedSendIsQueued() returns (s: State)
    ensures 1 !in s.calls && "retry" !in s.owner
    ensures Reaches(FAILED, s) && s.clock == 0 && s.launched == map[] && s.retrying == map[] && s.delivered == map[]
    ensures var t := PendingTask("id", "node", "cap", "{}", 0, 0, 60);
            s.queue == Cons(t, Nil) && s.record == map["id" := t]
  {
    var s1 := Apply(INITIAL, FAILED.before.step);
    OneMoreStep(Start, INITIAL, FAILED.before.step);
    assert s1.calls[0].phase == Sending("id") && s1.queue == Nil && s1.record == map[];
    s := Apply(s1, SendFailed(0, 0));
    OneMoreStep(FAILED.before, s1, SendFailed(0, 0));
  }

  /** A flush of a queue with one young task that is reachable. */
  lemma FlushOfOne(s: State, t: PendingTask, now: int)
    requires s.queue == Cons(t, Nil) && s.launched == map[] && now >= s.clock && !TooOld(t, now)
    ensures Takes(s, FlushQueue(now, {t.taskId}), t.taskId)
    ensures var s' := Apply(s, FlushQueue(now, {t.taskId}));
            && s'.clock == now && s'.queue == Nil && s'.launched == map[t.taskId := t] && s'.record == s.record
            && s'.retrying == s.retrying && s'.delivered == s.delivered && s'.calls == s.calls && s'.owner == s.owner
  {
    var none: Tasks := Nil;
    assert Kept(none, now, {t.taskId}) == none && Launched(none, now, {t.taskId}) == none;
    assert Kept(s.queue, now, {t.taskId}) == none && Launched(s.queue, now, {t.taskId}) == Cons(t, none);
    assert TaskMap(Cons(t, Nil)) == map[t.taskId := t];
  }

  lemma FlushLaunchesIt(now: int) returns (s: State)
    requires 0 <= now <= 600_000_000
    ensures 1 !in s.calls && "retry" !in s.owner
    ensures var r := Do(FAILED, FlushQueue(now, {"id"})); Reaches(r, s) && TakenBy(r, "id", now)
    ensures s.clock == now && s.queue == Nil && s.retrying == map[] && s.delivered == map[]
    ensures var t := PendingTask("id", "node", "cap", "{}", 0, 0, 60);
            s.launched == map["id" := t] && s.record == map["id" := t]
  {
    var s0 := FailedSendIsQueued();
    FlushOfOne(s0, s0.queue.head, now);
    s := Apply(s0, FlushQueue(now, {"id"}));
    OneMoreStep(FAILED, s0, FlushQueue(now, {"id"}));
  }

  /** The condition is needed: a started retry that is cancelled before its first step never runs, and its task,
      here a fresh one, is in none of the places. */
  lemma GivenUpTaskIsLost() returns (s: State)
    ensures Reaches(DROPPED, s) && "id" in s.record && !OldIn("id", s) && !InCare(s, "id")
  {
    var s0 := FlushLaunchesIt(0);
    s := Apply(s0, LoseLaunched("id"));
    OneMoreStep(FLUSHED, s0, LoseLaunched("id"));
  }

  /** The age is looked at by the flush alone: here a retry starts a microsecond after the flush, too late. */
  lemma LateRetryStartsOld() returns (s: State)
    ensures Reaches(FLUSHED_LATE, s) && TakenBy(FLUSHED_LATE, "id", 600_000_000)
    ensures var a := StartRetry(1, 600_000_001, "id", "retry", ToPeer);
            Enabled(s, a) && "id" in s.record && a.now - s.record["id"].createdAt > 600_000_000
  {
    s := FlushLaunchesIt(600_000_000);
  }

  // ---------------------------------------------------------------- replies

  /** The pending results are exactly the ids that calls are waiting on, one call each. */
  lemma PendingResultsAreWaits(r: Run, s: State, w: string)
    requires Reaches(r, s)
    ensures w in s.futures <==> exists k :: k in s.calls && s.calls[k].phase == Awaiting(w)
    ensures forall i, j | i in s.calls && j in s.calls ::
              s.calls[i].phase == Awaiting(w) && s.calls[j].phase == Awaiting(w) ==> i == j
  {
    EveryRunKeepsInv(r, s);
    if w in s.futures { assert Waits(w, s.calls, s.owner); }
    forall i | i in s.calls && s.calls[i].phase == Awaiting(w)
      ensures w in s.owner && s.owner[w] == i
    {
      assert OwnsIds(s.calls[i], i, s.owner);
    }
  }

  lemma NotWaitedWhileSending(s: State, k: nat)
    requires Inv(s) && k in s.calls && s.calls[k].phase.Sending?
    ensures s.calls[k].phase.wire !in s.futures
  {
    var w := s.calls[k].phase.wire;
    assert OwnsIds(s.calls[k], k, s.owner);
    assert w in s.futures ==> Waits(w, s.calls, s.owner);
  }

  lemma FutureChanges(s: State, a: Step, w: string)
    requires Enabled(s, a) && w in s.futures && (a.Sent? ==> s.calls[a.k].phase.wire !in s.futures)
    ensures var f := FuturesAfter(s, a);
            && (w in f && f[w] != s.futures[w] ==>
                  && s.futures[w].Waiting?
                  && (if a.Arrive? then a.reply.id == w && f[w] == Resolved(ResultOf(a.reply))
                      else a.Cancel? && s.calls[a.k].phase == Awaiting(w) && f[w] == Cancelled))
            && (w !in f ==> (a.Wake? || a.Timeout? || a.Raise?) && s.calls[a.k].phase == Awaiting(w))
  {
  }

  /** A future is done only once: by a RESULT with its own id, or by the cancellation of its own wait; and it goes
      only when its own call stops waiting. */
  lemma OnlyOwnReplyResolves(r: Run, s: State, a: Step, s': State, w: string)
    requires StepsTo(r, s, a, s') && w in s.futures
    ensures w in s'.futures && s'.futures[w] != s.futures[w] ==>
              && s.futures[w].Waiting?
              && (if a.Arrive? then a.reply.id == w && s'.futures[w] == Resolved(ResultOf(a.reply))
                  else a.Cancel? && s.calls[a.k].phase == Awaiting(w) && s'.futures[w] == Cancelled)
    ensures w !in s'.futures ==> (a.Wake? || a.Timeout? || a.Raise?) && s.calls[a.k].phase == Awaiting(w)
  {
    LastStep(r, s, a, s');
    if a.Sent? { NotWaitedWhileSending(s, a.k); }
    FutureChanges(s, a, w);
  }

  /** A reply is caught exactly when a call is waiting on its id and the future of that wait is not done: no earlier
      reply was caught, and the wait was not cancelled. */
  lemma ReplyCaughtIff(r: Run, s: State, reply: Reply)
    requires Reaches(r, s)
    ensures Deliver(s.futures, reply) != s.futures <==>
            Waits(reply.id, s.calls, s.owner) && reply.id in s.futures && s.futures[reply.id].Waiting?
  {
    EveryRunKeepsInv(r, s);
    var id := reply.id;
    if id in s.futures { assert Waits(id, s.calls, s.owner); }
    if id in s.futures && s.futures[id].Waiting? { assert Deliver(s.futures, reply)[id] != s.futures[id]; }
  }

  /** A reply that comes between the send and the start of the wait changes nothing for the call. */
  lemma EarlyReplyIsLost(r: Run, s: State, k: nat, reply: Reply, s': State)
    requires StepsTo(r, s, Arrive(reply), s') && k in s.calls && s.calls[k].phase == Sending(reply.id)
    ensures s' == s.(replies := s.replies + {reply})
  {
    EveryRunKeepsInv(r, s);
    NotWaitedWhileSending(s, k);
  }

  /** Nor is one that comes after the time is up, although its id is still registered and its call still waits;
      the run TIMED_OUT below ends in such a state. */
  lemma LateReplyIsLost(r: Run, s: State, k: nat, reply: Reply, s': State)
    requires StepsTo(r, s, Arrive(reply), s') && k in s.calls && s.calls[k].phase == Awaiting(reply.id)
    requires reply.id in s.futures && s.futures[reply.id] == Cancelled
    ensures s' == s.(replies := s.replies + {reply})
  {
  }

  const ASKED := Do(Start, Begin(0, 0, "id", "node", "cap", "{}", 60, ToPeer))
  const ANSWERED := Do(ASKED, Arrive(Reply("id", true, "{}")))
  const WAITING := Do(ANSWERED, Sent(0))
  const TIMED_OUT := Do(WAITING, Cancel(0))
  const GIVEN_UP := Do(TIMED_OUT, Timeout(0, 30_000_000))

  lemma AnswerBeforeWait() returns (s: State)
    ensures Reaches(ANSWERED, s) && Reply("id", true, "{}") in s.replies
    ensures 0 in s.calls && s.calls[0].phase == Sending("id") && s.calls[0].taskId == "id" && s.calls[0].retry.None?
    ensures s.futures == map[] && s.queue == Nil && s.clock == 0
  {
    var s1 := Apply(INITIAL, ASKED.step);
    OneMoreStep(Start, INITIAL, ASKED.step);
    s := Apply(s1, ANSWERED.step);
    OneMoreStep(ASKED, s1, ANSWERED.step);
  }

  lemma WaitAfterAnswer() returns (s: State)
    ensures Reaches(WAITING, s) && Reply("id", true, "{}") in s.replies
    ensures 0 in s.calls && s.calls[0].phase == Awaiting("id") && s.calls[0].taskId == "id" && s.calls[0].retry.None?
    ensures s.futures == map["id" := Waiting] && s.queue == Nil && s.clock == 0
  {
    var s2 := AnswerBeforeWait();
    s := Apply(s2, Sent(0));
    OneMoreStep(ANSWERED, s2, Sent(0));
  }

  lemma TimeoutIsQueued(s: State, k: nat, now: int)
    requires Enabled(s, Timeout(k, now)) && s.calls[k].retry.None?
    ensures var s', c := Apply(s, Timeout(k, now)), s.calls[k];
            && s'.replies == s.replies && k in s'.calls && s'.calls[k].phase == Done(Failure(c.taskId, "QUEUED"))
            && s'.queue == s.queue.Append(
                             Cons(PendingTask(c.taskId, c.target, c.capability, c.payload, now, 0, c.ttl), Nil))
  {
  }

  lemma CancelStep(r: Run, s: State, k: nat) returns (s': State)
    requires Reaches(r, s) && Enabled(s, Cancel(k))
    ensures Reaches(Do(r, Cancel(k)), s') && s' == s.(futures := s.futures[s.calls[k].phase.wire := Cancelled])
  {
    OneMoreStep(r, s, Cancel(k));
    s' := s.(futures := s.futures[s.calls[k].phase.wire := Cancelled]);
  }

  lemma CancelAfterAnswer() returns (s: State)
    ensures Reaches(TIMED_OUT, s) && Reply("id", true, "{}") in s.replies
    ensures 0 in s.calls && s.calls[0].phase == Awaiting("id") && s.calls[0].taskId == "id" && s.calls[0].retry.None?
    ensures s.futures == map["id" := Cancelled] && s.queue == Nil && s.clock == 0
  {
    var s3 := WaitAfterAnswer();
    s := CancelStep(WAITING, s3, 0);
  }

  /** So delivery is at least once: here the peer has answered with success and the task is queued all the same. */
  lemma AnsweredTaskCanBeQueued() returns (s: State)
    ensures Reaches(GIVEN_UP, s)
    ensures Reply("id", true, "{}") in s.replies && "id" in Ids(s.queue)
    ensures 0 in s.calls && s.calls[0].phase == Done(Failure("id", "QUEUED"))
  {
    var s4 := CancelAfterAnswer();
    TimeoutIsQueued(s4, 0, 30_000_000);
    s := Apply(s4, Timeout(0, 30_000_000));
    OneMoreStep(TIMED_OUT, s4, Timeout(0, 30_000_000));
  }

  // ---------------------------------------------------------------- at most one completion

  /** The step gives the call that waits on w its result. */
  predicate Completes(s: State, a: Step, w: string) {
    (a.Wake? || a.Timeout?) && a.k in s.calls && s.calls[a.k].phase == Awaiting(w)
  }

  /** How often a run hands out a result for w. */
  ghost function Completions(r: Run, w: string): nat {
    if r.Start? then 0
    else Completions(r.before, w) + Bit(exists s :: Reaches(r.before, s) && Completes(s, r.step, w))
  }

  /** No call has used the id yet, or that call is still running. */
  predicate Open(s: State, w: string) {
    w in s.owner && s.owner[w] in s.calls ==> s.calls[s.owner[w]].Active()
  }

  lemma CompletionCloses(s: State, a: Step, s': State, w: string)
    requires IdsOwned(s.calls, s.owner) && Enabled(s, a) && Completes(s, a, w) && Effect(s, a, s')
    ensures Open(s, w) && !Open(s', w)
  {
    assert OwnsIds(s.calls[a.k], a.k, s.owner);
  }

  lemma StaysClosed(s: State, a: Step, s': State, w: string)
    requires Enabled(s, a) && Effect(s, a, s') && !Open(s, w)
    ensures !Open(s', w)
  {
  }

  lemma CompletionsStep(before: Run, s: State, a: Step, w: string)
    requires Reaches(before, s)
    ensures Completions(Do(before, a), w) == Completions(before, w) + Bit(Completes(s, a, w))
  {
    forall t | Reaches(before, t)
      ensures t == s
    {
      RunLeadsToOneState(before, t, s);
    }
  }

  /** Over a whole run each id is waited for, and its result handed out, at most once. */
  lemma {:induction false} CompletesAtMostOnce(r: Run, s: State, w: string)
    requires Reaches(r, s)
    ensures Completions(r, w) + Bit(Open(s, w)) <= 1
  {
    if r.Do? {
      var s0 :| StepsTo(r.before, s0, r.step, s);
      CompletesAtMostOnce(r.before, s0, w);
      LastStep(r.before, s0, r.step, s);
      CompletionsStep(r.before, s0, r.step, w);
      if Completes(s0, r.step, w) {
        CompletionCloses(s0, r.step, s, w);
      } else if !Open(s0, w) {
        StaysClosed(s0, r.step, s, w);
      }
    }
  }
}
