/** Sending tasks, matching results, and retrying from the pending queue, as one state machine.
    A step is the code between two suspensions; calls, replies, timeouts, flushes and retries
    interleave in any order. */
module TaskDelivery {
  import opened Lists
  import opened PendingQueue
  import opened Flush

  /** A RESULT message that passed its signature check; text is the payload or the error code. */
  datatype Reply = Reply(id: string, success: bool, text: string)

  datatype Result = Success(id: string, payload: string) | Failure(id: string, code: string)

  /** A future is done once it is resolved or cancelled. */
  datatype Future = Waiting | Resolved(result: Result) | Cancelled

  datatype Phase = Querying | Sending(wire: string) | Awaiting(wire: string) | Done(result: Result) | Raised

  /** One run of send_task, or of a retry, which is a send_task that bypasses the queue. */
  datatype Call = Call(taskId: string, target: string, capability: string, payload: string, ttl: int,
                       retry: Option<PendingTask>, phase: Phase) {
    predicate Active() {
      phase.Querying? || phase.Sending? || phase.Awaiting?
    }
  }

  /** `owner` says which call generated an id, `record` holds each task as it was first stored,
      `retrying` and `delivered` name the call that retries or has delivered a task. */
  datatype State = State(
    clock: int, calls: map<nat, Call>, futures: map<string, Future>, owner: map<string, nat>, replies: set<Reply>,
    queue: Tasks, record: map<string, PendingTask>, launched: map<string, PendingTask>,
    retrying: map<string, nat>, delivered: map<string, nat>, expired: set<string>, aborted: set<string>)

  const INITIAL := State(0, map[], map[], map[], {}, Nil, map[], map[], map[], map[], {}, {})

  /** Where a new task goes first: to a peer found at once, to a relay under an id of its own,
      nowhere for want of a relay, or into a query for the capability. */
  datatype Route = ToPeer | ToRelay(wire: string) | NoRelay(unsent: string) | Ask

  /** LoseLaunched is a retry cancelled before its first step; Raise is an exception or a cancellation in a running
      call. Neither is caught by the retry in a way that puts its task back.
      A wait ends in two steps: first its future is done, and only later, when the call runs again, the entry goes.
      Cancel is the timer, or whoever cancels the call. A timeout can also meet a resolved future, when the timer
      fires after the reply and before the call runs again. */
  datatype Step =
    | Begin(k: nat, now: int, id: string, target: string, capability: string, payload: string, ttl: int, route: Route)
    | StartRetry(k: nat, now: int, task: string, id: string, route: Route)
    | LoseLaunched(task: string)
    | Answered(k: nat, now: int, found: bool)
    | Sent(k: nat)
    | SendFailed(k: nat, now: int)
    | Arrive(reply: Reply)
    | Cancel(k: nat)
    | Wake(k: nat, now: int)
    | Timeout(k: nat, now: int)
    | Raise(k: nat)
    | FlushQueue(now: int, reachable: set<string>)

  function ResultOf(r: Reply): Result {
    if r.success then Success(r.id, r.text) else Failure(r.id, r.text)
  }

  /** A reply completes the future registered under its id, once; any other reply is dropped. */
  function Deliver(futures: map<string, Future>, r: Reply): map<string, Future> {
    if r.id in futures && futures[r.id].Waiting? then futures[r.id := Resolved(ResultOf(r))] else futures
  }

  /** What a call without bypass leaves in the queue, and returns. */
  function QueueAfterCall(queue: Tasks, c: Call, r: Result, now: int): Tasks {
    if r.Success? then queue
    else queue.Append(Cons(PendingTask(c.taskId, c.target, c.capability, c.payload, now, 0, c.ttl), Nil))
  }

  function Returned(c: Call, r: Result): Result {
    if r.Success? then r else Failure(c.taskId, "QUEUED")
  }

  /** A task sent to its peer travels under its own id, a relayed one under another. */
  function SendError(c: Call): Result
    requires c.phase.Sending?
  {
    Failure(c.phase.wire, if c.phase.wire == c.taskId then "SEND_ERROR" else "RELAY_ERROR")
  }

  function SetPhase(s: State, k: nat, p: Phase): State
    requires k in s.calls
  {
    s.(calls := s.calls[k := s.calls[k].(phase := p)])
  }

  /** The end of send_task, and for a retry of the retry coroutine, once there is a result. */
  function Finish(s: State, k: nat, r: Result, now: int): State
    requires k in s.calls
  {
    var c := s.calls[k];
    match c.retry
    case None =>
      s.(calls := s.calls[k := c.(phase := Done(Returned(c, r)))],
         queue := QueueAfterCall(s.queue, c, r, now),
         record := if r.Success? then s.record
                   else s.record[c.taskId := PendingTask(c.taskId, c.target, c.capability, c.payload, now, 0, c.ttl)])
    case Some(t) =>
      s.(calls := s.calls[k := c.(phase := Done(r))],
         retrying := s.retrying - {t.taskId},
         delivered := if r.Success? then s.delivered[t.taskId := k] else s.delivered,
         expired := if r.Failure? && TooOld(t, now) then s.expired + {t.taskId} else s.expired,
         queue := if r.Failure? && !TooOld(t, now) then Requeue(s.queue, t) else s.queue)
  }

  /** wait_for returns: the entry of the future is removed. */
  function Unwait(s: State, k: nat): State
    requires k in s.calls && s.calls[k].phase.Awaiting?
  {
    var w := s.calls[k].phase.wire;
    s.(calls := s.calls[k := s.calls[k].(phase := Sending(w))], futures := s.futures - {w})
  }

  function Fail(s: State, k: nat): State
    requires k in s.calls
  {
    var calls := s.calls[k := s.calls[k].(phase := Raised)];
    match s.calls[k].retry
    case None => s.(calls := calls)
    case Some(t) => s.(calls := calls, retrying := s.retrying - {t.taskId}, aborted := s.aborted + {t.taskId})
  }

  function AddCall(s: State, k: nat, c: Call): State {
    s.(calls := s.calls[k := c], owner := s.owner[c.taskId := k])
  }

  function AddRetry(s: State, k: nat, id: string, t: PendingTask): State {
    s.(calls := s.calls[k := Call(id, t.target, t.capability, t.payload, t.ttl, Some(t), Querying)],
       owner := s.owner[id := k], launched := s.launched - {t.taskId}, retrying := s.retrying[t.taskId := k])
  }

  function TakeRoute(s: State, k: nat, route: Route, now: int): State
    requires k in s.calls
  {
    match route
    case ToPeer => SetPhase(s, k, Sending(s.calls[k].taskId))
    case ToRelay(w) => SetPhase(s.(owner := s.owner[w := k]), k, Sending(w))
    case NoRelay(w) => Finish(s, k, Failure(w, "NO_TRACKER"), now)
    case Ask => s
  }

  predicate RouteFits(s: State, target: string, id: string, route: Route) {
    && (target == "" ==> route.ToPeer? || route.Ask?)
    && (target != "" ==> !route.Ask?)
    && (route.ToRelay? ==> route.wire !in s.owner && route.wire != id)
  }

  predicate Enabled(s: State, a: Step) {
    match a
    case Begin(k, now, id, target, _, _, _, route) =>
      k !in s.calls && now >= s.clock && id !in s.owner && RouteFits(s, target, id, route)
    case StartRetry(k, now, task, id, route) =>
      k !in s.calls && now >= s.clock && id !in s.owner && task in s.launched
      && RouteFits(s, s.launched[task].target, id, route)
    case LoseLaunched(task) => task in s.launched
    case Answered(k, now, _) => k in s.calls && now >= s.clock && s.calls[k].phase.Querying?
    case Sent(k) => k in s.calls && s.calls[k].phase.Sending?
    case SendFailed(k, now) => k in s.calls && now >= s.clock && s.calls[k].phase.Sending?
    case Arrive(_) => true
    case Cancel(k) =>
      k in s.calls && s.calls[k].phase.Awaiting? && s.calls[k].phase.wire in s.futures
      && s.futures[s.calls[k].phase.wire].Waiting?
    case Wake(k, now) =>
      k in s.calls && now >= s.clock && s.calls[k].phase.Awaiting? && s.calls[k].phase.wire in s.futures
      && s.futures[s.calls[k].phase.wire].Resolved?
    case Timeout(k, now) =>
      k in s.calls && now >= s.clock && s.calls[k].phase.Awaiting? && s.calls[k].phase.wire in s.futures
      && !s.futures[s.calls[k].phase.wire].Waiting?
    case Raise(k) => k in s.calls && s.calls[k].Active()
    case FlushQueue(now, _) => now >= s.clock
  }

  function TaskMap(l: Tasks): map<string, PendingTask> {
    if l.Nil? then map[] else TaskMap(l.tail)[l.head.taskId := l.head]
  }

  function Apply(s: State, a: Step): State
    requires Enabled(s, a)
  {
    match a
    case Begin(k, now, id, target, capability, payload, ttl, route) =>
      TakeRoute(AddCall(s.(clock := now), k, Call(id, target, capability, payload, ttl, None, Querying)), k, route, now)
    case StartRetry(k, now, task, id, route) =>
      TakeRoute(AddRetry(s.(clock := now), k, id, s.launched[task]), k, route, now)
    case LoseLaunched(task) => s.(launched := s.launched - {task}, aborted := s.aborted + {task})
    case Answered(k, now, found) =>
      var s1 := s.(clock := now);
      if found then SetPhase(s1, k, Sending(s.calls[k].taskId))
      else Finish(s1, k, Failure(s.calls[k].taskId, "NO_PEER"), now)
    case Sent(k) =>
      var w := s.calls[k].phase.wire;
      s.(calls := s.calls[k := s.calls[k].(phase := Awaiting(w))], futures := s.futures[w := Waiting])
    case SendFailed(k, now) => Finish(s.(clock := now), k, SendError(s.calls[k]), now)
    case Arrive(r) =>
      s.(replies := s.replies + {r}, futures := Deliver(s.futures, r))
    case Cancel(k) => s.(futures := s.futures[s.calls[k].phase.wire := Cancelled])
    case Wake(k, now) =>
      Finish(Unwait(s.(clock := now), k), k, s.futures[s.calls[k].phase.wire].result, now)
    case Timeout(k, now) =>
      Finish(Unwait(s.(clock := now), k), k, Failure(s.calls[k].phase.wire, "TIMEOUT"), now)
    case Raise(k) => Fail(if s.calls[k].phase.Awaiting? then Unwait(s, k) else s, k)
    case FlushQueue(now, reachable) =>
      s.(clock := now, queue := AfterFlush(s.queue, now, reachable),
         launched := s.launched + TaskMap(Launched(s.queue, now, reachable)),
         expired := s.expired + Ids(Expired(s.queue, now)))
  }

  datatype Run = Start | Do(before: Run, step: Step)

  /** The run leads to s. */
  ghost predicate Reaches(r: Run, s: State)
    decreases r, 0
  {
    match r
    case Start => s == INITIAL
    case Do(before, a) => exists s0 :: StepsTo(before, s0, a, s)
  }

  /** The run `before` leads to s0, and step a from there to s. */
  ghost predicate StepsTo(before: Run, s0: State, a: Step, s: State)
    decreases before, 1
  {
    Reaches(before, s0) && Enabled(s0, a) && s == Apply(s0, a)
  }

  // ---------------------------------------------------------------- invariants: replies

  type Calls = map<nat, Call>
  type Owners = map<string, nat>

  /** Every id a call uses was generated by it. */
  ghost predicate OwnsIds(c: Call, k: nat, owner: Owners) {
    && c.taskId in owner && owner[c.taskId] == k
    && (c.phase.Sending? || c.phase.Awaiting? ==> c.phase.wire in owner && owner[c.phase.wire] == k)
  }

  ghost predicate IdsOwned(calls: Calls, owner: Owners) {
    forall k :: k in calls ==> OwnsIds(calls[k], k, owner)
  }

  ghost predicate Waits(w: string, calls: Calls, owner: Owners) {
    w in owner && owner[w] in calls && calls[owner[w]].phase == Awaiting(w)
  }

  /** The pending results are exactly the ids that calls are waiting on. */
  ghost predicate FuturesAreWaits(futures: map<string, Future>, calls: Calls, owner: Owners) {
    && (forall w :: w in futures ==> Waits(w, calls, owner))
    && (forall k :: k in calls && calls[k].phase.Awaiting? ==> calls[k].phase.wire in futures)
  }

  /** The result carries this id and comes from a RESULT with this id. */
  ghost predicate Backed(r: Result, id: string, replies: set<Reply>) {
    r.id == id && Reply(id, r.Success?, if r.Success? then r.payload else r.code) in replies
  }

  ghost predicate ResolvedAreBacked(futures: map<string, Future>, replies: set<Reply>) {
    forall w :: w in futures && futures[w].Resolved? ==> Backed(futures[w].result, w, replies)
  }

  /** A success comes from a RESULT for an id that this very call generated. */
  ghost predicate OwnSuccess(r: Result, k: nat, owner: Owners, replies: set<Reply>) {
    r.Success? ==> Backed(r, r.id, replies) && r.id in owner && owner[r.id] == k
  }

  ghost predicate SuccessIsBacked(calls: Calls, owner: Owners, replies: set<Reply>) {
    forall k :: k in calls && calls[k].phase.Done? ==> OwnSuccess(calls[k].phase.result, k, owner, replies)
  }

  // ---------------------------------------------------------------- invariants: tasks

  type Record = map<string, PendingTask>

  ghost predicate IsRecorded(t: PendingTask, id: string, record: Record) {
    t.taskId == id && id in record && Same(t, record[id])
  }

  ghost predicate LaunchedOk(launched: Record, record: Record) {
    forall id :: id in launched ==> IsRecorded(launched[id], id, record)
  }

  predicate SendsTask(c: Call, t: PendingTask) {
    c.target == t.target && c.capability == t.capability && c.payload == t.payload && c.ttl == t.ttl
  }

  /** Call k is at work on the stored task id, and sends what was stored. */
  ghost predicate Retries(k: nat, id: string, calls: Calls, record: Record) {
    k in calls && calls[k].Active() && calls[k].retry.Some? && IsRecorded(calls[k].retry.value, id, record)
    && SendsTask(calls[k], calls[k].retry.value)
  }

  ghost predicate RetryingOk(retrying: map<string, nat>, calls: Calls, record: Record) {
    && (forall id :: id in retrying ==> Retries(retrying[id], id, calls, record))
    && (forall k :: k in calls && calls[k].Active() && calls[k].retry.Some? ==>
          calls[k].retry.value.taskId in retrying && retrying[calls[k].retry.value.taskId] == k)
  }

  ghost predicate HasDelivered(k: nat, id: string, calls: Calls) {
    k in calls && calls[k].retry.Some? && calls[k].retry.value.taskId == id
    && calls[k].phase.Done? && calls[k].phase.result.Success?
  }

  ghost predicate DeliveredOk(delivered: map<string, nat>, calls: Calls) {
    forall id :: id in delivered ==> HasDelivered(delivered[id], id, calls)
  }

  function Bit(b: bool): nat {
    if b then 1 else 0
  }

  /** In how many of the six places a task can be in the id is. */
  ghost function Places(s: State, id: string): nat {
    Bit(id in Ids(s.queue)) + Bit(id in s.launched) + Bit(id in s.retrying) + Bit(id in s.delivered)
    + Bit(id in s.expired) + Bit(id in s.aborted)
  }

  /** Every task ever stored is in exactly one place, and nothing else is in any. */
  ghost predicate Conserved(s: State) {
    forall id :: Places(s, id) == Bit(id in s.record)
  }

  /** The stored task is the one its caller asked to send. */
  predicate StoredFor(t: PendingTask, c: Call) {
    t.taskId == c.taskId && SendsTask(c, t)
  }

  ghost predicate QueuedBy(k: nat, id: string, calls: Calls, record: Record) {
    k in calls && id in record && calls[k].taskId == id && calls[k].retry.None? && StoredFor(record[id], calls[k])
    && calls[k].phase == Done(Failure(id, "QUEUED"))
  }

  /** A task is stored exactly when a call without bypass has ended without success. */
  ghost predicate RecordOk(record: Record, owner: Owners, calls: Calls) {
    && (forall id :: id in record ==> id in owner && QueuedBy(owner[id], id, calls, record))
    && (forall k :: k in calls && calls[k].retry.None? && calls[k].phase.Done? ==>
          calls[k].phase.result.Success? || calls[k].taskId in record)
  }

  ghost predicate RepliesOk(calls: Calls, futures: map<string, Future>, owner: Owners, replies: set<Reply>) {
    && IdsOwned(calls, owner)
    && FuturesAreWaits(futures, calls, owner)
    && ResolvedAreBacked(futures, replies)
    && SuccessIsBacked(calls, owner, replies)
  }

  ghost predicate QueueOk(queue: Tasks, record: Record) {
    DistinctIds(queue) && Recorded(queue, record)
  }

  ghost predicate TasksOk(s: State) {
    && QueueOk(s.queue, s.record)
    && LaunchedOk(s.launched, s.record)
    && RetryingOk(s.retrying, s.calls, s.record)
    && DeliveredOk(s.delivered, s.calls)
    && RecordOk(s.record, s.owner, s.calls)
  }

  ghost predicate Inv(s: State) {
    RepliesOk(s.calls, s.futures, s.owner, s.replies) && TasksOk(s) && Conserved(s)
  }

  // ---------------------------------------------------------------- one call changes

  /** An update of call k that leaves alone what was said about finished calls. */
  lemma UpdateDelivered(delivered: map<string, nat>, calls: Calls, k: nat, c: Call)
    requires DeliveredOk(delivered, calls) && (k in calls ==> calls[k].Active())
    ensures DeliveredOk(delivered, calls[k := c])
  {
    forall id | id in delivered
      ensures HasDelivered(delivered[id], id, calls[k := c])
    {
      assert HasDelivered(delivered[id], id, calls);
    }
  }

  lemma UpdateRecord(record: Record, owner: Owners, calls: Calls, k: nat, c: Call)
    requires RecordOk(record, owner, calls) && (k in calls ==> calls[k].Active())
    requires c.retry.None? && c.phase.Done? ==> c.phase.result.Success?
    ensures RecordOk(record, owner, calls[k := c])
  {
    forall id | id in record
      ensures QueuedBy(owner[id], id, calls[k := c], record)
    {
      assert QueuedBy(owner[id], id, calls, record);
    }
  }

  /** As UpdateRecord, for a new call that generates its own id. */
  lemma UpdateRecordNew(record: Record, owner: Owners, calls: Calls, k: nat, c: Call)
    requires RecordOk(record, owner, calls) && k !in calls && c.taskId !in owner && c.Active()
    ensures RecordOk(record, owner[c.taskId := k], calls[k := c])
  {
    var owner' := owner[c.taskId := k];
    forall id | id in record
      ensures id in owner' && QueuedBy(owner'[id], id, calls[k := c], record)
    {
      assert QueuedBy(owner[id], id, calls, record);
    }
  }

  /** No waiting call changes. */
  lemma UpdateFutures(futures: map<string, Future>, calls: Calls, owner: Owners, k: nat, c: Call)
    requires FuturesAreWaits(futures, calls, owner)
    requires (k in calls ==> !calls[k].phase.Awaiting?) && !c.phase.Awaiting?
    ensures FuturesAreWaits(futures, calls[k := c], owner)
  {
    forall w | w in futures
      ensures Waits(w, calls[k := c], owner)
    {
      assert Waits(w, calls, owner);
    }
  }

  lemma UpdateRetryingActive(retrying: map<string, nat>, calls: Calls, record: Record, k: nat, c: Call)
    requires RetryingOk(retrying, calls, record) && k in calls && calls[k].Active() && c.Active()
    requires c == calls[k].(phase := c.phase)
    ensures RetryingOk(retrying, calls[k := c], record)
  {
    forall id | id in retrying
      ensures Retries(retrying[id], id, calls[k := c], record)
    {
      assert Retries(retrying[id], id, calls, record);
    }
  }

  lemma UpdateRetryingUser(retrying: map<string, nat>, calls: Calls, record: Record, k: nat, c: Call)
    requires RetryingOk(retrying, calls, record) && (k in calls ==> calls[k].retry.None?) && c.retry.None?
    ensures RetryingOk(retrying, calls[k := c], record)
  {
    forall id | id in retrying
      ensures Retries(retrying[id], id, calls[k := c], record)
    {
      assert Retries(retrying[id], id, calls, record);
    }
  }

  lemma RetryingEnds(retrying: map<string, nat>, calls: Calls, record: Record, k: nat, c: Call)
    requires RetryingOk(retrying, calls, record) && k in calls && calls[k].Active() && calls[k].retry.Some?
    requires !c.Active()
    ensures calls[k].retry.value.taskId in retrying
    ensures RetryingOk(retrying - {calls[k].retry.value.taskId}, calls[k := c], record)
  {
    var t := calls[k].retry.value.taskId;
    forall id | id in retrying && id != t
      ensures Retries(retrying[id], id, calls[k := c], record)
    {
      assert Retries(retrying[id], id, calls, record);
    }
    forall j | j in calls && j != k && calls[j].Active() && calls[j].retry.Some?
      ensures calls[j].retry.value.taskId != t
    {
      assert retrying[calls[j].retry.value.taskId] == j;
    }
  }

  lemma RetryingStarts(retrying: map<string, nat>, calls: Calls, record: Record, k: nat, c: Call)
    requires RetryingOk(retrying, calls, record) && k !in calls && c.Active() && c.retry.Some?
    requires IsRecorded(c.retry.value, c.retry.value.taskId, record) && c.retry.value.taskId !in retrying
    requires SendsTask(c, c.retry.value)
    ensures RetryingOk(retrying[c.retry.value.taskId := k], calls[k := c], record)
  {
    var retrying' := retrying[c.retry.value.taskId := k];
    forall id | id in retrying'
      ensures Retries(retrying'[id], id, calls[k := c], record)
    {
      assert id in retrying ==> Retries(retrying[id], id, calls, record);
    }
  }

  lemma RecordGrows(s: State, id: string, t: PendingTask)
    requires LaunchedOk(s.launched, s.record) && RetryingOk(s.retrying, s.calls, s.record) && id !in s.record
    ensures LaunchedOk(s.launched, s.record[id := t]) && RetryingOk(s.retrying, s.calls, s.record[id := t])
  {
    forall j | j in s.launched
      ensures IsRecorded(s.launched[j], j, s.record[id := t])
    {
      assert IsRecorded(s.launched[j], j, s.record);
    }
    forall j | j in s.retrying
      ensures Retries(s.retrying[j], j, s.calls, s.record[id := t])
    {
      assert Retries(s.retrying[j], j, s.calls, s.record);
    }
  }

  /** A call that neither was nor is waiting changes. */
  lemma UpdateReplies(calls: Calls, futures: map<string, Future>, owner: Owners, replies: set<Reply>, k: nat, c: Call)
    requires RepliesOk(calls, futures, owner, replies) && OwnsIds(c, k, owner)
    requires (k in calls ==> !calls[k].phase.Awaiting?) && !c.phase.Awaiting?
    requires c.phase.Done? ==> OwnSuccess(c.phase.result, k, owner, replies)
    ensures RepliesOk(calls[k := c], futures, owner, replies)
  {
    UpdateFutures(futures, calls, owner, k, c);
  }

  /** A running call changes and still runs. */
  lemma UpdateTasks(s: State, k: nat, c: Call)
    requires TasksOk(s) && k in s.calls && s.calls[k].Active() && c.Active()
    requires c == s.calls[k].(phase := c.phase)
    ensures TasksOk(s.(calls := s.calls[k := c]))
  {
    UpdateRetryingActive(s.retrying, s.calls, s.record, k, c);
    UpdateDelivered(s.delivered, s.calls, k, c);
    UpdateRecord(s.record, s.owner, s.calls, k, c);
  }

  lemma SamePlaces(s: State, s': State)
    requires Conserved(s) && s'.queue == s.queue && s'.launched == s.launched && s'.retrying == s.retrying
    requires s'.delivered == s.delivered && s'.expired == s.expired && s'.aborted == s.aborted && s'.record == s.record
    ensures Conserved(s')
  {
    forall id ensures Places(s', id) == Bit(id in s'.record) { assert Places(s, id) == Bit(id in s.record); }
  }

  // ---------------------------------------------------------------- every building block keeps the invariant

  lemma OwnerReplies(s: State, w: string, k: nat)
    requires RepliesOk(s.calls, s.futures, s.owner, s.replies) && w !in s.owner
    ensures RepliesOk(s.calls, s.futures, s.owner[w := k], s.replies)
  {
    var owner := s.owner[w := k];
    forall v | v in s.futures
      ensures Waits(v, s.calls, owner)
    {
      assert Waits(v, s.calls, s.owner);
    }
    forall j | j in s.calls
      ensures OwnsIds(s.calls[j], j, owner)
    {
      assert OwnsIds(s.calls[j], j, s.owner);
    }
  }

  lemma OwnerGrows(s: State, w: string, k: nat)
    requires Inv(s) && w !in s.owner
    ensures Inv(s.(owner := s.owner[w := k]))
  {
    var s' := s.(owner := s.owner[w := k]);
    OwnerReplies(s, w, k);
    SamePlaces(s, s');
    forall id | id in s.record
      ensures id in s'.owner && QueuedBy(s'.owner[id], id, s.calls, s.record)
    {
      assert QueuedBy(s.owner[id], id, s.calls, s.record);
    }
  }

  lemma SendingKeepsInv(s: State, k: nat, w: string)
    requires Inv(s) && k in s.calls && s.calls[k].Active() && !s.calls[k].phase.Awaiting?
    requires w in s.owner && s.owner[w] == k
    ensures Inv(SetPhase(s, k, Sending(w)))
  {
    var c := s.calls[k].(phase := Sending(w));
    assert OwnsIds(s.calls[k], k, s.owner);
    UpdateReplies(s.calls, s.futures, s.owner, s.replies, k, c);
    UpdateTasks(s, k, c);
    SamePlaces(s, SetPhase(s, k, Sending(w)));
  }

  lemma AwaitReplies(calls: Calls, futures: map<string, Future>, owner: Owners, replies: set<Reply>, k: nat, c: Call)
    requires RepliesOk(calls, futures, owner, replies) && k in calls && calls[k].phase.Sending?
    requires c == calls[k].(phase := Awaiting(calls[k].phase.wire))
    ensures RepliesOk(calls[k := c], futures[c.phase.wire := Waiting], owner, replies)
  {
    var w := c.phase.wire;
    assert OwnsIds(calls[k], k, owner);
    forall v | v == w || v in futures
      ensures Waits(v, calls[k := c], owner)
    {
      assert v != w ==> Waits(v, calls, owner);
    }
  }

  lemma AwaitKeepsInv(s: State, k: nat)
    requires Inv(s) && Enabled(s, Sent(k))
    ensures Inv(Apply(s, Sent(k)))
  {
    var c := s.calls[k].(phase := Awaiting(s.calls[k].phase.wire));
    AwaitReplies(s.calls, s.futures, s.owner, s.replies, k, c);
    UpdateTasks(s, k, c);
    SamePlaces(s, Apply(s, Sent(k)));
  }

  lemma UnwaitReplies(calls: Calls, futures: map<string, Future>, owner: Owners, replies: set<Reply>, k: nat, c: Call)
    requires RepliesOk(calls, futures, owner, replies) && k in calls && calls[k].phase.Awaiting?
    requires c == calls[k].(phase := Sending(calls[k].phase.wire))
    ensures RepliesOk(calls[k := c], futures - {c.phase.wire}, owner, replies)
  {
    var w := c.phase.wire;
    assert OwnsIds(calls[k], k, owner);
    forall v | v in futures - {w}
      ensures Waits(v, calls[k := c], owner)
    {
      assert Waits(v, calls, owner);
    }
    forall j | j in calls && j != k && calls[j].phase.Awaiting?
      ensures calls[j].phase.wire in futures - {w}
    {
      assert OwnsIds(calls[j], j, owner);
    }
  }

  lemma UnwaitKeepsInv(s: State, k: nat)
    requires Inv(s) && k in s.calls && s.calls[k].phase.Awaiting?
    ensures Inv(Unwait(s, k))
  {
    var c := s.calls[k].(phase := Sending(s.calls[k].phase.wire));
    UnwaitReplies(s.calls, s.futures, s.owner, s.replies, k, c);
    UpdateTasks(s, k, c);
    SamePlaces(s, Unwait(s, k));
  }

  lemma ArriveReplies(s: State, r: Reply)
    requires RepliesOk(s.calls, s.futures, s.owner, s.replies)
    ensures var s' := Apply(s, Arrive(r)); RepliesOk(s'.calls, s'.futures, s'.owner, s'.replies)
  {
    var s' := Apply(s, Arrive(r));
    assert s'.futures.Keys == s.futures.Keys;
    forall w | w in s'.futures && s'.futures[w].Resolved?
      ensures Backed(s'.futures[w].result, w, s'.replies)
    {
      assert s.futures[w].Resolved? ==> Backed(s.futures[w].result, w, s.replies);
    }
    forall k | k in s.calls && s.calls[k].phase.Done?
      ensures OwnSuccess(s.calls[k].phase.result, k, s.owner, s'.replies)
    {
      assert OwnSuccess(s.calls[k].phase.result, k, s.owner, s.replies);
    }
  }

  lemma ArriveKeepsInv(s: State, r: Reply)
    requires Inv(s)
    ensures Inv(Apply(s, Arrive(r)))
  {
    ArriveReplies(s, r);
    SamePlaces(s, Apply(s, Arrive(r)));
  }

  lemma CancelKeepsInv(s: State, k: nat)
    requires Inv(s) && Enabled(s, Cancel(k))
    ensures Inv(Apply(s, Cancel(k)))
  {
    var futures := s.futures[s.calls[k].phase.wire := Cancelled];
    assert futures.Keys == s.futures.Keys;
    assert FuturesAreWaits(futures, s.calls, s.owner);
    SamePlaces(s, Apply(s, Cancel(k)));
  }

  lemma AddUserKeepsInv(s: State, k: nat, c: Call)
    requires Inv(s) && k !in s.calls && c.taskId !in s.owner && c.retry.None? && c.phase.Querying?
    ensures Inv(AddCall(s, k, c))
  {
    OwnerGrows(s, c.taskId, k);
    var s1 := s.(owner := s.owner[c.taskId := k]);
    UpdateReplies(s.calls, s.futures, s1.owner, s.replies, k, c);
    UpdateRetryingUser(s.retrying, s.calls, s.record, k, c);
    UpdateDelivered(s.delivered, s.calls, k, c);
    UpdateRecord(s.record, s1.owner, s.calls, k, c);
    SamePlaces(s, AddCall(s, k, c));
  }

  lemma ShrinkLaunched(launched: Record, record: Record, task: string)
    requires LaunchedOk(launched, record)
    ensures LaunchedOk(launched - {task}, record)
  {
    forall j | j in launched - {task}
      ensures IsRecorded((launched - {task})[j], j, record)
    {
      assert IsRecorded(launched[j], j, record);
    }
  }

  /** A launched task is in no other place. */
  lemma LaunchedIsNowhereElse(s: State, task: string)
    requires Conserved(s) && task in s.launched
    ensures task !in s.retrying && task !in s.aborted
  {
    assert Places(s, task) == Bit(task in s.record);
  }

  lemma AddRetryTasks(s: State, k: nat, id: string, task: string)
    requires TasksOk(s) && k !in s.calls && task in s.launched && task !in s.retrying && id !in s.owner
    ensures TasksOk(AddRetry(s, k, id, s.launched[task]))
  {
    var t := s.launched[task];
    assert IsRecorded(t, task, s.record);
    var c := Call(id, t.target, t.capability, t.payload, t.ttl, Some(t), Querying);
    ShrinkLaunched(s.launched, s.record, task);
    RetryingStarts(s.retrying, s.calls, s.record, k, c);
    UpdateDelivered(s.delivered, s.calls, k, c);
    UpdateRecordNew(s.record, s.owner, s.calls, k, c);
  }

  lemma AddRetryPlaces(s: State, k: nat, id: string, t: PendingTask)
    requires Conserved(s) && t.taskId in s.launched
    ensures Conserved(AddRetry(s, k, id, t))
  {
    var s' := AddRetry(s, k, id, t);
    LaunchedIsNowhereElse(s, t.taskId);
    forall j ensures Places(s', j) == Bit(j in s'.record) { assert Places(s, j) == Bit(j in s.record); }
  }

  lemma AddRetryKeepsInv(s: State, k: nat, id: string, task: string)
    requires Inv(s) && k !in s.calls && id !in s.owner && task in s.launched
    ensures Inv(AddRetry(s, k, id, s.launched[task]))
  {
    var t := s.launched[task];
    assert IsRecorded(t, task, s.record);
    LaunchedIsNowhereElse(s, task);
    AddRetryTasks(s, k, id, task);
    AddRetryPlaces(s, k, id, t);
    OwnerReplies(s, id, k);
    UpdateReplies(s.calls, s.futures, s.owner[id := k], s.replies, k,
                  Call(id, t.target, t.capability, t.payload, t.ttl, Some(t), Querying));
  }

  lemma FinishUserSuccess(s: State, k: nat, r: Result, now: int)
    requires Inv(s) && k in s.calls && s.calls[k].Active() && !s.calls[k].phase.Awaiting? && s.calls[k].retry.None?
    requires r.Success? && OwnSuccess(r, k, s.owner, s.replies)
    ensures Inv(Finish(s, k, r, now))
  {
    var c := s.calls[k].(phase := Done(r));
    assert OwnsIds(s.calls[k], k, s.owner);
    UpdateReplies(s.calls, s.futures, s.owner, s.replies, k, c);
    UpdateRetryingUser(s.retrying, s.calls, s.record, k, c);
    UpdateDelivered(s.delivered, s.calls, k, c);
    UpdateRecord(s.record, s.owner, s.calls, k, c);
    SamePlaces(s, Finish(s, k, r, now));
  }

  /** A call that is still running has stored nothing. */
  lemma NotStoredYet(s: State, k: nat)
    requires IdsOwned(s.calls, s.owner) && RecordOk(s.record, s.owner, s.calls) && k in s.calls && s.calls[k].Active()
    ensures s.calls[k].taskId !in s.record
  {
    var id := s.calls[k].taskId;
    assert OwnsIds(s.calls[k], k, s.owner);
    assert id in s.record ==> QueuedBy(s.owner[id], id, s.calls, s.record);
  }

  lemma StorePlaces(s: State, s': State, t: PendingTask)
    requires Conserved(s) && t.taskId !in s.record && DistinctIds(s.queue)
    requires s'.queue == s.queue.Append(Cons(t, Nil)) && s'.record == s.record[t.taskId := t]
    requires s'.launched == s.launched && s'.retrying == s.retrying && s'.delivered == s.delivered
    requires s'.expired == s.expired && s'.aborted == s.aborted
    ensures Conserved(s') && t.taskId !in Ids(s.queue)
  {
    assert Places(s, t.taskId) == 0;
    AppendIds(s.queue, t);
    forall j ensures Places(s', j) == Bit(j in s'.record) { assert Places(s, j) == Bit(j in s.record); }
  }

  lemma StoreTasks(s: State, k: nat, c: Call, t: PendingTask)
    requires TasksOk(s) && k in s.calls && s.calls[k].Active() && s.calls[k].retry.None?
    requires t.taskId !in s.record && t.taskId !in Ids(s.queue) && t.taskId in s.owner && s.owner[t.taskId] == k
    requires c.retry.None? && c.phase == Done(Failure(t.taskId, "QUEUED")) && StoredFor(t, c)
    ensures TasksOk(s.(calls := s.calls[k := c], queue := s.queue.Append(Cons(t, Nil)),
                       record := s.record[t.taskId := t]))
  {
    RecordGrows(s, t.taskId, t);
    UpdateRetryingUser(s.retrying, s.calls, s.record[t.taskId := t], k, c);
    UpdateDelivered(s.delivered, s.calls, k, c);
    AppendIds(s.queue, t);
    RecordedExtends(s.queue, s.record, t.taskId, t);
    AppendRecorded(s.queue, t, s.record[t.taskId := t]);
    RecordStores(s.record, s.owner, s.calls, k, c, t);
  }

  lemma FinishUserQueued(s: State, k: nat, r: Result, now: int)
    requires Inv(s) && k in s.calls && s.calls[k].Active() && !s.calls[k].phase.Awaiting? && s.calls[k].retry.None?
    requires r.Failure?
    ensures Inv(Finish(s, k, r, now))
  {
    var b := s.calls[k];
    var t := PendingTask(b.taskId, b.target, b.capability, b.payload, now, 0, b.ttl);
    var c := b.(phase := Done(Failure(b.taskId, "QUEUED")));
    assert OwnsIds(b, k, s.owner);
    NotStoredYet(s, k);
    StorePlaces(s, Finish(s, k, r, now), t);
    StoreTasks(s, k, c, t);
    UpdateReplies(s.calls, s.futures, s.owner, s.replies, k, c);
  }

  lemma RecordStores(record: Record, owner: Owners, calls: Calls, k: nat, c: Call, task: PendingTask)
    requires RecordOk(record, owner, calls) && k in calls && calls[k].Active()
    requires c.taskId !in record && c.taskId in owner && owner[c.taskId] == k
    requires c.retry.None? && c.phase == Done(Failure(c.taskId, "QUEUED")) && StoredFor(task, c)
    ensures RecordOk(record[c.taskId := task], owner, calls[k := c])
  {
    var record' := record[c.taskId := task];
    forall id | id in record'
      ensures id in owner && QueuedBy(owner[id], id, calls[k := c], record')
    {
      if id != c.taskId { assert QueuedBy(owner[id], id, calls, record); }
    }
  }

  /** A task that is being retried is recorded and in no other place. */
  lemma RetriedIsNowhereElse(s: State, k: nat)
    requires TasksOk(s) && Conserved(s) && k in s.calls && s.calls[k].Active() && s.calls[k].retry.Some?
    ensures var t := s.calls[k].retry.value;
            && t.taskId in s.retrying && IsRecorded(t, t.taskId, s.record)
            && t.taskId !in Ids(s.queue) && t.taskId !in s.delivered && t.taskId !in s.expired && t.taskId !in s.aborted
  {
    var id := s.calls[k].retry.value.taskId;
    assert Retries(s.retrying[id], id, s.calls, s.record);
    assert Places(s, id) == Bit(id in s.record);
  }

  /** A retried task moves to exactly one of the queue, the delivered, the expired and the aborted tasks. */
  lemma LeaveRetrying(s: State, s': State, id: string, q: bool, d: bool, e: bool, a: bool)
    requires Conserved(s) && id in s.retrying && s'.retrying == s.retrying - {id}
    requires s'.record == s.record && s'.launched == s.launched
    requires Bit(q) + Bit(d) + Bit(e) + Bit(a) == 1
    requires Ids(s'.queue) == if q then Ids(s.queue) + {id} else Ids(s.queue)
    requires s'.delivered.Keys == if d then s.delivered.Keys + {id} else s.delivered.Keys
    requires s'.expired == if e then s.expired + {id} else s.expired
    requires s'.aborted == if a then s.aborted + {id} else s.aborted
    ensures Conserved(s')
  {
    assert Places(s, id) == Bit(id in s.record);
    forall j ensures Places(s', j) == Bit(j in s'.record) {
      assert Places(s, j) == Bit(j in s.record);
      assert j in s.delivered <==> j in s.delivered.Keys;
      assert j in s'.delivered <==> j in s'.delivered.Keys;
    }
  }

  lemma FinishRetryPlaces(s: State, k: nat, r: Result, now: int)
    requires Conserved(s) && DistinctIds(s.queue) && k in s.calls && s.calls[k].retry.Some?
    requires var id := s.calls[k].retry.value.taskId; id in s.retrying && id !in Ids(s.queue)
    ensures Conserved(Finish(s, k, r, now))
  {
    var t := s.calls[k].retry.value;
    AppendIds(s.queue, t.(retries := t.retries + 1));
    var old' := r.Failure? && TooOld(t, now);
    LeaveRetrying(s, Finish(s, k, r, now), t.taskId, r.Failure? && !old', r.Success?, old', false);
  }

  /** A retry ends; its task leaves the retries. */
  lemma RetryEndsTasks(s: State, k: nat, c: Call)
    requires TasksOk(s) && k in s.calls && s.calls[k].Active() && s.calls[k].retry.Some? && !c.Active() && c.retry.Some?
    ensures TasksOk(s.(calls := s.calls[k := c], retrying := s.retrying - {s.calls[k].retry.value.taskId}))
  {
    RetryingEnds(s.retrying, s.calls, s.record, k, c);
    UpdateDelivered(s.delivered, s.calls, k, c);
    UpdateRecord(s.record, s.owner, s.calls, k, c);
  }

  lemma RequeueOk(queue: Tasks, record: Record, t: PendingTask)
    requires QueueOk(queue, record) && IsRecorded(t, t.taskId, record) && t.taskId !in Ids(queue)
    ensures QueueOk(Requeue(queue, t), record)
  {
    AppendIds(queue, t.(retries := t.retries + 1));
    AppendRecorded(queue, t.(retries := t.retries + 1), record);
  }

  lemma DeliveredGrows(delivered: map<string, nat>, calls: Calls, k: nat, id: string)
    requires DeliveredOk(delivered, calls) && HasDelivered(k, id, calls)
    ensures DeliveredOk(delivered[id := k], calls)
  {
    var delivered' := delivered[id := k];
    forall j | j in delivered'
      ensures HasDelivered(delivered'[j], j, calls)
    {
      assert j != id ==> HasDelivered(delivered[j], j, calls);
    }
  }

  lemma FinishRetryDelivered(s: State, k: nat, r: Result, now: int)
    requires TasksOk(s) && k in s.calls && s.calls[k].Active() && s.calls[k].retry.Some? && r.Success?
    ensures TasksOk(Finish(s, k, r, now))
  {
    var c := s.calls[k].(phase := Done(r));
    RetryEndsTasks(s, k, c);
    DeliveredGrows(s.delivered, s.calls[k := c], k, s.calls[k].retry.value.taskId);
  }

  lemma FinishRetryFailed(s: State, k: nat, r: Result, now: int)
    requires TasksOk(s) && k in s.calls && s.calls[k].Active() && s.calls[k].retry.Some? && r.Failure?
    requires var t := s.calls[k].retry.value; IsRecorded(t, t.taskId, s.record) && t.taskId !in Ids(s.queue)
    ensures TasksOk(Finish(s, k, r, now))
  {
    RetryEndsTasks(s, k, s.calls[k].(phase := Done(r)));
    if !TooOld(s.calls[k].retry.value, now) { RequeueOk(s.queue, s.record, s.calls[k].retry.value); }
  }

  lemma FinishRetryReplies(s: State, k: nat, r: Result, now: int)
    requires RepliesOk(s.calls, s.futures, s.owner, s.replies) && k in s.calls && s.calls[k].retry.Some?
    requires s.calls[k].Active() && !s.calls[k].phase.Awaiting? && OwnSuccess(r, k, s.owner, s.replies)
    ensures var s' := Finish(s, k, r, now); RepliesOk(s'.calls, s'.futures, s'.owner, s'.replies)
  {
    assert OwnsIds(s.calls[k], k, s.owner);
    UpdateReplies(s.calls, s.futures, s.owner, s.replies, k, s.calls[k].(phase := Done(r)));
  }

  lemma FinishRetryKeepsInv(s: State, k: nat, r: Result, now: int)
    requires Inv(s) && k in s.calls && s.calls[k].Active() && !s.calls[k].phase.Awaiting? && s.calls[k].retry.Some?
    requires OwnSuccess(r, k, s.owner, s.replies)
    ensures Inv(Finish(s, k, r, now))
  {
    RetriedIsNowhereElse(s, k);
    FinishRetryReplies(s, k, r, now);
    if r.Success? { FinishRetryDelivered(s, k, r, now); } else { FinishRetryFailed(s, k, r, now); }
    FinishRetryPlaces(s, k, r, now);
  }

  lemma FinishKeepsInv(s: State, k: nat, r: Result, now: int)
    requires Inv(s) && k in s.calls && s.calls[k].Active() && !s.calls[k].phase.Awaiting?
    requires OwnSuccess(r, k, s.owner, s.replies)
    ensures Inv(Finish(s, k, r, now))
  {
    if s.calls[k].retry.Some? {
      FinishRetryKeepsInv(s, k, r, now);
    } else if r.Success? {
      FinishUserSuccess(s, k, r, now);
    } else {
      FinishUserQueued(s, k, r, now);
    }
  }

  lemma FailPlaces(s: State, k: nat)
    requires Conserved(s) && k in s.calls
    requires s.calls[k].retry.Some? ==> s.calls[k].retry.value.taskId in s.retrying
    ensures Conserved(Fail(s, k))
  {
    if s.calls[k].retry.Some? {
      LeaveRetrying(s, Fail(s, k), s.calls[k].retry.value.taskId, false, false, false, true);
    } else {
      SamePlaces(s, Fail(s, k));
    }
  }

  lemma FailTasks(s: State, k: nat)
    requires TasksOk(s) && k in s.calls && s.calls[k].Active()
    ensures TasksOk(Fail(s, k))
  {
    var c := s.calls[k].(phase := Raised);
    if s.calls[k].retry.Some? {
      RetryEndsTasks(s, k, c);
    } else {
      UpdateRetryingUser(s.retrying, s.calls, s.record, k, c);
      UpdateDelivered(s.delivered, s.calls, k, c);
      UpdateRecord(s.record, s.owner, s.calls, k, c);
    }
  }

  lemma FailKeepsInv(s: State, k: nat)
    requires Inv(s) && k in s.calls && s.calls[k].Active() && !s.calls[k].phase.Awaiting?
    ensures Inv(Fail(s, k))
  {
    assert OwnsIds(s.calls[k], k, s.owner);
    UpdateReplies(s.calls, s.futures, s.owner, s.replies, k, s.calls[k].(phase := Raised));
    FailTasks(s, k);
    if s.calls[k].retry.Some? { RetriedIsNowhereElse(s, k); }
    FailPlaces(s, k);
  }

  lemma LosePlaces(s: State, task: string)
    requires Conserved(s) && task in s.launched
    ensures Conserved(Apply(s, LoseLaunched(task)))
  {
    var s' := Apply(s, LoseLaunched(task));
    LaunchedIsNowhereElse(s, task);
    forall j ensures Places(s', j) == Bit(j in s'.record) { assert Places(s, j) == Bit(j in s.record); }
  }

  lemma LoseKeepsInv(s: State, task: string)
    requires Inv(s) && task in s.launched
    ensures Inv(Apply(s, LoseLaunched(task)))
  {
    LosePlaces(s, task);
    ShrinkLaunched(s.launched, s.record, task);
  }

  lemma {:induction false} TaskMapOf(l: Tasks, record: Record)
    requires Recorded(l, record)
    ensures TaskMap(l).Keys == Ids(l)
    ensures LaunchedOk(TaskMap(l), record)
  {
    if l.Cons? {
      TaskMapOf(l.tail, record);
      forall id | id in TaskMap(l)
        ensures IsRecorded(TaskMap(l)[id], id, record)
      {
        if id != l.head.taskId { assert IsRecorded(TaskMap(l.tail)[id], id, record); }
      }
    }
  }

  lemma FlushPlaces(s: State, now: int, reachable: set<string>)
    requires QueueOk(s.queue, s.record) && Conserved(s) && now >= s.clock
    ensures Conserved(Apply(s, FlushQueue(now, reachable)))
  {
    var s' := Apply(s, FlushQueue(now, reachable));
    var started := Launched(s.queue, now, reachable);
    FlushSorts(s.queue, now, reachable);
    AfterFlushIds(s.queue, now, reachable);
    FlushRecords(s.queue, now, reachable, s.record);
    TaskMapOf(started, s.record);
    forall j
      ensures Places(s', j) == Bit(j in s'.record)
    {
      assert Places(s, j) == Bit(j in s.record);
      assert j in Ids(s.queue) <==> j in Ids(Kept(s.queue, now, reachable)) || j in Ids(started) || j in Ids(Expired(s.queue, now));
    }
  }

  lemma FlushTasks(s: State, now: int, reachable: set<string>)
    requires TasksOk(s) && now >= s.clock
    ensures TasksOk(Apply(s, FlushQueue(now, reachable)))
  {
    var started := Launched(s.queue, now, reachable);
    AfterFlushIds(s.queue, now, reachable);
    FlushRecords(s.queue, now, reachable, s.record);
    TaskMapOf(started, s.record);
    var launched := s.launched + TaskMap(started);
    forall j | j in launched
      ensures IsRecorded(launched[j], j, s.record)
    {
      assert j in s.launched ==> IsRecorded(s.launched[j], j, s.record);
      assert j in TaskMap(started) ==> IsRecorded(TaskMap(started)[j], j, s.record);
    }
  }

  lemma FlushKeepsInv(s: State, now: int, reachable: set<string>)
    requires Inv(s) && now >= s.clock
    ensures Inv(Apply(s, FlushQueue(now, reachable)))
  {
    FlushTasks(s, now, reachable);
    FlushPlaces(s, now, reachable);
  }

  lemma ClockKeepsInv(s: State, now: int)
    requires Inv(s)
    ensures Inv(s.(clock := now))
  {
    SamePlaces(s, s.(clock := now));
  }

  lemma RouteKeepsInv(s: State, k: nat, route: Route, now: int)
    requires Inv(s) && k in s.calls && s.calls[k].phase.Querying?
    requires route.ToRelay? ==> route.wire !in s.owner
    ensures Inv(TakeRoute(s, k, route, now))
  {
    assert OwnsIds(s.calls[k], k, s.owner);
    match route
    case ToPeer => SendingKeepsInv(s, k, s.calls[k].taskId);
    case ToRelay(w) =>
      OwnerGrows(s, w, k);
      SendingKeepsInv(s.(owner := s.owner[w := k]), k, w);
    case NoRelay(w) => FinishKeepsInv(s, k, Failure(w, "NO_TRACKER"), now);
    case Ask =>
  }

  lemma WakeKeepsInv(s: State, k: nat, now: int)
    requires Inv(s) && Enabled(s, Wake(k, now))
    ensures Inv(Apply(s, Wake(k, now)))
  {
    var w := s.calls[k].phase.wire;
    assert OwnsIds(s.calls[k], k, s.owner);
    ClockKeepsInv(s, now);
    UnwaitKeepsInv(s.(clock := now), k);
    assert Backed(s.futures[w].result, w, s.replies);
    FinishKeepsInv(Unwait(s.(clock := now), k), k, s.futures[w].result, now);
  }

  lemma TimeoutKeepsInv(s: State, k: nat, now: int)
    requires Inv(s) && Enabled(s, Timeout(k, now))
    ensures Inv(Apply(s, Timeout(k, now)))
  {
    ClockKeepsInv(s, now);
    UnwaitKeepsInv(s.(clock := now), k);
    FinishKeepsInv(Unwait(s.(clock := now), k), k, Failure(s.calls[k].phase.wire, "TIMEOUT"), now);
  }

  lemma BeginKeepsInv(s: State, a: Step)
    requires Inv(s) && Enabled(s, a) && (a.Begin? || a.StartRetry?)
    ensures Inv(Apply(s, a))
  {
    ClockKeepsInv(s, a.now);
    var s1 := s.(clock := a.now);
    if a.Begin? {
      var c := Call(a.id, a.target, a.capability, a.payload, a.ttl, None, Querying);
      AddUserKeepsInv(s1, a.k, c);
      RouteKeepsInv(AddCall(s1, a.k, c), a.k, a.route, a.now);
    } else {
      AddRetryKeepsInv(s1, a.k, a.id, a.task);
      RouteKeepsInv(AddRetry(s1, a.k, a.id, s.launched[a.task]), a.k, a.route, a.now);
    }
  }

  lemma AnsweredKeepsInv(s: State, k: nat, now: int, found: bool)
    requires Inv(s) && Enabled(s, Answered(k, now, found))
    ensures Inv(Apply(s, Answered(k, now, found)))
  {
    ClockKeepsInv(s, now);
    assert OwnsIds(s.calls[k], k, s.owner);
    if found {
      SendingKeepsInv(s.(clock := now), k, s.calls[k].taskId);
    } else {
      FinishKeepsInv(s.(clock := now), k, Failure(s.calls[k].taskId, "NO_PEER"), now);
    }
  }

  lemma RaiseKeepsInv(s: State, k: nat)
    requires Inv(s) && Enabled(s, Raise(k))
    ensures Inv(Apply(s, Raise(k)))
  {
    if s.calls[k].phase.Awaiting? {
      UnwaitKeepsInv(s, k);
      FailKeepsInv(Unwait(s, k), k);
    } else {
      FailKeepsInv(s, k);
    }
  }

  lemma SendFailedKeepsInv(s: State, k: nat, now: int)
    requires Inv(s) && Enabled(s, SendFailed(k, now))
    ensures Inv(Apply(s, SendFailed(k, now)))
  {
    ClockKeepsInv(s, now);
    FinishKeepsInv(s.(clock := now), k, SendError(s.calls[k]), now);
  }

  lemma SendStepKeepsInv(s: State, a: Step)
    requires Inv(s) && Enabled(s, a)
    requires a.Begin? || a.StartRetry? || a.Answered? || a.Sent? || a.SendFailed?
    ensures Inv(Apply(s, a))
  {
    if a.Begin? || a.StartRetry? {
      BeginKeepsInv(s, a);
    } else if a.Answered? {
      AnsweredKeepsInv(s, a.k, a.now, a.found);
    } else if a.Sent? {
      AwaitKeepsInv(s, a.k);
    } else {
      SendFailedKeepsInv(s, a.k, a.now);
    }
  }

  lemma WaitStepKeepsInv(s: State, a: Step)
    requires Inv(s) && Enabled(s, a)
    requires a.Arrive? || a.Cancel? || a.Wake? || a.Timeout? || a.Raise?
    ensures Inv(Apply(s, a))
  {
    if a.Arrive? {
      ArriveKeepsInv(s, a.reply);
    } else if a.Cancel? {
      CancelKeepsInv(s, a.k);
    } else if a.Wake? {
      WakeKeepsInv(s, a.k, a.now);
    } else if a.Timeout? {
      TimeoutKeepsInv(s, a.k, a.now);
    } else {
      RaiseKeepsInv(s, a.k);
    }
  }

  lemma StepKeepsInv(s: State, a: Step)
    requires Inv(s) && Enabled(s, a)
    ensures Inv(Apply(s, a))
  {
    if a.LoseLaunched? {
      LoseKeepsInv(s, a.task);
    } else if a.FlushQueue? {
      FlushKeepsInv(s, a.now, a.reachable);
    } else if a.Arrive? || a.Cancel? || a.Wake? || a.Timeout? || a.Raise? {
      WaitStepKeepsInv(s, a);
    } else {
      SendStepKeepsInv(s, a);
    }
  }

  lemma {:induction false} EveryRunKeepsInv(r: Run, s: State)
    requires Reaches(r, s)
    ensures Inv(s)
  {
    if r.Do? {
      var s0 :| StepsTo(r.before, s0, r.step, s);
      EveryRunKeepsInv(r.before, s0);
      StepKeepsInv(s0, r.step);
    }
  }

  lemma {:induction false} RunLeadsToOneState(r: Run, s1: State, s2: State)
    requires Reaches(r, s1) && Reaches(r, s2)
    ensures s1 == s2
  {
    if r.Do? {
      var t1 :| StepsTo(r.before, t1, r.step, s1);
      var t2 :| StepsTo(r.before, t2, r.step, s2);
      RunLeadsToOneState(r.before, t1, t2);
    }
  }
}
