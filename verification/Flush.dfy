/** One flush of the pending queue, and putting a failed retry back. */
module Flush {
  import opened Lists
  import opened PendingQueue

  /** Ten minutes, in microseconds. */
  const MAX_AGE := 600_000_000

  type Tasks = List<PendingTask>

  predicate TooOld(t: PendingTask, now: int) {
    now - t.createdAt > MAX_AGE
  }

  /** The tasks that stay: not too old, and nobody to send them to. */
  function Kept(l: Tasks, now: int, reachable: set<string>): Tasks {
    if l.Nil? then Nil
    else if TooOld(l.head, now) || l.head.taskId in reachable then Kept(l.tail, now, reachable)
    else Cons(l.head.(retries := l.head.retries + 1), Kept(l.tail, now, reachable))
  }

  /** The tasks taken for a retry. */
  function Launched(l: Tasks, now: int, reachable: set<string>): Tasks {
    if l.Nil? then Nil
    else if TooOld(l.head, now) || l.head.taskId !in reachable then Launched(l.tail, now, reachable)
    else Cons(l.head, Launched(l.tail, now, reachable))
  }

  /** The tasks that expire. */
  function Expired(l: Tasks, now: int): Tasks {
    if l.Nil? then Nil
    else if TooOld(l.head, now) then Cons(l.head, Expired(l.tail, now))
    else Expired(l.tail, now)
  }

  /** The file is rewritten only when some task left; otherwise the new retry counts are not stored. */
  function AfterFlush(l: Tasks, now: int, reachable: set<string>): Tasks {
    if Launched(l, now, reachable).Cons? || Kept(l, now, reachable).Length() != l.Length()
    then Kept(l, now, reachable) else l
  }

  function Ids(l: Tasks): set<string> {
    if l.Nil? then {} else {l.head.taskId} + Ids(l.tail)
  }

  /** No id twice. */
  predicate DistinctIds(l: Tasks) {
    l.Cons? ==> l.head.taskId !in Ids(l.tail) && DistinctIds(l.tail)
  }

  /** What a failed retry does to the queue: the task goes to the end unless it is there already. */
  function Requeue(l: Tasks, t: PendingTask): Tasks {
    if t.taskId in Ids(l) then l else l.Append(Cons(t.(retries := t.retries + 1), Nil))
  }

  // ---------------------------------------------------------------- what a flush keeps

  /** The same task but for its retry count. */
  predicate Same(a: PendingTask, b: PendingTask) {
    a.(retries := 0) == b.(retries := 0)
  }

  /** Every task of l is, but for its retry count, the one recorded under its id. */
  ghost predicate Recorded(l: Tasks, record: map<string, PendingTask>) {
    l.Cons? ==> l.head.taskId in record && Same(l.head, record[l.head.taskId]) && Recorded(l.tail, record)
  }

  ghost predicate AllFresh(l: Tasks, now: int) {
    l.Cons? ==> !TooOld(l.head, now) && AllFresh(l.tail, now)
  }

  /** A flush sorts every stored task into exactly one of the three outcomes. */
  lemma {:induction false} FlushSorts(l: Tasks, now: int, reachable: set<string>)
    requires DistinctIds(l)
    ensures var k, s, e := Kept(l, now, reachable), Launched(l, now, reachable), Expired(l, now);
            && Ids(k) + Ids(s) + Ids(e) == Ids(l)
            && Ids(k) !! Ids(s) && Ids(k) !! Ids(e) && Ids(s) !! Ids(e)
            && DistinctIds(k) && DistinctIds(s)
            && Ids(s) == (Ids(l) - Ids(e)) * reachable
  {
    if l.Cons? { FlushSorts(l.tail, now, reachable); }
  }

  lemma {:induction false} KeptLength(l: Tasks, now: int, reachable: set<string>)
    ensures Kept(l, now, reachable).Length() + Launched(l, now, reachable).Length() + Expired(l, now).Length() == l.Length()
    ensures Kept(l, now, reachable).Length() == l.Length() ==> Ids(Kept(l, now, reachable)) == Ids(l)
  {
    if l.Cons? { KeptLength(l.tail, now, reachable); }
  }

  /** The new retry counts are stored exactly when the flush starts or expires a task, or there is none. */
  lemma RetryCountsAreStoredIff(l: Tasks, now: int, reachable: set<string>)
    ensures AfterFlush(l, now, reachable) == Kept(l, now, reachable) <==>
            l.Nil? || Launched(l, now, reachable).Cons? || Expired(l, now).Cons?
  {
    KeptLength(l, now, reachable);
  }

  /** A young task that nobody can be found for: the flush counts a retry and does not store it. */
  lemma LoneTaskKeepsItsCount(now: int)
    ensures var l := Cons(PendingTask("id", "node", "cap", "{}", now, 0, 60), Nil);
            AfterFlush(l, now, {}) == l && Kept(l, now, {}).head.retries == 1
  {
    var t := PendingTask("id", "node", "cap", "{}", now, 0, 60);
    assert Kept(Cons(t, Nil), now, {}) == Cons(t.(retries := 1), Nil);
    assert Kept(Cons(t, Nil), now, {}).Length() == 1 == Cons(t, Nil).Length();
    assert Launched(Cons(t, Nil), now, {}) == Nil;
  }

  /** The ids left in the queue are those of the tasks kept, whether or not the file was rewritten. */
  lemma AfterFlushIds(l: Tasks, now: int, reachable: set<string>)
    requires DistinctIds(l)
    ensures Ids(AfterFlush(l, now, reachable)) == Ids(Kept(l, now, reachable))
    ensures DistinctIds(AfterFlush(l, now, reachable))
  {
    KeptLength(l, now, reachable);
    FlushSorts(l, now, reachable);
  }

  lemma {:induction false} FlushRecords(l: Tasks, now: int, reachable: set<string>, record: map<string, PendingTask>)
    requires Recorded(l, record)
    ensures Recorded(Kept(l, now, reachable), record) && Recorded(Launched(l, now, reachable), record)
    ensures Recorded(AfterFlush(l, now, reachable), record)
  {
    if l.Cons? { FlushRecords(l.tail, now, reachable, record); }
  }

  lemma {:induction false} LaunchedAndKeptAreFresh(l: Tasks, now: int, reachable: set<string>)
    ensures AllFresh(Launched(l, now, reachable), now) && AllFresh(Kept(l, now, reachable), now)
  {
    if l.Cons? { LaunchedAndKeptAreFresh(l.tail, now, reachable); }
  }

  lemma {:induction false} NothingExpired(l: Tasks, now: int)
    requires Expired(l, now).Nil?
    ensures AllFresh(l, now)
  {
    if l.Cons? { NothingExpired(l.tail, now); }
  }

  /** A flush takes no task older than ten minutes for a retry, and leaves none in the queue. */
  lemma FlushEnforcesAge(l: Tasks, now: int, reachable: set<string>)
    ensures AllFresh(Launched(l, now, reachable), now) && AllFresh(AfterFlush(l, now, reachable), now)
  {
    LaunchedAndKeptAreFresh(l, now, reachable);
    KeptLength(l, now, reachable);
    if Kept(l, now, reachable).Length() == l.Length() {
      assert Expired(l, now).Length() == 0;
      NothingExpired(l, now);
    }
  }

  lemma {:induction false} AppendIds(l: Tasks, t: PendingTask)
    requires DistinctIds(l) && t.taskId !in Ids(l)
    ensures Ids(l.Append(Cons(t, Nil))) == Ids(l) + {t.taskId} && DistinctIds(l.Append(Cons(t, Nil)))
  {
    if l.Cons? { AppendIds(l.tail, t); }
  }

  lemma {:induction false} AppendRecorded(l: Tasks, t: PendingTask, record: map<string, PendingTask>)
    requires Recorded(l, record) && t.taskId in record && Same(t, record[t.taskId])
    ensures Recorded(l.Append(Cons(t, Nil)), record)
  {
    if l.Cons? { AppendRecorded(l.tail, t, record); }
  }

  lemma {:induction false} RecordedExtends(l: Tasks, record: map<string, PendingTask>, id: string, t: PendingTask)
    requires Recorded(l, record) && id !in record
    ensures Recorded(l, record[id := t])
  {
    if l.Cons? { RecordedExtends(l.tail, record, id, t); }
  }

  /** What becomes of each task: expired are those more than 600 s old, taken those of the others that are reachable,
      and kept, with one more retry, those that are not. */
  lemma {:induction false} FlushOutcome(l: Tasks, now: int, reachable: set<string>, t: PendingTask)
    ensures Expired(l, now).Has(t) <==> l.Has(t) && now - t.createdAt > 600_000_000
    ensures Launched(l, now, reachable).Has(t) <==>
            l.Has(t) && now - t.createdAt <= 600_000_000 && t.taskId in reachable
    ensures Kept(l, now, reachable).Has(t) <==>
            l.Has(t.(retries := t.retries - 1)) && now - t.createdAt <= 600_000_000 && t.taskId !in reachable
  {
    if l.Cons? {
      FlushOutcome(l.tail, now, reachable, t);
      assert l.head.(retries := l.head.retries + 1) == t <==> l.head == t.(retries := t.retries - 1);
    }
  }

  /** a is l with some elements left out. */
  ghost predicate PickedFrom(a: Tasks, l: Tasks) {
    a.Nil? || (l.Cons? && ((a.head == l.head && PickedFrom(a.tail, l.tail)) || PickedFrom(a, l.tail)))
  }

  /** The tasks with one retry less. */
  function Uncounted(l: Tasks): Tasks {
    if l.Nil? then Nil else Cons(l.head.(retries := l.head.retries - 1), Uncounted(l.tail))
  }

  /** Tasks taken and tasks kept stay in the order of the queue. */
  lemma {:induction false} FlushKeepsOrder(l: Tasks, now: int, reachable: set<string>)
    ensures PickedFrom(Launched(l, now, reachable), l) && PickedFrom(Uncounted(Kept(l, now, reachable)), l)
  {
    if l.Cons? { FlushKeepsOrder(l.tail, now, reachable); }
  }

  /** A failed retry goes to the end of the queue with one more retry; the rest of the queue stays as it is. */
  lemma RequeueAppends(l: Tasks, t: PendingTask)
    ensures t.taskId !in Ids(l) ==> Requeue(l, t) == l.Append(Cons(t.(retries := t.retries + 1), Nil))
    ensures t.taskId in Ids(l) ==> Requeue(l, t) == l
  {
  }

  // ---------------------------------------------------------------- the code

  class Outbox {
    const store: Queue

    constructor (store: Queue)
      ensures this.store == store
    {
      this.store := store;
    }

    /** Returns the tasks for which retries are started. */
    method FlushPending(now: int, reachable: set<string>) returns (started: Tasks)
      requires store.Valid()
      modifies store
      ensures store.Valid()
      ensures store.Contents() == AfterFlush(old(store.Contents()), now, reachable)
      ensures started == Launched(old(store.Contents()), now, reachable)
    {
      var tasks := store.LoadAll();
      started := Nil;
      if tasks.Nil? {
        return;
      }
      var remaining: Tasks;
      started, remaining := SortOut(tasks, now, reachable);
      if started.Cons? || remaining.Length() != tasks.Length() {
        store.SaveAll(remaining);
      }
    }

    static method SortOut(tasks: Tasks, now: int, reachable: set<string>) returns (started: Tasks, remaining: Tasks)
      ensures started == Launched(tasks, now, reachable) && remaining == Kept(tasks, now, reachable)
    {
      started, remaining := Nil, Nil;
      var todo := tasks;
      while todo.Cons?
        invariant remaining.Append(Kept(todo, now, reachable)) == Kept(tasks, now, reachable)
        invariant started.Append(Launched(todo, now, reachable)) == Launched(tasks, now, reachable)
        decreases todo
      {
        var task := todo.head;
        if !TooOld(task, now) {
          if task.taskId in reachable {
            AppendAssoc(started, Cons(task, Nil), Launched(todo.tail, now, reachable));
            started := started.Append(Cons(task, Nil));
          } else {
            var counted := task.(retries := task.retries + 1);
            AppendAssoc(remaining, Cons(counted, Nil), Kept(todo.tail, now, reachable));
            remaining := remaining.Append(Cons(counted, Nil));
          }
        }
        todo := todo.tail;
      }
      AppendNil(remaining);
      AppendNil(started);
    }

    /** The end of a retry whose send failed. */
    method RetryFailed(task: PendingTask, now: int)
      requires store.Valid()
      modifies store
      ensures store.Valid()
      ensures store.Contents() == if TooOld(task, now) then old(store.Contents()) else Requeue(old(store.Contents()), task)
    {
      if !TooOld(task, now) {
        var tasks := store.LoadAll();
        if task.taskId !in Ids(tasks) {
          store.SaveAll(tasks.Append(Cons(task.(retries := task.retries + 1), Nil)));
        }
      }
    }
  }
}
