/** The part of send_task that changes the node's own state: pending results and the queue. */
module Sender {
  import opened PendingQueue
  import opened TaskDelivery

  /** The first RESULT with this id, if any. */
  function FirstFor(rs: seq<Reply>, id: string): Option<Reply> {
    if rs == [] then None else if rs[0].id == id then Some(rs[0]) else FirstFor(rs[1..], id)
  }

  /** The pending results after these messages. */
  function DeliverAll(futures: map<string, Future>, rs: seq<Reply>): map<string, Future> {
    if rs == [] then futures else DeliverAll(Deliver(futures, rs[0]), rs[1..])
  }

  lemma {:induction false} DeliverOneMore(futures: map<string, Future>, rs: seq<Reply>, r: Reply)
    ensures DeliverAll(futures, rs + [r]) == Deliver(DeliverAll(futures, rs), r)
  {
    if rs != [] {
      assert (rs + [r])[1..] == rs[1..] + [r];
      DeliverOneMore(Deliver(futures, rs[0]), rs[1..], r);
    } else {
      assert DeliverAll(Deliver(futures, r), []) == Deliver(futures, r);
      assert ([] + [r])[1..] == [];
    }
  }

  /** Messages for other ids do not depend on the entry of this one. */
  lemma {:induction false} DeliverSkips(f: map<string, Future>, g: map<string, Future>, rs: seq<Reply>, id: string)
    requires f - {id} == g - {id}
    ensures DeliverAll(f, rs) - {id} == DeliverAll(g, rs) - {id}
  {
    if rs != [] {
      assert forall j :: j != id ==> (j in f <==> j in f - {id}) && (j in g <==> j in g - {id});
      assert forall j :: j != id && j in f ==> f[j] == (f - {id})[j] == g[j];
      assert Deliver(f, rs[0]) - {id} == Deliver(g, rs[0]) - {id};
      DeliverSkips(Deliver(f, rs[0]), Deliver(g, rs[0]), rs[1..], id);
    }
  }

  /** An open future takes the first message with its id and no other. */
  lemma {:induction false} DeliverTakesFirst(futures: map<string, Future>, rs: seq<Reply>, id: string)
    requires id in futures && (futures[id].Waiting? || FirstFor(rs, id).None?)
    ensures var f := DeliverAll(futures, rs);
            id in f && f[id] == (match FirstFor(rs, id) case None => futures[id] case Some(r) => Resolved(ResultOf(r)))
  {
    if rs != [] {
      if rs[0].id == id {
        DeliverKeepsDone(Deliver(futures, rs[0]), rs[1..], id);
      } else {
        DeliverTakesFirst(Deliver(futures, rs[0]), rs[1..], id);
      }
    }
  }

  lemma {:induction false} DeliverKeepsDone(futures: map<string, Future>, rs: seq<Reply>, id: string)
    requires id in futures && !futures[id].Waiting?
    ensures var f := DeliverAll(futures, rs); id in f && f[id] == futures[id]
  {
    if rs != [] { DeliverKeepsDone(Deliver(futures, rs[0]), rs[1..], id); }
  }

  class Node {
    var pendingResults: map<string, Future>
    const store: Queue

    constructor (store: Queue)
      ensures this.store == store && pendingResults == map[]
    {
      this.store := store;
      pendingResults := map[];
    }

    /** A RESULT message whose signature is in order. */
    method OnResult(r: Reply)
      modifies `pendingResults
      ensures pendingResults == Deliver(old(pendingResults), r)
    {
      if r.id in pendingResults && pendingResults[r.id].Waiting? {
        if r.success {
          pendingResults := pendingResults[r.id := Resolved(Success(r.id, r.text))];
        } else {
          pendingResults := pendingResults[r.id := Resolved(Failure(r.id, r.text))];
        }
      }
    }

    method OnResults(rs: seq<Reply>)
      modifies `pendingResults
      ensures pendingResults == DeliverAll(old(pendingResults), rs)
    {
      for i := 0 to |rs|
        invariant pendingResults == DeliverAll(old(pendingResults), rs[..i])
      {
        assert rs[..i + 1] == rs[..i] + [rs[i]];
        DeliverOneMore(old(pendingResults), rs[..i], rs[i]);
        OnResult(rs[i]);
      }
      assert rs[..|rs|] == rs;
    }

    /** One wait. While the call is suspended the node handles the messages `inTime`; if the call is not `resumed`
        before the timer fires, the future is cancelled and the messages `late` are handled before the call runs
        again. It returns the first reply with its id that came in time, or else a timeout; its entry is gone
        either way, and the other entries are as if it had never waited. */
    method WaitForResult(id: string, inTime: seq<Reply>, late: seq<Reply>, resumed: bool) returns (r: Result)
      requires resumed ==> FirstFor(inTime, id).Some?
      modifies `pendingResults
      ensures resumed ==> r == ResultOf(FirstFor(inTime, id).value)
                          && pendingResults == DeliverAll(old(pendingResults), inTime) - {id}
      ensures !resumed ==> r == Failure(id, "TIMEOUT")
                           && pendingResults == DeliverAll(DeliverAll(old(pendingResults), inTime), late) - {id}
    {
      ghost var before := pendingResults;
      pendingResults := pendingResults[id := Waiting];
      DeliverTakesFirst(pendingResults, inTime, id);
      DeliverSkips(before, pendingResults, inTime, id);
      OnResults(inTime);
      if resumed {
        r := pendingResults[id].result;
      } else {
        ghost var resolved := pendingResults;
        if pendingResults[id].Waiting? {
          pendingResults := pendingResults[id := Cancelled];
        }
        DeliverSkips(DeliverAll(before, inTime), pendingResults, late, id);
        OnResults(late);
        r := Failure(id, "TIMEOUT");
      }
      pendingResults := pendingResults - {id};
    }

    /** The last lines of send_task: an error is turned into a stored task, unless the queue is bypassed. */
    method Conclude(c: Call, result: Result, now: int) returns (r: Result)
      requires store.Valid()
      modifies store
      ensures store.Valid()
      ensures c.retry.None? ==> r == Returned(c, result)
                                && store.Contents() == QueueAfterCall(old(store.Contents()), c, result, now)
      ensures c.retry.Some? ==> r == result && store.Contents() == old(store.Contents())
    {
      r := result;
      if result.Failure? && c.retry.None? {
        store.Enqueue(c.taskId, c.target, c.capability, c.payload, c.ttl, now);
        r := Failure(c.taskId, "QUEUED");
      }
    }
  }
}
