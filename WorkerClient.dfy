/**
 * The client side of the web worker that runs the proving library: each
 * call is stored in a table of pending requests under a fresh id and
 * posted to the worker; the worker's response with that id settles the
 * request and removes it from the table.
 *
 * The worker itself, message serialisation and the promise machinery are
 * left out: a pending entry records the function called, and settling it
 * appends the response to the list of delivered results.
 */
module WorkerClient {
  import opened Results

  /** A message posted to the worker. */
  datatype Request = Request(id: int, fn: string, args: string)

  /** A pending call: the worker function it is waiting on. */
  datatype Pending = Pending(fn: string)

  /** A response whose id has no pending entry: looking it up yields undefined and the handler throws. */
  datatype ResponseError = NotPending(id: int)

  /** A response delivered to the caller that was waiting on its id. */
  datatype Delivery = Delivery(id: int, data: string)

  /** The ids 0 .. n-1. */
  function IdsBelow(n: nat): (r: set<int>)
    ensures forall i :: i in r <==> 0 <= i < n
  {
    if n == 0 then {} else IdsBelow(n - 1) + {n - 1}
  }

  lemma {:induction false} IdsBelowSize(n: nat)
    ensures |IdsBelow(n)| == n
  {
    if n > 0 {
      IdsBelowSize(n - 1);
    }
  }

  /**
   * Every id handed out is either still pending or already answered, never
   * both: so the number of pending entries is the number of calls made
   * minus the number of responses handled.
   */
  lemma PendingCount(pending: set<int>, answered: set<int>, n: nat)
    requires pending + answered == IdsBelow(n)
    requires pending * answered == {}
    ensures |pending| == n - |answered|
  {
    IdsBelowSize(n);
    assert |pending + answered| == |pending| + |answered| - |pending * answered|;
  }

  class ZkappWorkerClient {
    var promises: map<int, Pending>
    var nextId: int
    /** The messages posted to the worker, in order. */
    var posted: seq<Request>
    /** The responses delivered to their callers, in order. */
    var delivered: seq<Delivery>
    /** The ids whose response has been handled. */
    ghost var answered: set<int>

    /**
     * Ids are handed out in order: the k-th message posted carries id k,
     * and every id below `nextId` is pending or answered, never both.
     */
    ghost predicate Valid()
      reads this
    {
      && nextId >= 0
      && |posted| == nextId
      && (forall k :: 0 <= k < |posted| ==> posted[k].id == k)
      && promises.Keys + answered == IdsBelow(nextId)
      && promises.Keys * answered == {}
    }

    constructor()
      ensures Valid()
      ensures promises == map[] && nextId == 0
      ensures posted == [] && delivered == [] && answered == {}
    {
      promises := map[];
      nextId := 0;
      posted := [];
      delivered := [];
      answered := {};
    }

    /** `_call(fn, args)`: store a pending entry under `nextId`, post the message with that id, advance the id. */
    method Call(fn: string, args: string) returns (id: int)
      requires Valid()
      modifies this
      ensures Valid()
      ensures id == old(nextId) && id !in old(promises)
      ensures promises == old(promises)[id := Pending(fn)]
      ensures posted == old(posted) + [Request(id, fn, args)]
      ensures nextId == old(nextId) + 1
      ensures delivered == old(delivered) && answered == old(answered)
    {
      id := nextId;
      promises := promises[id := Pending(fn)];
      posted := posted + [Request(id, fn, args)];
      nextId := nextId + 1;
    }

    /**
     * `onmessage`: settle the entry with the response's id and delete it.
     * An id that is not pending makes the lookup undefined: the handler
     * throws and nothing changes.
     */
    method OnMessage(id: int, data: string) returns (r: Outcome<ResponseError>)
      requires Valid()
      modifies this
      ensures Valid()
      ensures id !in old(promises) ==>
                r == Fail(NotPending(id)) && promises == old(promises) && delivered == old(delivered) && answered == old(answered)
      ensures id in old(promises) ==>
                && r.Pass? && promises == old(promises) - {id}
                && delivered == old(delivered) + [Delivery(id, data)]
                && answered == old(answered) + {id}
      ensures nextId == old(nextId) && posted == old(posted)
    {
      if id !in promises {
        return Fail(NotPending(id));
      }
      delivered := delivered + [Delivery(id, data)];
      promises := promises - {id};
      answered := answered + {id};
      r := Pass;
    }

    /** The pending table holds exactly the calls made minus the responses handled. */
    lemma PendingIsCallsMinusResponses()
      requires Valid()
      ensures |promises.Keys| == nextId - |answered|
      ensures forall id :: id in promises ==> 0 <= id < nextId
    {
      PendingCount(promises.Keys, answered, nextId);
    }
  }
}
