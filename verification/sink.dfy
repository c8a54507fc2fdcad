/**
  The store session of src/session.py, reduced to what the monitor relies on:
  `add` queues a record, `commit` writes the queue out in FIFO order.
 */
module Sink {
  import opened Inverters

  /** One call the monitor makes on a session, for stating call order. */
  datatype SinkCall = Added(record: Record) | Committed

  /** The calls made by adding `records` one by one, in order. */
  function AddCalls(records: seq<Record>): (calls: seq<SinkCall>)
    ensures |calls| == |records|
    ensures forall i :: 0 <= i < |records| ==> calls[i] == Added(records[i])
  {
    if records == [] then [] else [Added(records[0])] + AddCalls(records[1..])
  }

  /** Adding one more record adds one more call at the end. */
  lemma AddCallsSnoc(records: seq<Record>, r: Record)
    ensures AddCalls(records + [r]) == AddCalls(records) + [Added(r)]
  {
    assert AddCalls(records + [r])[|records|] == Added(r);
  }

  class Session {
    const config: map<string, string>
    /** Records added and not yet written. */
    var queue: seq<Record>
    /** Records written to the store, in write order. */
    var written: seq<Record>
    /** Every add and commit made on this session, in order. */
    ghost var calls: seq<SinkCall>

    constructor (config: map<string, string>)
      ensures this.config == config
      ensures queue == [] && written == [] && calls == []
    {
      this.config := config;
      queue := [];
      written := [];
      calls := [];
    }

    method Add(point: Record)
      modifies this
      ensures queue == old(queue) + [point] && written == old(written)
      ensures calls == old(calls) + [Added(point)]
    {
      queue := queue + [point];
      calls := calls + [Added(point)];
    }

    /** Writes every queued record, oldest first, and empties the queue. */
    method Commit()
      modifies this
      ensures written == old(written) + old(queue) && queue == []
      ensures calls == old(calls) + [Committed]
    {
      while queue != []
        invariant written + queue == old(written) + old(queue)
        invariant calls == old(calls)
        decreases |queue|
      {
        var point := queue[0];
        queue := queue[1..];
        written := written + [point];
      }
      calls := calls + [Committed];
    }
  }
}
