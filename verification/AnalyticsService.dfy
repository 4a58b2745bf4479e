/** The ClickHouse writer and the accumulating service, as single goroutines run them. */
module AnalyticsService {
  import opened Models
  import opened Flush

  /** A `*UsageEvent`. */
  class EventRef {
    var event: UsageEvent

    constructor (event: UsageEvent)
      ensures this.event == event
    {
      this.event := event;
    }
  }

  function Values(refs: seq<EventRef>): (events: seq<UsageEvent>)
    reads refs
    ensures |events| == |refs|
  {
    seq(|refs|, i requires 0 <= i < |refs| reads refs => refs[i].event)
  }

  function DefaultEach(events: seq<UsageEvent>): seq<UsageEvent> {
    seq(|events|, i requires 0 <= i < |events| => Default(events[i]))
  }

  class Writer {
    var insertedRows: nat

    constructor ()
      ensures insertedRows == 0
    {
      insertedRows := 0;
    }

    method DefaultEvent(e: EventRef)
      modifies e
      ensures e.event == Default(old(e.event))
      ensures old(e.event).totalTokens != 0.0 ==> e.event.totalTokens == old(e.event).totalTokens
      ensures old(e.event).sourceMode != "" ==> e.event.sourceMode == old(e.event).sourceMode
      ensures old(e.event).totalTokens != 0.0 && old(e.event).sourceMode != "" ==> e.event == old(e.event)
    {
      if e.event.totalTokens == 0.0 {
        var total := Wrap32(e.event.inputTokens as int + e.event.outputTokens as int);
        e.event := e.event.(totalTokens := total as real);
      }
      if e.event.sourceMode == "" {
        e.event := e.event.(sourceMode := SOURCE_MODE_DIRECT_INGEST);
      }
    }

    /** Defaulting goes through the pointers, whether or not the insert then succeeds. */
    method InsertEventBatch(events: seq<EventRef>, ok: bool) returns (failed: bool, rows: seq<UsageEvent>)
      modifies this, events
      ensures failed <==> |events| > 0 && !ok
      ensures Values(events) == DefaultEach(old(Values(events)))
      ensures rows == if failed then [] else Values(events)
      ensures forall i :: 0 <= i < |rows| && old(events[i].event.totalTokens) != 0.0 ==>
        rows[i].totalTokens == old(events[i].event.totalTokens)
      ensures insertedRows == old(insertedRows) + |rows|
    {
      if |events| == 0 {
        return false, [];
      }
      for i := 0 to |events|
        invariant forall k :: 0 <= k < |events| && events[k] in events[..i] ==>
            events[k].event == Default(old(events[k].event))
        invariant forall k :: 0 <= k < |events| && events[k] !in events[..i] ==> events[k].event == old(events[k].event)
        invariant insertedRows == old(insertedRows)
      {
        var e := events[i];
        DefaultIsIdempotent(old(e.event));
        DefaultEvent(e);
        assert events[..i + 1] == events[..i] + [e];
      }
      assert events[..|events|] == events;
      if !ok {
        return true, [];
      }
      insertedRows := insertedRows + |events|;
      return false, Values(events);
    }
  }

  class Service {
    const batchSize: nat
    const writer: Writer
    var currentBatch: seq<EventRef>
    var flushCh: bool  // the channel of capacity one holds a wake-up

    constructor (batchSize: nat, writer: Writer)
      ensures this.batchSize == batchSize && this.writer == writer
      ensures currentBatch == [] && !flushCh
    {
      this.batchSize, this.writer := batchSize, writer;
      this.currentBatch, this.flushCh := [], false;
    }

    /** The protocol state of a service that no other goroutine is working on. */
    ghost function View(): State<EventRef>
      reads this
    {
      State(currentBatch, flushCh, 0, [], false, 0, currentBatch, [], [])
    }

    method AddEvents(events: seq<EventRef>)
      modifies this
      ensures var s := Run(batchSize, old(View()), [Add(events), Send]);
        currentBatch == s.buffer && flushCh == s.token
    {
      TwoSteps(batchSize, View(), Add(events), Send);
      if |events| == 0 {
        return;
      }
      currentBatch := currentBatch + events;
      var shouldFlush := |currentBatch| >= batchSize;
      if shouldFlush {
        flushCh := true;
      }
    }

    /** Swap, insert, and put the batch back in front if the insert fails. */
    method Flush(ok: bool) returns (rows: seq<UsageEvent>)
      modifies this, writer, currentBatch
      ensures var s := Run(batchSize, old(View()), [Call, Swap(0), Insert(0, ok), Requeue(0)]);
        && currentBatch == s.buffer && flushCh == s.token
        && writer.insertedRows == old(writer.insertedRows) + s.insertedRows
      ensures rows == if ok then DefaultEach(old(Values(currentBatch))) else []
      ensures !ok ==> Values(currentBatch) == DefaultEach(old(Values(currentBatch)))
    {
      FourSteps(batchSize, View(), Call, Swap(0), Insert(0, ok), Requeue(0));
      if |currentBatch| == 0 {
        return [];
      }
      var batch := currentBatch;
      currentBatch := [];
      var failed;
      failed, rows := writer.InsertEventBatch(batch, ok);
      if failed {
        currentBatch := batch + currentBatch;
      }
    }

    method PendingCount() returns (n: nat)
      ensures n == |View().buffer|
    {
      n := |currentBatch|;
    }
  }

  lemma TwoSteps<T>(batchSize: nat, s: State<T>, a: Step<T>, b: Step<T>)
    ensures Run(batchSize, s, [a, b]) == Next(batchSize, Next(batchSize, s, a), b)
  {
    UnrollAt(batchSize, s, [a, b], 0);
    UnrollAt(batchSize, s, [a, b], 1);
    assert [a, b][..2] == [a, b];
  }

  lemma FourSteps<T>(batchSize: nat, s: State<T>, a: Step<T>, b: Step<T>, c: Step<T>, d: Step<T>)
    ensures Run(batchSize, s, [a, b, c, d])
         == Next(batchSize, Next(batchSize, Next(batchSize, Next(batchSize, s, a), b), c), d)
  {
    var steps := [a, b, c, d];
    UnrollAt(batchSize, s, steps, 0);
    UnrollAt(batchSize, s, steps, 1);
    UnrollAt(batchSize, s, steps, 2);
    UnrollAt(batchSize, s, steps, 3);
    assert steps[..4] == steps;
  }
}
