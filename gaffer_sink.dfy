/**
 * The socket ingestion sink: elements mapped from socket records are appended to a
 * lazily created FIFO queue; a `restart` flag decides whether an arrival starts a
 * worker, and the worker commits the queue to the store through a single-use
 * iterable that polls the queue until it is empty.
 *
 * The worker thread is modelled as explicit calls: StartWorker when the thread
 * begins, Iterator/HasNext/Next as the store drains the wrapped queue, and
 * FinishCommit with the store's abstract success or failure.
 */
module SocketSink {
  import opened Outcomes
  import opened Elements

  const SINGLE_ITERATOR_MESSAGE: string := "Only 1 iterator can be used at a time"
  const NO_MORE_ELEMENTS_MESSAGE: string := "No more elements"

  /** Where the (at most one) worker thread is. */
  datatype WorkerPhase =
    | Idle        // no worker is running a commit
    | Spawned     // a worker thread was started and has not yet handed its iterable to the store
    | Committing  // the store is consuming the worker's wrapped queue

  class GafferSink {
    /** False until the first `invoke` creates the queue (the Java field is null until then). */
    var hasQueue: bool
    var queue: seq<Element>
    var restart: bool
    var phase: WorkerPhase
    /** The guard of the current worker's wrapped iterable. */
    var singleIteratorInUse: bool

    /** Every element ever passed to Invoke, in arrival order. */
    ghost var received: seq<Element>
    /** Elements of batches the store accepted, in commit order. */
    ghost var committed: seq<Element>
    /** Elements of the batch whose commit failed (at most one batch ever fails). */
    ghost var rejected: seq<Element>
    /** Elements the current worker has polled and handed to the store. */
    ghost var inFlight: seq<Element>
    /** A commit has failed: its worker died with `restart` left false. */
    ghost var commitFailed: bool

    ghost predicate Valid()
      reads this
    {
      && (!hasQueue ==>
            queue == [] && !restart && phase == Idle && !commitFailed
            && received == [] && committed == [] && rejected == [] && inFlight == [])
      // single flight: a worker is running exactly when no arrival may start one
      && (hasQueue ==> (phase == Idle <==> restart || commitFailed))
      && (commitFailed ==> !restart)
      && (!commitFailed ==> rejected == [])
      && (phase != Committing ==> inFlight == [])
      && (phase == Committing && !singleIteratorInUse ==> inFlight == [])
      // no loss and no duplication, in FIFO order
      && received == committed + rejected + inFlight + queue
    }

    constructor ()
      ensures Valid() && !hasQueue && phase == Idle
      ensures received == [] && committed == []
    {
      hasQueue, queue, restart := false, [], false;
      phase, singleIteratorInUse := Idle, false;
      received, committed, rejected, inFlight, commitFailed := [], [], [], [], false;
    }

    /**
     * `invoke(elements)`: create the queue on first use with `restart` set, append
     * the elements in order, and start a worker iff `restart` was set, clearing it.
     */
    method Invoke(elements: seq<Element>) returns (started: bool)
      requires Valid()
      modifies this
      ensures Valid() && hasQueue
      ensures queue == old(queue) + elements
      ensures received == old(received) + elements
      ensures started <==> !old(hasQueue) || old(restart)
      ensures started ==> old(phase) == Idle && phase == Spawned
      ensures !started ==> phase == old(phase)
      ensures old(commitFailed) ==> !started
      ensures !restart
      ensures committed == old(committed) && rejected == old(rejected) && inFlight == old(inFlight)
      ensures commitFailed == old(commitFailed) && singleIteratorInUse == old(singleIteratorInUse)
    {
      if !hasQueue {
        hasQueue, queue, restart := true, [], true;
      }
      var i := 0;
      while i < |elements|
        invariant 0 <= i <= |elements|
        invariant queue == old(queue) + elements[..i]
        invariant received == old(received) + elements[..i]
        invariant hasQueue && restart == (!old(hasQueue) || old(restart))
        invariant phase == old(phase) && singleIteratorInUse == old(singleIteratorInUse)
        invariant committed == old(committed) && rejected == old(rejected)
        invariant inFlight == old(inFlight) && commitFailed == old(commitFailed)
      {
        queue := queue + [elements[i]];
        received := received + [elements[i]];
        i := i + 1;
      }
      assert elements[..i] == elements;
      started := restart;
      if restart {
        restart := false;
        phase := Spawned;
      }
    }

    /** The started thread builds its wrapped queue, whose iterator guard starts unset. */
    method StartWorker()
      requires Valid() && phase == Spawned
      modifies this
      ensures Valid() && phase == Committing && !singleIteratorInUse
      ensures queue == old(queue) && restart == old(restart) && hasQueue == old(hasQueue)
      ensures received == old(received) && committed == old(committed)
      ensures rejected == old(rejected) && inFlight == old(inFlight) && commitFailed == old(commitFailed)
    {
      phase := Committing;
      singleIteratorInUse := false;
    }

    /** `iterator()` on the wrapped queue: the first call succeeds, every later one fails. */
    method Iterator() returns (r: Result<(), JavaException>)
      requires Valid() && phase == Committing
      modifies this`singleIteratorInUse
      ensures Valid() && singleIteratorInUse
      ensures r == if old(singleIteratorInUse) then Failure(Runtime(SINGLE_ITERATOR_MESSAGE)) else Success(())
    {
      if singleIteratorInUse {
        return Failure(Runtime(SINGLE_ITERATOR_MESSAGE));
      }
      singleIteratorInUse := true;
      r := Success(());
    }

    /** `hasNext()`: whether the queue holds an element; changes nothing. */
    method HasNext() returns (b: bool)
      requires Valid() && phase == Committing && singleIteratorInUse
      ensures b <==> |queue| > 0
    {
      b := queue != [];
    }

    /** `next()`: poll the head of the queue, or fail on an empty queue leaving it as it was. */
    method Next() returns (r: Result<Element, JavaException>)
      requires Valid() && phase == Committing && singleIteratorInUse
      modifies this`queue, this`inFlight
      ensures Valid()
      ensures old(queue) == [] ==>
        r == Failure(NoSuchElement(NO_MORE_ELEMENTS_MESSAGE)) && queue == [] && inFlight == old(inFlight)
      ensures old(queue) != [] ==>
        && r == Success(old(queue)[0])
        && queue == old(queue)[1..]
        && inFlight == old(inFlight) + [old(queue)[0]]
    {
      if queue == [] {
        return Failure(NoSuchElement(NO_MORE_ELEMENTS_MESSAGE));
      }
      r := Success(queue[0]);
      inFlight := inFlight + [queue[0]];
      queue := queue[1..];
    }

    /**
     * The store's AddElements returns: on success `restart` is set again so the next
     * arrival starts a worker; on failure the worker dies and `restart` stays false.
     */
    method FinishCommit(success: bool)
      requires Valid() && phase == Committing
      modifies this
      ensures Valid() && phase == Idle && inFlight == []
      ensures restart == success && commitFailed == !success
      ensures success ==> committed == old(committed) + old(inFlight) && rejected == old(rejected)
      ensures !success ==> committed == old(committed) && rejected == old(inFlight)
      ensures queue == old(queue) && hasQueue == old(hasQueue) && received == old(received)
      ensures singleIteratorInUse == old(singleIteratorInUse)
    {
      if success {
        committed := committed + inFlight;
        restart := true;
      } else {
        rejected := rejected + inFlight;
        commitFailed := true;
      }
      inFlight := [];
      phase := Idle;
    }

    /**
     * One worker run: the store takes the single iterator and drains the queue with
     * hasNext/next, then reports success or failure. The batch is the queue's
     * contents in FIFO order, each element once, and the queue ends empty.
     */
    method RunWorker(storeAccepts: bool) returns (batch: seq<Element>)
      requires Valid() && phase == Spawned
      modifies this
      ensures Valid() && phase == Idle
      ensures batch == old(queue) && queue == []
      ensures restart == storeAccepts
      ensures storeAccepts ==> committed == old(committed) + batch
      ensures !storeAccepts ==> committed == old(committed) && rejected == batch
      ensures commitFailed == !storeAccepts
      ensures received == old(received) && hasQueue == old(hasQueue) && singleIteratorInUse
    {
      StartWorker();
      var it := Iterator();
      assert it.Success?;
      batch := [];
      var more := HasNext();
      while more
        invariant Valid() && phase == Committing && singleIteratorInUse
        invariant batch + queue == old(queue)
        invariant inFlight == batch
        invariant more <==> queue != []
        invariant committed == old(committed) && rejected == old(rejected)
        invariant received == old(received) && !commitFailed
        decreases |queue|
      {
        var r := Next();
        batch := batch + [r.value];
        more := HasNext();
      }
      FinishCommit(storeAccepts);
    }
  }

  /**
   * Two records arrive before the worker runs: only the first starts a worker,
   * which commits both in arrival order and sets `restart` again.
   */
  method TwoArrivalsOneWorker(a: Element, b: Element) returns (first: bool, second: bool, batch: seq<Element>, restarted: bool)
    ensures first && !second
    ensures batch == [a, b] && restarted
  {
    var sink := new GafferSink();
    first := sink.Invoke([a]);
    second := sink.Invoke([b]);
    batch := sink.RunWorker(true);
    restarted := sink.restart;
  }

  /**
   * A commit fails, whatever its batch (an empty one included): `restart` stays
   * false, so no later arrival starts a worker and what arrives afterwards stays
   * in the queue.
   */
  method FailedCommitStopsWorkers(firstBatch: seq<Element>, b: Element, c: Element)
    returns (lost: seq<Element>, secondStarted: bool, thirdStarted: bool, pending: seq<Element>)
    ensures lost == firstBatch
    ensures !secondStarted && !thirdStarted && pending == [b, c]
  {
    var sink := new GafferSink();
    var first := sink.Invoke(firstBatch);
    assert first;
    lost := sink.RunWorker(false);
    secondStarted := sink.Invoke([b]);
    thirdStarted := sink.Invoke([c]);
    pending := sink.queue;
  }

  /**
   * An element that arrives after the store has drained the queue but before the
   * commit returns starts no worker; once the commit succeeds it waits in the queue
   * with no worker running until a further arrival starts one.
   */
  method LateArrivalWaits(a: Element, x: Element, y: Element)
    returns (lateStarted: bool, pending: seq<Element>, idle: bool, nextStarted: bool)
    ensures !lateStarted && pending == [x] && idle && nextStarted
  {
    var sink := new GafferSink();
    var first := sink.Invoke([a]);
    assert first;
    sink.StartWorker();
    var it := sink.Iterator();
    assert it.Success?;
    var e := sink.Next();
    assert e == Success(a);
    var more := sink.HasNext();
    assert !more;
    lateStarted := sink.Invoke([x]);
    sink.FinishCommit(true);
    pending := sink.queue;
    idle := sink.phase == Idle;
    nextStarted := sink.Invoke([y]);
  }
}
