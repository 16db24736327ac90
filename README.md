# Gaffer socket ingestion and example generators, modelled in Dafny

This project models three pieces of sequential logic from the Gaffer experimental
repository:

- **`DataGenerator2`**: the getting-started element generator. It splits a CSV line on
  commas with Java's `String.split(",")` and builds an undirected `Edge`. Field 2 is the
  group, field 0 the source and field 1 the destination. The edge has one property,
  `count`, set to 1.
- **`ReviewGenerator`**: the films example generator. It turns a `Review` into a single
  `REVIEW` `Entity` on the film, with the user id, the rating widened to a long, and a
  count of 1.
- **`AddElementsFromSocketHandler.GafferSink`**: the sink that buffers elements mapped
  from socket records. It has a lazily created FIFO queue and a `restart` flag that
  decides whether an arrival starts a worker. The worker commits the queue to the store
  through a wrapped iterable that hands out only one iterator, and that iterator polls
  the queue until it is empty.

Files:

- `outcomes.dfy`: `Option`, `Result` and the Java exceptions involved.
- `elements.dfy`: `Value`, `Element` (Entity or Edge) and `putProperty`.
- `string_split.dfy`: Java's `split(",")` with limit 0. A line with no comma splits into
  itself, so `""` gives `[""]`. Otherwise every comma cuts the line. Leading and inner
  empty fields are kept and trailing empty fields are dropped, so `","` gives `[]`. It
  also has the comma join that inverts the full split.
- `data_generator2.dfy`, `review_generator.dfy`: the two generators as pure functions,
  with lemmas about them.
- `gaffer_sink.dfy`: the sink as a class, `SocketSink.GafferSink`.

Fields of the class:

- `queue: seq<Element>`.
- `hasQueue`: the Java field is null until the first `invoke`.
- `restart`.
- `singleIteratorInUse`: the guard of the current wrapped iterable.
- `phase`: where the single worker thread is (`Idle`, `Spawned`, `Committing`).

The thread is not modelled as concurrency. It becomes explicit calls:

- `StartWorker`: the thread begins.
- `Iterator`, `HasNext`, `Next`: the store consumes the wrapped queue.
- `FinishCommit(success)`: the store's `AddElements` returns or throws.

`FinishCommit` can be called after any number of `Next` calls, so the store may stop
polling early and still report success or failure. `RunWorker` puts the calls together
as one complete drain followed by the commit's outcome.

Ghost fields record every element received, committed, rejected or in flight. The
object invariant `Valid()` states two properties:

- No element is lost or duplicated, and order is FIFO:
  `received == committed + rejected + inFlight + queue`.
- Single flight: once the queue exists, a worker exists exactly when `restart` is unset
  and no commit has failed. Before the first `invoke` there is neither a queue nor a
  worker. An arrival starts a worker only when none is running.

Both generators are functions, so the same input always gives an equal element.

## Consequences of the code as written

- The flag is a plain boolean, and nothing re-checks the queue after `AddElements`
  returns. An element can arrive after the store's last `hasNext` and before
  `restart` is set again. That element starts no worker and waits with no worker
  running until the next arrival (`LateArrivalWaits`).
- After a failed commit, `restart` stays false for good, so no later arrival ever
  starts a worker and everything that arrives afterwards stays in the queue
  (`FailedCommitStopsWorkers`). The elements the failed worker had polled are lost.
- Within one worker run, the store's iterator polls until `hasNext` sees an empty
  queue, so it also takes elements that arrive during the drain.
- Any `invoke` with no elements while `restart` is set starts a worker, and that
  worker commits whatever the queue holds, possibly nothing.

## Model

| member | source | states |
|---|---|---|
| `StringSplit.Split` | example/example-graph/src/main/java/uk/gov/gchq/gaffer/example/gettingstarted/generator/DataGenerator2.java:28 | `line.split(",")`: a line without a comma is its own only field; otherwise the result is a prefix of the full split, every field it drops is empty, and it is empty or ends in a non-empty field (trailing empty fields removed, leading and inner ones kept) |
| `StringSplit.SplitAll` | example/example-graph/src/main/java/uk/gov/gchq/gaffer/example/gettingstarted/generator/DataGenerator2.java:28 | the full comma split has at least one field and no field contains a comma |
| `StringSplit.DropTrailingEmpty` | example/example-graph/src/main/java/uk/gov/gchq/gaffer/example/gettingstarted/generator/DataGenerator2.java:28 | the result is a prefix of the fields, everything removed is empty, and the result is empty or ends in a non-empty field (Java's removal of trailing empty strings) |
| `StringSplit.SplitAllCommaFree` | example/example-graph/src/main/java/uk/gov/gchq/gaffer/example/gettingstarted/generator/DataGenerator2.java:28 | a line without a comma is a single field |
| `StringSplit.SplitAllOfField` | example/example-graph/src/main/java/uk/gov/gchq/gaffer/example/gettingstarted/generator/DataGenerator2.java:28 | a comma-free first field followed by a comma is cut off as the first field |
| `StringSplit.SplitAllFirstThree` | example/example-graph/src/main/java/uk/gov/gchq/gaffer/example/gettingstarted/generator/DataGenerator2.java:28 | three comma-free fields in front of the rest of a line are its first three fields, in order, followed by the fields of the rest |
| `StringSplit.SplitAllThree` | example/example-graph/src/main/java/uk/gov/gchq/gaffer/example/gettingstarted/generator/DataGenerator2.java:28 | a line of three comma-free fields joined by commas splits into exactly those three |
| `StringSplit.SplitAllTwo` | example/example-graph/src/main/java/uk/gov/gchq/gaffer/example/gettingstarted/generator/DataGenerator2.java:28 | two comma-free fields joined by a comma split into exactly those two |
| `StringSplit.SplitAllTwoThenEmpty` | example/example-graph/src/main/java/uk/gov/gchq/gaffer/example/gettingstarted/generator/DataGenerator2.java:28 | `a,b,` with comma-free a and b splits fully into a, b and one empty field |
| `StringSplit.JoinSplitAll` | example/example-graph/src/main/java/uk/gov/gchq/gaffer/example/gettingstarted/generator/DataGenerator2.java:28 | joining the split fields with commas gives the line back |
| `StringSplit.SplitAllJoin` | example/example-graph/src/main/java/uk/gov/gchq/gaffer/example/gettingstarted/generator/DataGenerator2.java:28 | splitting comma-free fields joined with commas gives the fields back |
| `StringSplit.SplitIsPrefix` | example/example-graph/src/main/java/uk/gov/gchq/gaffer/example/gettingstarted/generator/DataGenerator2.java:28 | Java's split is a prefix of the full split that drops only empty fields, and it has at least three fields iff some field from the third on is non-empty |
| `DataGenerator2.Apply` | example/example-graph/src/main/java/uk/gov/gchq/gaffer/example/gettingstarted/generator/DataGenerator2.java:29-33 | a produced edge carries exactly one property, `count` = 1, put on the new edge |
| `DataGenerator2.ApplySucceedsIff` | example/example-graph/src/main/java/uk/gov/gchq/gaffer/example/gettingstarted/generator/DataGenerator2.java:28-29 | a line yields an edge exactly when one of its comma fields from the third on is non-empty; otherwise the call fails |
| `DataGenerator2.ApplyFailure` | example/example-graph/src/main/java/uk/gov/gchq/gaffer/example/gettingstarted/generator/DataGenerator2.java:28-29 | a failure is an index-out-of-bounds on index 2 of a split with fewer than three fields |
| `DataGenerator2.ApplySelectsFields` | example/example-graph/src/main/java/uk/gov/gchq/gaffer/example/gettingstarted/generator/DataGenerator2.java:27-34 | the edge's group is the third field, its source the first, its destination the second; it is undirected and `count` = 1 is its only property |
| `DataGenerator2.ApplyJoin` | example/example-graph/src/main/java/uk/gov/gchq/gaffer/example/gettingstarted/generator/DataGenerator2.java:27-34 | round trip: comma-free fields joined with commas yield an edge iff a field from the third on is non-empty, and that edge is built from the first three fields |
| `DataGenerator2.ApplyFromFields` | example/example-graph/src/main/java/uk/gov/gchq/gaffer/example/gettingstarted/generator/DataGenerator2.java:27-34 | a line whose first three fields are a, b and a non-empty c yields the undirected edge a-b in group c with count 1 |
| `DataGenerator2.ApplyRoundTrip` | example/example-graph/src/main/java/uk/gov/gchq/gaffer/example/gettingstarted/generator/DataGenerator2.java:27-34 | for comma-free a, b and non-empty comma-free c, `a,b,c` yields group c, source a, destination b, undirected, count 1 |
| `DataGenerator2.ApplyIgnoresExtraFields` | example/example-graph/src/main/java/uk/gov/gchq/gaffer/example/gettingstarted/generator/DataGenerator2.java:28-31 | fields after the third are ignored: `a,b,c,rest` yields the same edge as `a,b,c` |
| `DataGenerator2.ApplyTooFewFields` | example/example-graph/src/main/java/uk/gov/gchq/gaffer/example/gettingstarted/generator/DataGenerator2.java:28-29 | `a,b` fails, and so does `a,b,` because the trailing empty field is dropped |
| `DataGenerator2.ApplyExamples` | example/example-graph/src/main/java/uk/gov/gchq/gaffer/example/gettingstarted/generator/DataGenerator2.java:27-35 | `A,B,X` gives the undirected edge A-B in group X with count 1; `A,B,X,Y` gives the same; `A,B` and `A,B,` fail |
| `Elements.PutProperty` | example/example-graph/src/main/java/uk/gov/gchq/gaffer/example/films/generator/ReviewGenerator.java:32-34 | putting a property adds or replaces that one name, keeps every other property and leaves the rest of the element unchanged |
| `ReviewGenerator.Apply` | example/example-graph/src/main/java/uk/gov/gchq/gaffer/example/films/generator/ReviewGenerator.java:30-37 | one Entity in group REVIEW whose vertex is the film id, with exactly three properties: USER_ID is the user id, RATING is a long equal to the rating, COUNT is 1 |
| `ReviewGenerator.ToReviewApply` | example/example-graph/src/main/java/uk/gov/gchq/gaffer/example/films/generator/ReviewGenerator.java:30-37 | round trip: the review can be read back from its entity, so nothing is lost |
| `ReviewGenerator.ApplyToReview` | example/example-graph/src/main/java/uk/gov/gchq/gaffer/example/films/generator/ReviewGenerator.java:30-37 | an entity that reads back as a review is exactly the entity generated from that review |
| `ReviewGenerator.ApplyInjective` | example/example-graph/src/main/java/uk/gov/gchq/gaffer/example/films/generator/ReviewGenerator.java:30-37 | distinct reviews give distinct entities |
| `SocketSink.GafferSink.constructor` | library/flink/accumulo-flink-library/src/main/java/uk/gov/gchq/gaffer/flink/operation/handler/AddElementsFromSocketHandler.java:79-86 | a new sink has no queue, `restart` unset and no worker |
| `SocketSink.GafferSink.Invoke` | library/flink/accumulo-flink-library/src/main/java/uk/gov/gchq/gaffer/flink/operation/handler/AddElementsFromSocketHandler.java:89-98 | creates the queue with `restart` set on first use, appends the elements after the existing contents in order, starts a worker iff `restart` was set (never while one is running, never after a failed commit), and leaves `restart` unset |
| `SocketSink.GafferSink.StartWorker` | library/flink/accumulo-flink-library/src/main/java/uk/gov/gchq/gaffer/flink/operation/handler/AddElementsFromSocketHandler.java:98-108 | the started worker creates its wrapped queue with the iterator guard unset; the queue and flag are unchanged |
| `SocketSink.GafferSink.Iterator` | library/flink/accumulo-flink-library/src/main/java/uk/gov/gchq/gaffer/flink/operation/handler/AddElementsFromSocketHandler.java:110-116 | the first call hands out the iterator; every later call fails with "Only 1 iterator can be used at a time" |
| `SocketSink.GafferSink.HasNext` | library/flink/accumulo-flink-library/src/main/java/uk/gov/gchq/gaffer/flink/operation/handler/AddElementsFromSocketHandler.java:118-126 | true iff the queue is non-empty; nothing changes |
| `SocketSink.GafferSink.Next` | library/flink/accumulo-flink-library/src/main/java/uk/gov/gchq/gaffer/flink/operation/handler/AddElementsFromSocketHandler.java:128-135 | on an empty queue it fails with "No more elements" and changes nothing; otherwise it returns the head and removes exactly that element |
| `SocketSink.GafferSink.FinishCommit` | library/flink/accumulo-flink-library/src/main/java/uk/gov/gchq/gaffer/flink/operation/handler/AddElementsFromSocketHandler.java:140-157 | the worker ends; after success `restart` is set and the drained batch is committed; after failure `restart` stays unset and the batch is lost |
| `SocketSink.GafferSink.RunWorker` | library/flink/accumulo-flink-library/src/main/java/uk/gov/gchq/gaffer/flink/operation/handler/AddElementsFromSocketHandler.java:107-145 | a full hasNext/next drain yields the queue's contents in FIFO order, each exactly once, and ends with an empty queue; afterwards `restart` is the commit's success and a failure is recorded for good |
| `SocketSink.TwoArrivalsOneWorker` | library/flink/accumulo-flink-library/src/main/java/uk/gov/gchq/gaffer/flink/operation/handler/AddElementsFromSocketHandler.java:89-145 | of two arrivals before the worker runs, only the first starts a worker, which commits both in arrival order and sets `restart` again |
| `SocketSink.FailedCommitStopsWorkers` | library/flink/accumulo-flink-library/src/main/java/uk/gov/gchq/gaffer/flink/operation/handler/AddElementsFromSocketHandler.java:96-157 | after a failed commit of any batch, empty or not, no later arrival starts a worker and all later arrivals stay in the queue |
| `SocketSink.LateArrivalWaits` | library/flink/accumulo-flink-library/src/main/java/uk/gov/gchq/gaffer/flink/operation/handler/AddElementsFromSocketHandler.java:96-145 | an element that arrives between the drain and the commit's return starts no worker and waits in the queue with no worker running, until the next arrival starts one |

## Left out

- `doOperation`: the Flink job wiring (socket text stream, mapper, parallelism, `execute`) and the wrapping of its failure in an `OperationException` are framework and socket I/O.
- Threads: real concurrency is not modelled. This covers the one-second `Thread.sleep` in `hasNext` and the unsynchronised reads and writes of `restart` across threads. The worker is a sequence of explicit calls, and any interleaving of those calls with `Invoke` is allowed.
- The store: building the `Graph` from the schema and store properties, executing `AddElements`, and the `GetAllElements` logging loop are calls into a store that is not part of this model. The commit's result is an abstract success or failure given after any number of polls.
- A store that persists part of a batch and then fails is not modelled: a failed commit rejects every element its worker polled.
- SocketSink.GafferSink.Invoke: does not model an exception thrown while the elements are appended (a null element in the queue, or the caller's iterable failing). In the source that leaves the queue created, part of the elements appended, `restart` still set and no worker started. The model appends every element.
- `Review`, `Group` and `Property` are not part of this model. A review has a string film id, a string user id and an `int` rating. The group and property names are placeholder string constants, and the lemmas depend only on their being distinct. A null user id, which `putProperty` would not store, is not modelled.
- `AuthService`, the TypeScript REST repositories and the service tests are outside the modelled core.
