# Binance futures connector: telemetry bookkeeping model

This project models in Dafny the sequential bookkeeping of a harness that measures how late Binance futures market-data frames arrive. The harness connects in three ways:

- MWMT: one websocket per thread.
- MWST: one websocket per asyncio task.
- SWST: one shared websocket carrying several subscriptions.

Each connection keeps three parallel FIFO queues: the update id `u`, the signed delay `receive time - E` and the client receive timestamp. Frames fill the queues and, at the end of a run, the queues are drained into lists.

Modules:

- `Outcomes` (outcomes.dfy): the Python exceptions the receive paths raise (`KeyError`, `TypeError`, `AttributeError`), and how a statement sequence completes.
- `Json` (json.dfy): decoded frame values and the little of Python's semantics that the code relies on: truthiness, `d[key]`, `.keys()` and `t - v`.
- `Telemetry` (telemetry.dfy): the value-level model.
  - `Record` is one `put_data`/`on_message` step.
  - `ClassifyFrame` is the frame filter of `subscribe` as written, and `ClassifyFrameAckFirst` is the corrected one. `Classify` picks one of them by a `Filter` value (`AsWritten` or `AckFirst`).
  - `Feed` runs one receive path over a finite run of frames.
  - `Samples` is a stateless reference that says which sample each frame yields.
- `Network` (network.dfy): the classes `ThreadedWS`, `AsyncWSv1` and `AsyncWSv2` and the queue class.
  - Queues are objects with a `seq` field, and the methods change them in place.
  - The recording and receive methods (`PutColumns`, `OnMessage`, `PutData`, `RunForever`, `Connect`, `Subscribe`) are proved against `Telemetry.Record`, `Telemetry.Feed` and `Telemetry.SubscribeRun`.
  - The draining methods (`ConsumeQueue`, the two `GetData`) and the queue operations are proved against the queue contents.
- `Runner` (runner.dfy): `run_MWMT`, `run_MWST` and `run_SWST`, with threads and the scheduler replaced.
  - Each connection's receive path runs, in turn, over the frames it received before the deadline.
  - So the lengths, the order and the attribution of the results can be stated and proved.
- `BinanceLogger` (logger.dfy): `JsonFormatter` (`usesTime`, `formatMessage`, `format` up to JSON encoding) and the verbosity handling of `init_logger`.

Inputs that the source reads from the environment are parameters:

- the receive time, as an integer number of milliseconds;
- the frames each connection received, already decoded;
- the parsed GET_PROPERTY reply that each subscription reads for itself (its `result` is the combined-stream property);
- the feed URL from the configuration file;
- the strings that the logging library renders.

Three behaviours of the program that the model keeps:

- A frame that cannot be recorded raises. On the `connect` and `subscribe` loops, that ends the loop and then the run (`Telemetry.FeedStopped`, `Runner.RunMWST`, `Runner.RunSWST`).
- `run_SWST` returns `None` when there are no subscriptions (`Runner.RunSWST`).
- The queues can still be written after `get_data` drains them. No method is refused after draining.

## Model

| member | source | states |
|---|---|---|
| `Telemetry.Record` | network.py:71-75 | A `None` payload changes nothing. A payload with `u` and a numeric `E` appends exactly one entry to each column: `u`, `t - E` (signed, not clamped) and `t`. A payload without `u` changes nothing. A payload with `u` but no numeric `E` appends only the update id. The step ends normally exactly when the payload is `None` or well formed. The same step is `on_message` at network.py:39-42 and `AsyncWSv2.put_data` at network.py:118-121. |
| `Telemetry.RecordKeepsLockstep` | network.py:39-42 | Equal column lengths are broken by one frame exactly when it has `u` but no numeric `E`. |
| `Telemetry.ClassifyFrame` | network.py:142-148 | As written. In combined mode the payload is `resp["data"]`, otherwise the whole frame. Anything stored is a dict without `"id"`. The raise cases, all in combined mode:<br>- a non-dict frame raises `TypeError`;<br>- a dict frame without `"data"` raises `KeyError('data')`.<br>A non-dict payload raises `AttributeError` at `.keys()`: in combined mode that is a non-dict `"data"`, otherwise a non-dict frame. |
| `Telemetry.PlainModeRoutes` | network.py:142-146 | Without combined mode, a frame carrying `"id"` is dropped and any other dict frame is recorded whole. |
| `Telemetry.CombinedModeUnwraps` | network.py:144-148 | In combined mode the envelope's `"data"` is checked for `"id"` and recorded. |
| `Telemetry.CombinedAckRaises` | network.py:144-146 | As written, in combined mode every reply with a top-level `"id"` and no `"data"` raises `KeyError('data')`. The ack-first classification drops it. |
| `Telemetry.CombinedAckExample` | network.py:144-146 | As written, the reply `{"id": 2, "result": null}` in combined mode raises `KeyError('data')`. |
| `Telemetry.EnvelopedIdStored` | network.py:144-148 | In combined mode, a frame with a top-level `"id"` whose `"data"` is a dict without `"id"` is recorded as written. The ack-first classification drops it. |
| `Telemetry.Classify` | network.py:142-148 | The subscribe loop's filter, as written or ack-first. Either way it agrees with lines 142-148 on every frame that is not a reply, and it stores only dicts without `"id"`. |
| `Telemetry.ClassifyFrameAckFirst` | network.py:142-148 | Corrected: a frame with a top-level `"id"` is dropped in both modes. Every other frame is classified exactly as written. |
| `Telemetry.ReceivePassing` | network.py:140-148 | A frame handled without an exception changes the columns by exactly the sample that the stateless reference gives for it, or not at all. |
| `Telemetry.FeedIsSamples` | network.py:82-85 | A run of frames without an exception leaves each column equal to its old contents followed by the samples of the frames, in arrival order. Nothing is lost, duplicated or reordered. |
| `Telemetry.FeedKeepsLockstep` | network.py:117-121 | Columns that start with equal lengths keep equal lengths over any run without an exception. |
| `Telemetry.FeedStopped` | network.py:140-148 | Once the `connect` or `subscribe` loop has raised, later frames change nothing. |
| `Telemetry.CallbackDrift` | network.py:36-42 | On the `on_message` path, delays and timestamps always grow together. The update-id column runs ahead of them by exactly the number of frames that had `u` but no numeric `E`. |
| `Telemetry.FeedTimestampsSorted` | network.py:37-42 | With non-decreasing receive times, the client-timestamp column stays sorted on every path, and no entry exceeds the last receive time. |
| `Telemetry.SubscribeRun` | network.py:139-148 | `combined` is this subscription's own `reply["result"]`. A reply that is not a dict raises `TypeError`. A reply without `"result"` raises `KeyError('result')`. Either way no frame is read and the columns are unchanged. Otherwise the receive loop runs with that value. |
| `Telemetry.MultiplexedAccounting` | network.py:140-148 | On the shared socket, over a run without an exception, recorded samples equal frames received minus dropped frames. This holds for the loop as written and for the ack-first loop. |
| `Telemetry.CombinedFrameExample` | network.py:144-148 | `{"stream": …, "data": {"u": 42, "E": 1000}}` received at 1010 in combined mode appends the sample (42, 1010, 10), with either filter. |
| `Network.Queue.Get` | network.py:93-94 | `get` returns the front item and removes exactly it. |
| `Network.Queue.IsEmpty` | network.py:93 | `empty()` is true exactly when the queue has no items. |
| `Network.Queue.Snapshot` | runner.py:50-52 | `list(q.queue)` is the contents front first, and the queue is left as it was. |
| `Network.NewQueues` | runner.py:35-37 | Makes exactly `n` new, pairwise distinct, empty queues. |
| `Network.ConsumeQueue` | network.py:91-96 | Returns the old contents in FIFO order and leaves the queue empty. The copy at network.py:154-159 is the same code. |
| `Network.PutColumns` | network.py:117-121 | The three puts change the three queues exactly as `Record` says. |
| `Network.ThreadedWS.constructor` | network.py:25-33 | Records into the three queues the caller passed, without creating any. |
| `Network.ThreadedWS.OnMessage` | network.py:36-42 | The queues change as `Record` says, with the receive time given. |
| `Network.ThreadedWS.RunForever` | network.py:34 | Every received frame goes through `on_message`. An exception in one frame does not stop later frames. The queues end as `Feed(Callback, …)` says. |
| `Network.AsyncWSv1.constructor` | network.py:63-69 | Three fresh, distinct, empty queues. |
| `Network.AsyncWSv1.PutData` | network.py:71-75 | The queues change as `Record` says. |
| `Network.AsyncWSv1.Connect` | network.py:81-85 | Calls `put_data(message["data"], t)` for each message until one raises. The queues and outcome are `Feed(Stream, …)`. |
| `Network.AsyncWSv1.GetData` | network.py:98-104 | Returns the old contents as (update ids, client timestamps, delays) and empties all three queues. |
| `Network.AsyncWSv2.constructor` | network.py:108-115 | `num_subs` triples of fresh, distinct, empty queues. |
| `Network.AsyncWSv2.PutData` | network.py:117-121 | Subscription `idx` changes as `Record` says. Every other subscription is unchanged. |
| `Network.AsyncWSv2.Subscribe` | network.py:135-148 | Records at `idx` only, and every other subscription is unchanged. Its columns and outcome are `SubscribeRun(reply, filter, …)`:<br>- a reply without `result` raises before any frame;<br>- otherwise the loop runs as `Feed(Multiplexed(reply["result"], filter), …)`.<br>With `AsWritten` this is lines 139-148 exactly; with `AckFirst` it is the corrected loop. |
| `Network.AsyncWSv2.GetData` | network.py:161-172 | Exactly `num_subs` lists per column. Slot `i` holds subscription `i`'s old contents, and every queue is left empty. |
| `Runner.SnapshotAll` | runner.py:50-52 | One list per queue, in queue order, each equal to that queue's contents. |
| `Runner.RunMWMT` | runner.py:21-53 | Exactly `num_thread` lists per column. List `i` is what thread `i`'s `on_message` recorded over its frames. |
| `Runner.CreateTasksAsWritten` | runner.py:74-76 | As written: `tasks` ends with one task per socket in order, but every iteration creates a fresh task for every socket so far. |
| `Runner.CreatedCount` | runner.py:74-76 | As written, socket `j` of `n` gets `n - j` connect tasks. |
| `Runner.CreatedLength` | runner.py:74-76 | As written, `n` sockets cost n(n+1)/2 `create_task` calls. |
| `Runner.CreateTasksOnce` | runner.py:74-76 | Corrected: one task per socket, each created exactly once. |
| `Runner.MakeSockets` | runner.py:74-75 | `num_coro` sockets in order, no queue shared between them, all empty. |
| `Runner.ConnectAll` | runner.py:79 | Runs the one-task-per-socket list from `CreateTasksOnce`. Each socket's connect loop runs over that socket's own stream. Every socket ends as `Feed(Stream, …)` says. No fault is reported exactly when no loop raised. |
| `Runner.GatherData` | runner.py:85 | One `get_data()` result per socket, in socket order. Every queue is drained. |
| `Runner.Transpose` | runner.py:86-91 | Element `i` of each column comes from `results[i]`. Every column has one entry per socket. |
| `Runner.RunMWST` | runner.py:56-95 | The run raises exactly when some connect loop raised. Otherwise there are exactly `num_coro` lists per column, list `i` being socket `i`'s recorded frames. The run never returns `None`. |
| `Runner.RunSWST` | runner.py:98-121 | The run returns `None` exactly when there are no subscriptions. Each subscription reads `combined` from its own reply. The run raises exactly when some subscription raised: at the `["result"]` read (network.py:139) or in its receive loop. Otherwise (the timeout branch) it returns `get_data()`: exactly `num_subs` lists per column, list `i` recorded by subscription `i`. This holds with the as-written filter and with the ack-first filter. |
| `BinanceLogger.UsesTime` | binance_logger.py:37-41 | True exactly when some format key maps to `"asctime"`. |
| `BinanceLogger.FormatMessage` | binance_logger.py:43-48 | On success the keys are exactly the format dict's keys, each mapped to the record attribute its value names. It fails exactly when some named attribute is missing, and reports those names. |
| `BinanceLogger.WithExtras` | binance_logger.py:64-67 | Adds `exc_info` (the exception text) exactly when that text is non-empty. Adds `stack_info` exactly when the record has one. Other keys are unchanged. |
| `BinanceLogger.JsonFormatter.constructor` | binance_logger.py:22-35 | `fmt_dict` becomes `{"message": "message"}` only when it is `None`. The time and millisecond formats are stored, and `datefmt` is `None`. |
| `BinanceLogger.JsonFormatter.Format` | binance_logger.py:50-68 | Sets `message`, and sets `asctime` only when the format uses time. A missing attribute raises after those updates. The exception text is rendered only when there is an exception and no cached text. The result's keys are the format keys plus `exc_info` and `stack_info` as above. |
| `BinanceLogger.DefaultFormatsMessage` | binance_logger.py:32 | The default formatter projects a record to `{"message": <message>}`. |
| `BinanceLogger.ApplyVerbosity` | binance_logger.py:78-85 | Maps 3 to INFO, 2 to DEBUG, 1 to WARNING and 0 to ERROR. Any other value leaves the level as it was. |
| `BinanceLogger.InitLogger` | binance_logger.py:71-105 | The root level ends at INFO for every `VERBOSE`, because `getLogger()` is the same root logger. The file formatter uses the eleven-key format dict. |
| `BinanceLogger.FileFormatUsesTime` | binance_logger.py:93-105 | The file formatter's dict names `asctime`, so `format` computes the time. |

## Left out

- Transport is left out: websocket connect, send, recv and close; the `websocket`/`websockets` libraries; python-binance's `AsyncClient` and `BinanceSocketManager`. This covers `on_open`, the SUBSCRIBE send, `set_combined`, `get_combined`, `close_connection` and `close_socket`. Frames arrive already decoded, as the lists given to each receive path.
- Threads and asyncio scheduling are left out: `threading.Thread`, `_thread.start_new_thread`, `gather`, `wait_for`, cancellation and `join(0)`. Receive paths run one after another. Interleaving, and draining while a writer is still running, cannot be expressed. That includes the non-waiting `join(0)` and several `subscribe` coroutines entering one socket.
- Clock reads are left out. The receive time is an integer, while the source's `time_ns() // 1e6` is a float.
- `json.loads` and `json.dumps` are left out; frames are already-parsed values. Floating-point JSON numbers are not modelled.
- Logging internals are left out: `getMessage`, `formatTime`, `formatException`, `formatStack`, handlers and files. The strings they render are parameters. `on_error` and `on_close` only log.
- main.py (CLI, pandas/pickle output), constants.py (configuration file) and test/async_api.py (network scratch code) are not part of this model.
- `Network.AsyncWSv2.PutData`: requires `0 <= idx < num_subs`. Python would also accept a negative index, but the only caller passes `range(num_subs)`.
- `Network.Queue.Get`: requires a non-empty queue. A real `get` blocks there, and the source calls it only after `empty()` is false.
- `Network.ThreadedWS.constructor`: requires distinct delay and timestamp queues. Aliased queues are not modelled, and `run_MWMT` never passes them.
- `BinanceLogger.FormatMessage`: Python raises `KeyError` for the first missing attribute in dict order. The model reports the set of missing names, because maps are unordered here.
- `Runner.RunMWST`: models the corrected one-task-per-socket loop (see Findings). It reports the fault of the lowest-numbered socket, while `gather` reports whichever raised first in time.
- `Runner.RunSWST`: reports the fault of the lowest-numbered subscription, while `gather` reports whichever raised first in time.
- `Runner.ConnectAll`: runs the one-task-per-socket list only, one connect loop per socket. The duplicated tasks of the loop as written share a socket and run concurrently, which is not modelled; their count is stated by `Runner.CreatedCount`.
- Both runners assume Python 3.11 or later, where `asyncio.wait_for` raises the built-in `TimeoutError` that `except TimeoutError` catches.

## Findings

| source | as written | input that shows it | evidently intended | confidence | as-written member | corrected member |
|---|---|---|---|---|---|---|
| runner.py:74-76 | `tasks` is rebuilt inside the loop, so each iteration calls `create_task(ws.connect())` again for every socket so far. Only the last list is awaited and cancelled. | `num_coro = 3`: 6 connect tasks; socket 0 is connected 3 times and its queues are fed by 3 streams | Create the sockets, then one task per socket once | medium; not executed | `Runner.CreateTasksAsWritten` | `Runner.CreateTasksOnce` |
| network.py:144-146 | In combined mode `json.loads(resp)["data"]` runs before the `"id"` check, so a control reply that has no envelope raises `KeyError` and ends the receive loop | combined = true, frame `{"id": 2, "result": null}` | Drop a frame that carries a request id in either mode | medium; not executed | `Telemetry.CombinedAckRaises` | `Telemetry.ClassifyFrameAckFirst` |
