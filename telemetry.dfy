/**
 * The value-level model of what a connection records. Every connection keeps
 * three parallel FIFO columns (update id, delay, client timestamp); this
 * module says how one received frame changes them, how a run of received
 * frames changes them on each of the three receive paths, and which frames the
 * multiplexed path drops. The classes in module Network are proved against
 * these functions.
 */
module Telemetry {
  import opened Outcomes
  import opened Json

  /** The three columns of one connection, in the order the source fills them. */
  datatype Columns = Columns(updateIds: seq<Json>, delays: seq<int>, clientTimestamps: seq<int>)

  const Empty := Columns([], [], [])

  /** The columns describe whole samples: they have equal lengths. */
  predicate Lockstep(c: Columns)
  {
    |c.updateIds| == |c.delays| == |c.clientTimestamps|
  }

  /** New columns, and whether the Python code finished normally or raised. */
  datatype Step = Step(cols: Columns, outcome: Outcome)

  /** One observation: update id, receive time and signed delay. */
  datatype Sample = Sample(updateId: Json, clientTimestamp: int, delay: int)

  /** A payload that yields a sample: a dict with `u` and a numeric `E`. */
  predicate WellFormed(data: Json)
  {
    data.JObj? && "u" in data.fields && "E" in data.fields && Numeric(data.fields["E"]).Some?
  }

  /** The sample a well-formed payload received at time `t` yields; the delay is never clamped. */
  function SampleOf(data: Json, t: int): Sample
    requires WellFormed(data)
  {
    Sample(data.fields["u"], t, t - Numeric(data.fields["E"]).value)
  }

  /** The columns with one more sample at the end of each. */
  function Append(c: Columns, s: Sample): Columns
  {
    Columns(c.updateIds + [s.updateId], c.delays + [s.delay], c.clientTimestamps + [s.clientTimestamp])
  }

  /**
   * `put_data(data, curr_time)` of AsyncWSv1 and AsyncWSv2 and the recording
   * part of `ThreadedWS.on_message`: skip a `None` payload, otherwise put
   * `data["u"]`, then `curr_time - data["E"]`, then `curr_time`, stopping at
   * the first statement that raises.
   */
  function Record(c: Columns, data: Json, t: int): (r: Step)
    ensures r.outcome.Pass? <==> data == JNull || WellFormed(data)
    ensures data == JNull ==> r.cols == c
    ensures WellFormed(data) ==> r.cols == Append(c, SampleOf(data, t))
    ensures !data.JObj? || "u" !in data.fields ==> r.cols == c
    ensures data.JObj? && "u" in data.fields && !WellFormed(data) ==>
              r.cols == c.(updateIds := c.updateIds + [data.fields["u"]])
  {
    if data == JNull then Step(c, Pass)
    else
      match Lookup(data, "u")
      case Failure(f) => Step(c, Fail(f))
      case Success(u) =>
        var withId := c.(updateIds := c.updateIds + [u]);
        match Lookup(data, "E")
        case Failure(f) => Step(withId, Fail(f))
        case Success(e) =>
          match Numeric(e)
          case None => Step(withId, Fail(TypeError))
          case Some(n) => Step(withId.(delays := c.delays + [t - n], clientTimestamps := c.clientTimestamps + [t]), Pass)
  }

  /**
   * The equal-length invariant is broken by a frame exactly when it is a dict
   * with `u` but without a numeric `E`; any other frame either records a whole
   * sample or records nothing.
   */
  lemma RecordKeepsLockstep(c: Columns, data: Json, t: int)
    requires Lockstep(c)
    ensures Lockstep(Record(c, data, t).cols) <==> !(data.JObj? && "u" in data.fields && !WellFormed(data))
  {
  }

  // ---------------------------------------------------------------------------
  // Frame classification on the multiplexed connection (AsyncWSv2.subscribe)

  /** What the receive loop does with one frame. */
  datatype Route = Skip | Store(payload: Json) | Raise(fault: Fault)

  /**
   * Lines 142-148 of network.py as written: in combined mode the payload is
   * the frame's `"data"`, otherwise the whole frame; a payload with an `"id"`
   * key is dropped, any other dict payload is recorded.
   */
  function ClassifyFrame(resp: Json, combined: Json): (r: Route)
    ensures r.Store? ==> r.payload.JObj? && "id" !in r.payload.fields
    ensures Truthy(combined) && !resp.JObj? ==> r == Raise(TypeError)
    ensures Truthy(combined) && resp.JObj? && "data" !in resp.fields ==> r == Raise(KeyError("data"))
    ensures (if Truthy(combined) then resp.JObj? && "data" in resp.fields && !resp.fields["data"].JObj?
             else !resp.JObj?) ==> r == Raise(AttributeError)
  {
    var payload := if !Truthy(combined) then Success(resp) else Lookup(resp, "data");
    match payload
    case Failure(f) => Raise(f)
    case Success(p) =>
      if !p.JObj? then Raise(AttributeError)
      else if "id" in p.fields then Skip
      else Store(p)
  }

  /** A control-plane reply: a dict frame that carries a request id. */
  predicate IsAck(resp: Json)
  {
    resp.JObj? && "id" in resp.fields
  }

  /** Not in combined mode, a reply is dropped and any other dict frame is recorded whole. */
  lemma PlainModeRoutes(resp: Json, combined: Json)
    requires !Truthy(combined) && resp.JObj?
    ensures ClassifyFrame(resp, combined) == if IsAck(resp) then Skip else Store(resp)
  {
  }

  /** In combined mode the envelope's `"data"` is what is checked and recorded. */
  lemma CombinedModeUnwraps(resp: Json, combined: Json)
    requires Truthy(combined) && resp.JObj? && "data" in resp.fields && resp.fields["data"].JObj?
    ensures ClassifyFrame(resp, combined) ==
              if "id" in resp.fields["data"].fields then Skip else Store(resp.fields["data"])
  {
  }

  /**
   * As written, in combined mode every reply that carries no `"data"` key
   * (such as `{"id": 2, "result": null}`) raises KeyError('data') instead of
   * being dropped; the ack-first classification drops it.
   */
  lemma CombinedAckRaises(resp: Json, combined: Json)
    requires Truthy(combined) && IsAck(resp) && "data" !in resp.fields
    ensures ClassifyFrame(resp, combined) == Raise(KeyError("data"))
    ensures ClassifyFrameAckFirst(resp, combined) == Skip
  {
  }

  /**
   * The other frames the two classifications treat differently: in combined
   * mode, an envelope with a top-level `"id"` around a data payload without
   * one is recorded as written and dropped by the ack-first classification.
   */
  lemma EnvelopedIdStored(resp: Json, combined: Json)
    requires Truthy(combined) && IsAck(resp) && "data" in resp.fields
    requires resp.fields["data"].JObj? && "id" !in resp.fields["data"].fields
    ensures ClassifyFrame(resp, combined) == Store(resp.fields["data"])
    ensures ClassifyFrameAckFirst(resp, combined) == Skip
  {
  }

  /** The reply `{"id": 2, "result": null}` is one such frame. */
  lemma CombinedAckExample()
    ensures ClassifyFrame(JObj(map["id" := JInt(2), "result" := JNull]), JBool(true)) == Raise(KeyError("data"))
  {
    CombinedAckRaises(JObj(map["id" := JInt(2), "result" := JNull]), JBool(true));
  }

  /**
   * The evidently intended classification: a reply is recognised by its
   * top-level `"id"` before any unwrapping, so it is dropped in both modes;
   * every other frame is treated as written.
   */
  function ClassifyFrameAckFirst(resp: Json, combined: Json): (r: Route)
    ensures IsAck(resp) ==> r == Skip
    ensures !IsAck(resp) ==> r == ClassifyFrame(resp, combined)
    ensures r.Store? ==> r.payload.JObj? && "id" !in r.payload.fields
  {
    if IsAck(resp) then Skip else ClassifyFrame(resp, combined)
  }

  /** Which frame filter the `subscribe` loop applies: lines 142-148 as written, or the corrected one. */
  datatype Filter = AsWritten | AckFirst

  function Classify(f: Filter, resp: Json, combined: Json): (r: Route)
    ensures r.Store? ==> r.payload.JObj? && "id" !in r.payload.fields
    ensures !IsAck(resp) ==> r == ClassifyFrame(resp, combined)
  {
    match f
    case AsWritten => ClassifyFrame(resp, combined)
    case AckFirst => ClassifyFrameAckFirst(resp, combined)
  }

  // ---------------------------------------------------------------------------
  // Receive paths and runs of frames

  /** A frame as the connection received it, with its receive time in milliseconds. */
  datatype Delivery = Delivery(frame: Json, receivedAt: int)

  /**
   * The three receive paths:
   *  - Callback: `ThreadedWS.on_message`; the payload is the frame itself and
   *    the websocket library catches an exception raised by the callback, so
   *    later frames are still recorded;
   *  - Stream: the loop in `AsyncWSv1.connect`; the payload is
   *    `message["data"]` and an exception ends the loop;
   *  - Multiplexed: the loop in `AsyncWSv2.subscribe` with the given value
   *    of the `combined` property, classifying frames as written or with
   *    replies recognised first; an exception ends the loop.
   */
  datatype Path = Callback | Stream | Multiplexed(combined: Json, filter: Filter)
  {
    predicate StopsOnFault()
    {
      !Callback?
    }
  }

  function RouteOf(p: Path, frame: Json): Route
  {
    match p
    case Callback => Store(frame)
    case Stream =>
      (match Lookup(frame, "data")
       case Success(x) => Store(x)
       case Failure(f) => Raise(f))
    case Multiplexed(combined, f) => Classify(f, frame, combined)
  }

  /** One frame through a receive path. */
  function Receive(p: Path, c: Columns, d: Delivery): Step
  {
    match RouteOf(p, d.frame)
    case Skip => Step(c, Pass)
    case Raise(f) => Step(c, Fail(f))
    case Store(x) => Record(c, x, d.receivedAt)
  }

  /**
   * A run of frames through a receive path. The outcome is the first fault;
   * a path that stops on a fault ignores every later frame.
   */
  function Feed(p: Path, c: Columns, ds: seq<Delivery>): Step
    decreases |ds|
  {
    if ds == [] then Step(c, Pass)
    else
      var prev := Feed(p, c, ds[..|ds| - 1]);
      if prev.outcome.Fail? && p.StopsOnFault() then prev
      else
        var s := Receive(p, prev.cols, ds[|ds| - 1]);
        Step(s.cols, if prev.outcome.Fail? then prev.outcome else s.outcome)
  }

  /**
   * The body of `subscribe(idx)` after the SUBSCRIBE send: `combined` is
   * read as `reply["result"]` from this subscription's own GET_PROPERTY
   * reply, which raises before any frame is read when the reply is not a
   * dict or has no `"result"`; otherwise the receive loop runs with it.
   */
  function SubscribeRun(reply: Json, f: Filter, c: Columns, ds: seq<Delivery>): (r: Step)
    ensures !reply.JObj? ==> r == Step(c, Fail(TypeError))
    ensures reply.JObj? && "result" !in reply.fields ==> r == Step(c, Fail(KeyError("result")))
    ensures reply.JObj? && "result" in reply.fields ==> r == Feed(Multiplexed(reply.fields["result"], f), c, ds)
  {
    match Lookup(reply, "result")
    case Failure(fault) => Step(c, Fail(fault))
    case Success(combined) => Feed(Multiplexed(combined, f), c, ds)
  }

  // ---------------------------------------------------------------------------
  // A stateless reference: which sample each frame yields on its own

  function SampleFrom(p: Path, d: Delivery): Option<Sample>
  {
    match RouteOf(p, d.frame)
    case Store(x) => if WellFormed(x) then Some(SampleOf(x, d.receivedAt)) else None
    case _ => None
  }

  /** The samples of a run of frames, in arrival order. */
  function Samples(p: Path, ds: seq<Delivery>): seq<Sample>
    decreases |ds|
  {
    if ds == [] then []
    else
      var rest := Samples(p, ds[..|ds| - 1]);
      match SampleFrom(p, ds[|ds| - 1])
      case Some(s) => rest + [s]
      case None => rest
  }

  function UpdateIds(ss: seq<Sample>): seq<Json>
  {
    seq(|ss|, i requires 0 <= i < |ss| => ss[i].updateId)
  }

  function Delays(ss: seq<Sample>): seq<int>
  {
    seq(|ss|, i requires 0 <= i < |ss| => ss[i].delay)
  }

  function ClientTimestamps(ss: seq<Sample>): seq<int>
  {
    seq(|ss|, i requires 0 <= i < |ss| => ss[i].clientTimestamp)
  }

  /** The columns followed by the given samples, column by column. */
  function AppendAll(c: Columns, ss: seq<Sample>): Columns
  {
    Columns(c.updateIds + UpdateIds(ss), c.delays + Delays(ss), c.clientTimestamps + ClientTimestamps(ss))
  }

  lemma AppendAllSnoc(c: Columns, ss: seq<Sample>, s: Sample)
    ensures AppendAll(c, ss + [s]) == Append(AppendAll(c, ss), s)
  {
    assert UpdateIds(ss + [s]) == UpdateIds(ss) + [s.updateId];
    assert Delays(ss + [s]) == Delays(ss) + [s.delay];
    assert ClientTimestamps(ss + [s]) == ClientTimestamps(ss) + [s.clientTimestamp];
  }

  /** A frame that goes through without a fault changes the columns by exactly the sample it yields. */
  lemma ReceivePassing(p: Path, c: Columns, d: Delivery)
    requires Receive(p, c, d).outcome.Pass?
    ensures Receive(p, c, d).cols == match SampleFrom(p, d) case Some(s) => Append(c, s) case None => c
  {
  }

  /**
   * A run with no fault leaves the columns equal to the old ones followed by
   * the samples of the frames, in arrival order: nothing is lost, duplicated
   * or reordered.
   */
  lemma {:induction false} FeedIsSamples(p: Path, c: Columns, ds: seq<Delivery>)
    requires Feed(p, c, ds).outcome.Pass?
    ensures Feed(p, c, ds).cols == AppendAll(c, Samples(p, ds))
    decreases |ds|
  {
    if ds == [] {
      assert UpdateIds([]) == [] && Delays([]) == [] && ClientTimestamps([]) == [];
    } else {
      var init, last := ds[..|ds| - 1], ds[|ds| - 1];
      var prev := Feed(p, c, init);
      assert prev.outcome.Pass?;
      FeedIsSamples(p, c, init);
      ReceivePassing(p, prev.cols, last);
      match SampleFrom(p, last)
      case Some(s) => AppendAllSnoc(c, Samples(p, init), s);
      case None =>
    }
  }

  /** The columns of a connection start and stay in lockstep over any run without a fault. */
  lemma FeedKeepsLockstep(p: Path, c: Columns, ds: seq<Delivery>)
    requires Lockstep(c) && Feed(p, c, ds).outcome.Pass?
    ensures Lockstep(Feed(p, c, ds).cols)
  {
    FeedIsSamples(p, c, ds);
  }

  /** Once a path that stops on a fault has raised, later frames change nothing. */
  lemma {:induction false} FeedStopped(p: Path, c: Columns, ds: seq<Delivery>, k: nat)
    requires p.StopsOnFault() && k <= |ds| && Feed(p, c, ds[..k]).outcome.Fail?
    ensures Feed(p, c, ds) == Feed(p, c, ds[..k])
    decreases |ds| - k
  {
    if k < |ds| {
      assert ds[..k + 1][..k] == ds[..k];
      FeedStopped(p, c, ds, k + 1);
    } else {
      assert ds[..k] == ds;
    }
  }

  /** A frame whose payload carries `u` but no numeric `E`: only the update id is recorded. */
  predicate HalfRecorded(p: Path, d: Delivery)
  {
    var r := RouteOf(p, d.frame);
    r.Store? && r.payload.JObj? && "u" in r.payload.fields && !WellFormed(r.payload)
  }

  function CountHalfRecorded(p: Path, ds: seq<Delivery>): nat
    decreases |ds|
  {
    if ds == [] then 0
    else CountHalfRecorded(p, ds[..|ds| - 1]) + (if HalfRecorded(p, ds[|ds| - 1]) then 1 else 0)
  }

  /**
   * On the callback path every frame is processed even after a fault, so the
   * update-id column runs ahead of the other two by exactly the number of
   * frames that had `u` without a numeric `E`; delays and client timestamps
   * always stay in step with each other.
   */
  lemma {:induction false} CallbackDrift(c: Columns, ds: seq<Delivery>)
    ensures var r := Feed(Callback, c, ds).cols;
            && |r.delays| - |c.delays| == |r.clientTimestamps| - |c.clientTimestamps|
            && |r.updateIds| - |r.delays| == |c.updateIds| - |c.delays| + CountHalfRecorded(Callback, ds)
    decreases |ds|
  {
    if ds != [] {
      CallbackDrift(c, ds[..|ds| - 1]);
    }
  }

  /** Receive times that never decrease along the run. */
  predicate Nondecreasing(ds: seq<Delivery>)
  {
    forall i, j :: 0 <= i < j < |ds| ==> ds[i].receivedAt <= ds[j].receivedAt
  }

  predicate Sorted(s: seq<int>)
  {
    forall i, j :: 0 <= i < j < |s| ==> s[i] <= s[j]
  }

  /**
   * With a monotonic clock the client-timestamp column is non-decreasing on
   * every path, faults or not, and no entry exceeds the last receive time.
   */
  lemma {:induction false} FeedTimestampsSorted(p: Path, c: Columns, ds: seq<Delivery>)
    requires Sorted(c.clientTimestamps) && Nondecreasing(ds)
    requires forall i, j :: 0 <= i < |c.clientTimestamps| && 0 <= j < |ds| ==> c.clientTimestamps[i] <= ds[j].receivedAt
    ensures Sorted(Feed(p, c, ds).cols.clientTimestamps)
    ensures ds != [] ==> forall i :: 0 <= i < |Feed(p, c, ds).cols.clientTimestamps| ==>
              Feed(p, c, ds).cols.clientTimestamps[i] <= ds[|ds| - 1].receivedAt
    decreases |ds|
  {
    if ds != [] {
      var init, last := ds[..|ds| - 1], ds[|ds| - 1];
      FeedTimestampsSorted(p, c, init);
      var prev := Feed(p, c, init).cols.clientTimestamps;
      forall i | 0 <= i < |prev| ensures prev[i] <= last.receivedAt {
        if init != [] {
          assert init[|init| - 1] == ds[|ds| - 2];
        } else {
          assert prev == c.clientTimestamps;
        }
      }
    }
  }

  /** Frames the multiplexed path drops as control-plane replies. */
  function CountSkipped(p: Path, ds: seq<Delivery>): nat
    decreases |ds|
  {
    if ds == [] then 0
    else CountSkipped(p, ds[..|ds| - 1]) + (if RouteOf(p, ds[|ds| - 1].frame).Skip? then 1 else 0)
  }

  /**
   * Accounting on the multiplexed path: over a run without a fault, every
   * frame is either a dropped reply or exactly one recorded sample.
   */
  lemma {:induction false} MultiplexedAccounting(combined: Json, f: Filter, c: Columns, ds: seq<Delivery>)
    requires Feed(Multiplexed(combined, f), c, ds).outcome.Pass?
    ensures |Feed(Multiplexed(combined, f), c, ds).cols.delays|
            == |c.delays| + |ds| - CountSkipped(Multiplexed(combined, f), ds)
    decreases |ds|
  {
    if ds != [] {
      MultiplexedAccounting(combined, f, c, ds[..|ds| - 1]);
    }
  }

  /** A combined frame for `u` = 42, `E` = 1000 received at 1010 yields the sample (42, 1010, 10). */
  lemma CombinedFrameExample(f: Filter)
    ensures Receive(Multiplexed(JBool(true), f), Empty,
                    Delivery(JObj(map["stream" := JStr("btcusdt@bookTicker"),
                                      "data" := JObj(map["u" := JInt(42), "E" := JInt(1000)])]), 1010))
            == Step(Columns([JInt(42)], [10], [1010]), Pass)
  {
  }
}
