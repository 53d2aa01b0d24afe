/**
 * The connection classes of network.py with their transport left out: each
 * keeps its columns in FIFO queues that the receive path fills in place and
 * `get_data` drains. The recording and receive methods are proved against
 * `Record`, `Feed` and `SubscribeRun` of module Telemetry, so the properties
 * proved there hold of these objects; the draining methods are proved
 * against the queue contents.
 */
module Network {
  import opened Outcomes
  import opened Json
  import opened Telemetry

  /** An unbounded FIFO queue (`queue.Queue` or `asyncio.Queue`). */
  class Queue<T> {
    var items: seq<T>

    constructor()
      ensures items == []
    {
      items := [];
    }

    method Put(x: T)
      modifies this
      ensures items == old(items) + [x]
    {
      items := items + [x];
    }

    /** `get()` blocks on an empty queue; the source only calls it after `empty()` said no. */
    method Get() returns (x: T)
      requires items != []
      modifies this
      ensures x == old(items)[0] && items == old(items)[1..]
    {
      x := items[0];
      items := items[1..];
    }

    method IsEmpty() returns (b: bool)
      ensures b <==> items == []
    {
      b := items == [];
    }

    /** `list(q.queue)`: a copy of the contents, front first, leaving the queue as it is. */
    method Snapshot() returns (s: seq<T>)
      ensures s == items
    {
      s := items;
    }
  }

  /** `[queue.Queue() for _ in range(n)]`: `n` distinct new empty queues. */
  method NewQueues<T>(n: nat) returns (qs: seq<Queue<T>>)
    ensures |qs| == n
    ensures forall i :: 0 <= i < n ==> fresh(qs[i]) && qs[i].items == []
    ensures forall i, j :: 0 <= i < j < n ==> qs[i] != qs[j]
  {
    qs := [];
    while |qs| < n
      invariant |qs| <= n
      invariant forall i :: 0 <= i < |qs| ==> fresh(qs[i]) && qs[i].items == []
      invariant forall i, j :: 0 <= i < j < |qs| ==> qs[i] != qs[j]
    {
      var q := new Queue<T>();
      qs := qs + [q];
    }
  }

  /**
   * `consume_queue(q)` of AsyncWSv1 and AsyncWSv2 (the two are the same
   * code): take items while the queue is not empty. The result is the old
   * contents in FIFO order and the queue is left empty.
   */
  method ConsumeQueue<T>(q: Queue<T>) returns (dataL: seq<T>)
    modifies q
    ensures dataL == old(q.items) && q.items == []
  {
    dataL := [];
    var empty := q.IsEmpty();
    while !empty
      invariant dataL + q.items == old(q.items)
      invariant empty <==> q.items == []
      decreases |q.items|
    {
      var item := q.Get();
      dataL := dataL + [item];
      empty := q.IsEmpty();
    }
  }

  /** The abstract value of three column queues. */
  ghost function ColumnsOf(updateIds: Queue<Json>, delays: Queue<int>, clientTimestamps: Queue<int>): Columns
    reads updateIds, delays, clientTimestamps
  {
    Columns(updateIds.items, delays.items, clientTimestamps.items)
  }

  /**
   * The body shared by `ThreadedWS.on_message` and the two `put_data`
   * methods: put `data["u"]`, `curr_time - data["E"]` and `curr_time` into
   * the three queues in that order, unless `data` is `None`; a statement that
   * raises leaves the puts before it done.
   */
  method PutColumns(updateIds: Queue<Json>, delays: Queue<int>, clientTimestamps: Queue<int>, data: Json, currTime: int)
    returns (outcome: Outcome)
    requires delays != clientTimestamps
    modifies updateIds, delays, clientTimestamps
    ensures Step(ColumnsOf(updateIds, delays, clientTimestamps), outcome)
            == Record(old(ColumnsOf(updateIds, delays, clientTimestamps)), data, currTime)
  {
    outcome := Pass;
    if data != JNull {
      var u := Lookup(data, "u");
      if u.Failure? {
        return Fail(u.error);
      }
      updateIds.Put(u.value);
      var e := Lookup(data, "E");
      if e.Failure? {
        return Fail(e.error);
      }
      var n := Numeric(e.value);
      if n.None? {
        return Fail(TypeError);
      }
      delays.Put(currTime - n.value);
      clientTimestamps.Put(currTime);
    }
  }

  /** A websocket-client application whose `on_message` callback records into three queues it was given. */
  class ThreadedWS {
    const url: string
    const ticker: string
    const clientTimestamp: Queue<int>
    const delays: Queue<int>
    const updateIds: Queue<Json>

    ghost predicate Valid()
    {
      clientTimestamp != delays
    }

    ghost function Cols(): Columns
      reads updateIds, delays, clientTimestamp
    {
      ColumnsOf(updateIds, delays, clientTimestamp)
    }

    /** The queues are the caller's; they are recorded into, not created. */
    constructor(url: string, ticker: string, clientTimestamp: Queue<int>, delays: Queue<int>, updateIds: Queue<Json>)
      requires clientTimestamp != delays
      ensures Valid()
      ensures this.url == url && this.ticker == ticker
      ensures this.clientTimestamp == clientTimestamp && this.delays == delays && this.updateIds == updateIds
    {
      this.url := url;
      this.ticker := ticker;
      this.clientTimestamp := clientTimestamp;
      this.delays := delays;
      this.updateIds := updateIds;
    }

    /** `on_message` for a frame already decoded to `data`, received at `currTime`. */
    method OnMessage(data: Json, currTime: int) returns (outcome: Outcome)
      requires Valid()
      modifies updateIds, delays, clientTimestamp
      ensures Step(Cols(), outcome) == Record(old(Cols()), data, currTime)
    {
      outcome := PutColumns(updateIds, delays, clientTimestamp, data, currTime);
    }

    /**
     * The dispatch in `run_forever`: every received frame goes to
     * `on_message`, and an exception it raises is reported through
     * `on_error` without ending the loop.
     */
    method RunForever(ds: seq<Delivery>)
      requires Valid()
      modifies updateIds, delays, clientTimestamp
      ensures Cols() == Feed(Callback, old(Cols()), ds).cols
    {
      ghost var start := Cols();
      var i := 0;
      while i < |ds|
        invariant 0 <= i <= |ds|
        invariant Cols() == Feed(Callback, start, ds[..i]).cols
      {
        assert ds[..i + 1][..i] == ds[..i];
        var _ := OnMessage(ds[i].frame, ds[i].receivedAt);
        i := i + 1;
      }
      assert ds[..i] == ds;
    }
  }

  /** One python-binance futures depth stream; the client and socket manager are left out. */
  class AsyncWSv1 {
    const ticker: string
    const clientTimestamps: Queue<int>
    const delays: Queue<int>
    const updateIds: Queue<Json>

    ghost predicate Valid()
    {
      clientTimestamps != delays
    }

    ghost function Cols(): Columns
      reads updateIds, delays, clientTimestamps
    {
      ColumnsOf(updateIds, delays, clientTimestamps)
    }

    constructor(ticker: string)
      ensures Valid() && this.ticker == ticker
      ensures fresh(clientTimestamps) && fresh(delays) && fresh(updateIds)
      ensures Cols() == Empty
    {
      this.ticker := ticker;
      clientTimestamps := new Queue<int>();
      delays := new Queue<int>();
      updateIds := new Queue<Json>();
    }

    method PutData(data: Json, currTime: int) returns (outcome: Outcome)
      requires Valid()
      modifies updateIds, delays, clientTimestamps
      ensures Step(Cols(), outcome) == Record(old(Cols()), data, currTime)
    {
      outcome := PutColumns(updateIds, delays, clientTimestamps, data, currTime);
    }

    /**
     * The receive loop of `connect` over the messages the stream delivered:
     * `put_data(message["data"], curr_time)` for each, until one raises.
     */
    method Connect(messages: seq<Delivery>) returns (outcome: Outcome)
      requires Valid()
      modifies updateIds, delays, clientTimestamps
      ensures Step(Cols(), outcome) == Feed(Stream, old(Cols()), messages)
    {
      ghost var start := Cols();
      outcome := Pass;
      var i := 0;
      while i < |messages| && outcome.Pass?
        invariant 0 <= i <= |messages|
        invariant Step(Cols(), outcome) == Feed(Stream, start, messages[..i])
      {
        assert messages[..i + 1][..i] == messages[..i];
        var payload := Lookup(messages[i].frame, "data");
        if payload.Failure? {
          outcome := Fail(payload.error);
        } else {
          outcome := PutData(payload.value, messages[i].receivedAt);
        }
        i := i + 1;
      }
      if outcome.Fail? {
        FeedStopped(Stream, start, messages, i);
      } else {
        assert messages[..i] == messages;
      }
    }

    /** `get_data`: drain the queues, returned as (update ids, client timestamps, delays). */
    method GetData() returns (ids: seq<Json>, timestamps: seq<int>, delayList: seq<int>)
      requires Valid()
      modifies updateIds, delays, clientTimestamps
      ensures ids == old(updateIds.items) && timestamps == old(clientTimestamps.items) && delayList == old(delays.items)
      ensures Cols() == Empty
    {
      ids := ConsumeQueue(updateIds);
      timestamps := ConsumeQueue(clientTimestamps);
      delayList := ConsumeQueue(delays);
    }
  }

  /** One websocket shared by `numSubs` subscriptions, each with its own three queues. */
  class AsyncWSv2 {
    const url: string
    const ticker: string
    const numSubs: nat
    const clientTimestampsL: seq<Queue<int>>
    const delaysL: seq<Queue<int>>
    const updateIdsL: seq<Queue<Json>>

    /** One triple of queues per subscription, no queue shared between two columns or two subscriptions. */
    ghost predicate Valid()
    {
      && |clientTimestampsL| == numSubs && |delaysL| == numSubs && |updateIdsL| == numSubs
      && (forall i, j :: 0 <= i < j < numSubs ==> clientTimestampsL[i] != clientTimestampsL[j])
      && (forall i, j :: 0 <= i < j < numSubs ==> delaysL[i] != delaysL[j])
      && (forall i, j :: 0 <= i < j < numSubs ==> updateIdsL[i] != updateIdsL[j])
      && (forall i, j :: 0 <= i < numSubs && 0 <= j < numSubs ==> clientTimestampsL[i] != delaysL[j])
    }

    ghost function Repr(): set<object>
    {
      (set q | q in clientTimestampsL :: q as object)
      + (set q | q in delaysL :: q as object)
      + (set q | q in updateIdsL :: q as object)
    }

    /** The columns of subscription `i`. */
    ghost function ColsAt(i: nat): Columns
      requires Valid() && i < numSubs
      reads updateIdsL[i], delaysL[i], clientTimestampsL[i]
    {
      ColumnsOf(updateIdsL[i], delaysL[i], clientTimestampsL[i])
    }

    constructor(url: string, ticker: string, numSubs: nat)
      ensures Valid() && this.url == url && this.ticker == ticker && this.numSubs == numSubs
      ensures fresh(Repr())
      ensures forall i :: 0 <= i < numSubs ==> ColsAt(i) == Empty
    {
      this.url := url;
      this.ticker := ticker;
      this.numSubs := numSubs;
      var ts := NewQueues<int>(numSubs);
      var ds := NewQueues<int>(numSubs);
      var us := NewQueues<Json>(numSubs);
      clientTimestampsL := ts;
      delaysL := ds;
      updateIdsL := us;
    }

    /** `put_data(data, curr_time, idx)`: records into subscription `idx` only. */
    method PutData(data: Json, currTime: int, idx: nat) returns (outcome: Outcome)
      requires Valid() && idx < numSubs
      modifies updateIdsL[idx], delaysL[idx], clientTimestampsL[idx]
      ensures Step(ColsAt(idx), outcome) == Record(old(ColsAt(idx)), data, currTime)
      ensures forall j :: 0 <= j < numSubs && j != idx ==> ColsAt(j) == old(ColsAt(j))
    {
      outcome := PutColumns(updateIdsL[idx], delaysL[idx], clientTimestampsL[idx], data, currTime);
    }

    /**
     * `subscribe(idx)` after its SUBSCRIBE send: read `combined` as the
     * `"result"` of this subscription's GET_PROPERTY reply (which raises
     * when the reply has none), then classify each frame read and record a
     * kept payload at `idx`, until a statement raises. With `AsWritten` the
     * frames are classified as lines 142-148 do; with `AckFirst` replies are
     * recognised before unwrapping.
     */
    method Subscribe(idx: nat, reply: Json, filter: Filter, frames: seq<Delivery>) returns (outcome: Outcome)
      requires Valid() && idx < numSubs
      modifies updateIdsL[idx], delaysL[idx], clientTimestampsL[idx]
      ensures Step(ColsAt(idx), outcome) == SubscribeRun(reply, filter, old(ColsAt(idx)), frames)
      ensures forall j :: 0 <= j < numSubs && j != idx ==> ColsAt(j) == old(ColsAt(j))
    {
      var result := Lookup(reply, "result");
      if result.Failure? {
        return Fail(result.error);
      }
      var combined := result.value;
      ghost var start := ColsAt(idx);
      outcome := Pass;
      var i := 0;
      while i < |frames| && outcome.Pass?
        invariant 0 <= i <= |frames|
        invariant Step(ColsAt(idx), outcome) == Feed(Multiplexed(combined, filter), start, frames[..i])
        invariant forall j :: 0 <= j < numSubs && j != idx ==> ColsAt(j) == old(ColsAt(j))
      {
        assert frames[..i + 1][..i] == frames[..i];
        match Classify(filter, frames[i].frame, combined) {
          case Skip =>
          case Raise(f) =>
            outcome := Fail(f);
          case Store(payload) =>
            outcome := PutData(payload, frames[i].receivedAt, idx);
        }
        i := i + 1;
      }
      if outcome.Fail? {
        FeedStopped(Multiplexed(combined, filter), start, frames, i);
      } else {
        assert frames[..i] == frames;
      }
    }

    /**
     * `get_data`: one list per subscription in each column, slot `idx` drained
     * from subscription `idx`'s queues; returned as (update ids, client
     * timestamps, delays).
     */
    method GetData() returns (idsL: seq<seq<Json>>, timestampsL: seq<seq<int>>, delaysOut: seq<seq<int>>)
      requires Valid()
      modifies Repr()
      ensures |idsL| == numSubs && |timestampsL| == numSubs && |delaysOut| == numSubs
      ensures forall i :: 0 <= i < numSubs ==>
                idsL[i] == old(ColsAt(i)).updateIds
                && timestampsL[i] == old(ColsAt(i)).clientTimestamps
                && delaysOut[i] == old(ColsAt(i)).delays
      ensures forall i :: 0 <= i < numSubs ==> ColsAt(i) == Empty
    {
      timestampsL := seq(numSubs, _ => []);
      delaysOut := seq(numSubs, _ => []);
      idsL := seq(numSubs, _ => []);
      for idx := 0 to numSubs
        invariant |idsL| == numSubs && |timestampsL| == numSubs && |delaysOut| == numSubs
        invariant forall i :: 0 <= i < idx ==>
                    idsL[i] == old(ColsAt(i)).updateIds
                    && timestampsL[i] == old(ColsAt(i)).clientTimestamps
                    && delaysOut[i] == old(ColsAt(i)).delays
                    && ColsAt(i) == Empty
        invariant forall i :: idx <= i < numSubs ==> ColsAt(i) == old(ColsAt(i))
      {
        assert updateIdsL[idx] in updateIdsL && clientTimestampsL[idx] in clientTimestampsL && delaysL[idx] in delaysL;
        var ids := ConsumeQueue(updateIdsL[idx]);
        var timestamps := ConsumeQueue(clientTimestampsL[idx]);
        var delayList := ConsumeQueue(delaysL[idx]);
        idsL := idsL[idx := ids];
        timestampsL := timestampsL[idx := timestamps];
        delaysOut := delaysOut[idx := delayList];
      }
    }
  }
}
