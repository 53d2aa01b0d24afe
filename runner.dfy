/**
 * The three run strategies of runner.py. Threads and the asyncio scheduler
 * are replaced by running each connection's receive path, in turn, over the
 * frames it received before the deadline (`deliveries[i]` for connection
 * `i`); what is modelled is the bookkeeping around them: how many buffers
 * are made, which connection records where, and how the results are
 * collected and returned.
 */
module Runner {
  import opened Outcomes
  import opened Json
  import opened Telemetry
  import opened Network

  /** `range(n)` as a list. */
  function Range(n: nat): (r: seq<nat>)
    ensures |r| == n && forall i :: 0 <= i < n ==> r[i] == i
  {
    seq(n, i => i)
  }

  /** What a run hands back: the three column lists, an exception, or `None`. */
  datatype RunResult =
    | Data(updateIds: seq<seq<Json>>, clientTimestamps: seq<seq<int>>, delays: seq<seq<int>>)
    | Raised(fault: Fault)
    | NoData

  /** `[list(q.queue) for q in qs]`: the contents of every queue, in order, without removing anything. */
  method SnapshotAll<T>(qs: seq<Queue<T>>) returns (lists: seq<seq<T>>)
    ensures |lists| == |qs|
    ensures forall i :: 0 <= i < |qs| ==> lists[i] == qs[i].items
  {
    lists := [];
    for i := 0 to |qs|
      invariant |lists| == i
      invariant forall k :: 0 <= k < i ==> lists[k] == qs[k].items
    {
      var s := qs[i].Snapshot();
      lists := lists + [s];
    }
  }

  /**
   * `run_MWMT`: `numThread` triples of queues, one ThreadedWS recording into
   * each triple, then a snapshot of every queue. `futuresWs` is the feed URL
   * read from the configuration file.
   */
  method RunMWMT(futuresWs: string, ticker: string, timeout: int, numThread: nat, deliveries: seq<seq<Delivery>>)
    returns (updateIdsL: seq<seq<Json>>, clientTimestampsL: seq<seq<int>>, delaysL: seq<seq<int>>)
    requires |deliveries| == numThread
    ensures |updateIdsL| == numThread && |clientTimestampsL| == numThread && |delaysL| == numThread
    ensures forall i :: 0 <= i < numThread ==>
              Columns(updateIdsL[i], delaysL[i], clientTimestampsL[i]) == Feed(Callback, Empty, deliveries[i]).cols
  {
    var timeQs := NewQueues<int>(numThread);
    var delayQs := NewQueues<int>(numThread);
    var updateQs := NewQueues<Json>(numThread);
    assert forall j, k :: 0 <= j < numThread && 0 <= k < numThread ==> timeQs[j] != delayQs[k];
    var threads: seq<ThreadedWS> := [];
    for i := 0 to numThread
      invariant |threads| == i
      invariant forall k :: 0 <= k < numThread ==> fresh(timeQs[k]) && fresh(delayQs[k]) && fresh(updateQs[k])
      invariant forall k :: 0 <= k < i ==>
                  ColumnsOf(updateQs[k], delayQs[k], timeQs[k]) == Feed(Callback, Empty, deliveries[k]).cols
      invariant forall k :: i <= k < numThread ==> ColumnsOf(updateQs[k], delayQs[k], timeQs[k]) == Empty
    {
      var thr := new ThreadedWS(futuresWs, ticker, timeQs[i], delayQs[i], updateQs[i]);
      thr.RunForever(deliveries[i]);
      threads := threads + [thr];
    }
    clientTimestampsL := SnapshotAll(timeQs);
    delaysL := SnapshotAll(delayQs);
    updateIdsL := SnapshotAll(updateQs);
  }

  // ---------------------------------------------------------------------------
  // run_MWST

  /** The socket indices of every `create_task` call the loop of `run_MWST` makes, as written. */
  ghost function Created(n: nat): seq<nat>
  {
    if n == 0 then [] else Created(n - 1) + Range(n)
  }

  /**
   * The loop of `run_MWST` as written: iteration `i` appends socket `i` and
   * then rebuilds `tasks` with a new task for every socket so far. `tasks`
   * ends with one task per socket, but every `create_task` call schedules a
   * connect, and `created` lists them all.
   */
  method CreateTasksAsWritten(numCoro: nat) returns (tasks: seq<nat>, created: seq<nat>)
    ensures tasks == Range(numCoro)
    ensures created == Created(numCoro)
  {
    var sockets: seq<nat> := [];
    tasks, created := [], [];
    for i := 0 to numCoro
      invariant sockets == Range(i)
      invariant tasks == Range(i)
      invariant created == Created(i)
    {
      sockets := sockets + [i];
      tasks := [];
      for k := 0 to |sockets|
        invariant tasks == Range(k)
      {
        tasks := tasks + [sockets[k]];
      }
      created := created + tasks;
    }
  }

  lemma {:induction false} RangeCount(n: nat, j: nat)
    ensures multiset(Range(n))[j] == if j < n then 1 else 0
  {
    if n > 0 {
      assert Range(n) == Range(n - 1) + [n - 1];
      RangeCount(n - 1, j);
    } else {
      assert Range(0) == [];
    }
  }

  /**
   * As written, socket `j` of `numCoro` is connected `numCoro - j` times:
   * socket 0 once per socket, while only the last `tasks` list is awaited
   * and cancelled.
   */
  lemma {:induction false} CreatedCount(n: nat, j: nat)
    requires j < n
    ensures multiset(Created(n))[j] == n - j
  {
    assert multiset(Created(n)) == multiset(Created(n - 1)) + multiset(Range(n));
    RangeCount(n, j);
    if j < n - 1 {
      CreatedCount(n - 1, j);
    } else {
      CreatedLacks(n - 1, j);
    }
  }

  /** As written, the loop makes n (n + 1) / 2 tasks for `n` sockets. */
  lemma {:induction false} CreatedLength(n: nat)
    ensures 2 * |Created(n)| == n * (n + 1)
  {
    if n > 0 {
      CreatedLength(n - 1);
      assert |Created(n)| == |Created(n - 1)| + n;
      assert (n - 1) * n + 2 * n == n * (n + 1);
    }
  }

  lemma {:induction false} CreatedLacks(n: nat, j: nat)
    requires n <= j
    ensures multiset(Created(n))[j] == 0
  {
    if n > 0 {
      assert multiset(Created(n)) == multiset(Created(n - 1)) + multiset(Range(n));
      RangeCount(n, j);
      CreatedLacks(n - 1, j);
    }
  }

  /** The evidently intended loop: make the sockets, then one task per socket, once. */
  method CreateTasksOnce(numCoro: nat) returns (tasks: seq<nat>, created: seq<nat>)
    ensures tasks == Range(numCoro) && created == tasks
    ensures forall j :: 0 <= j < numCoro ==> multiset(created)[j] == 1
  {
    var sockets: seq<nat> := [];
    for i := 0 to numCoro
      invariant sockets == Range(i)
    {
      sockets := sockets + [i];
    }
    tasks := [];
    for k := 0 to |sockets|
      invariant tasks == Range(k)
    {
      tasks := tasks + [sockets[k]];
    }
    created := tasks;
    forall j | 0 <= j < numCoro ensures multiset(created)[j] == 1 {
      RangeCount(numCoro, j);
    }
  }

  /** No two sockets share a queue. */
  ghost predicate Separate(a: AsyncWSv1, b: AsyncWSv1)
  {
    && a.updateIds != b.updateIds
    && a.delays != b.delays && a.delays != b.clientTimestamps
    && a.clientTimestamps != b.delays && a.clientTimestamps != b.clientTimestamps
  }

  ghost predicate SeparateAll(sockets: seq<AsyncWSv1>)
  {
    && (forall i :: 0 <= i < |sockets| ==> sockets[i].Valid())
    && (forall i, j :: 0 <= i < |sockets| && 0 <= j < |sockets| && i != j ==> Separate(sockets[i], sockets[j]))
  }

  ghost function Queues(sockets: seq<AsyncWSv1>): set<object>
  {
    (set s | s in sockets :: s.updateIds as object)
    + (set s | s in sockets :: s.delays as object)
    + (set s | s in sockets :: s.clientTimestamps as object)
  }

  /** `async_sockets.append(AsyncWSv1(ticker))`, `numCoro` times. */
  method MakeSockets(ticker: string, numCoro: nat) returns (sockets: seq<AsyncWSv1>)
    ensures |sockets| == numCoro && SeparateAll(sockets)
    ensures forall i :: 0 <= i < numCoro ==>
              fresh(sockets[i].updateIds) && fresh(sockets[i].delays) && fresh(sockets[i].clientTimestamps)
    ensures forall i :: 0 <= i < numCoro ==> sockets[i].Cols() == Empty
  {
    sockets := [];
    for i := 0 to numCoro
      invariant |sockets| == i && SeparateAll(sockets)
      invariant forall k :: 0 <= k < i ==>
                  fresh(sockets[k].updateIds) && fresh(sockets[k].delays) && fresh(sockets[k].clientTimestamps)
      invariant forall k :: 0 <= k < i ==> sockets[k].Cols() == Empty
    {
      var ws := new AsyncWSv1(ticker);
      sockets := sockets + [ws];
    }
  }

  /**
   * `gather(*tasks)` over one connect task per socket (`tasks` names the
   * socket of each task), each run over the messages its stream delivered;
   * `fault` is the exception of the lowest-numbered socket that raised one,
   * which `gather` would propagate.
   */
  method ConnectAll(sockets: seq<AsyncWSv1>, tasks: seq<nat>, deliveries: seq<seq<Delivery>>) returns (fault: Option<Fault>)
    requires SeparateAll(sockets) && |deliveries| == |sockets| && tasks == Range(|sockets|)
    modifies Queues(sockets)
    ensures forall i :: 0 <= i < |sockets| ==> sockets[i].Cols() == Feed(Stream, old(sockets[i].Cols()), deliveries[i]).cols
    ensures fault.None? <==> forall i :: 0 <= i < |sockets| ==> Feed(Stream, old(sockets[i].Cols()), deliveries[i]).outcome.Pass?
  {
    fault := None;
    for i := 0 to |sockets|
      invariant forall k :: 0 <= k < i ==> sockets[k].Cols() == Feed(Stream, old(sockets[k].Cols()), deliveries[k]).cols
      invariant forall k :: i <= k < |sockets| ==> sockets[k].Cols() == old(sockets[k].Cols())
      invariant fault.None? <==> forall k :: 0 <= k < i ==> Feed(Stream, old(sockets[k].Cols()), deliveries[k]).outcome.Pass?
    {
      var ws := sockets[tasks[i]];
      assert ws in sockets;
      var outcome := ws.Connect(deliveries[tasks[i]]);
      if outcome.Fail? && fault.None? {
        fault := Some(outcome.fault);
      }
    }
  }

  /** One socket's `get_data()` result: (update ids, client timestamps, delays). */
  datatype SocketData = SocketData(updateIds: seq<Json>, clientTimestamps: seq<int>, delays: seq<int>)

  /** `asyncio.gather(*[ws.get_data() for ws in async_sockets])`: results in socket order. */
  method GatherData(sockets: seq<AsyncWSv1>) returns (results: seq<SocketData>)
    requires SeparateAll(sockets)
    modifies Queues(sockets)
    ensures |results| == |sockets|
    ensures forall i :: 0 <= i < |sockets| ==>
              var c := old(sockets[i].Cols());
              results[i] == SocketData(c.updateIds, c.clientTimestamps, c.delays) && sockets[i].Cols() == Empty
  {
    results := [];
    for i := 0 to |sockets|
      invariant |results| == i
      invariant forall k :: 0 <= k < i ==>
                  var c := old(sockets[k].Cols());
                  results[k] == SocketData(c.updateIds, c.clientTimestamps, c.delays) && sockets[k].Cols() == Empty
      invariant forall k :: i <= k < |sockets| ==> sockets[k].Cols() == old(sockets[k].Cols())
    {
      assert sockets[i] in sockets;
      var ids, timestamps, delayList := sockets[i].GetData();
      results := results + [SocketData(ids, timestamps, delayList)];
    }
  }

  /**
   * The transposition at the end of `run_MWST`: element `i` of each column
   * list comes from `results[i]`, so every column has one list per socket,
   * in socket order.
   */
  method Transpose(results: seq<SocketData>)
    returns (updateIds: seq<seq<Json>>, clientTimestamps: seq<seq<int>>, delays: seq<seq<int>>)
    ensures |updateIds| == |results| && |clientTimestamps| == |results| && |delays| == |results|
    ensures forall i :: 0 <= i < |results| ==>
              updateIds[i] == results[i].updateIds
              && clientTimestamps[i] == results[i].clientTimestamps
              && delays[i] == results[i].delays
  {
    updateIds, clientTimestamps, delays := [], [], [];
    for i := 0 to |results|
      invariant |updateIds| == i && |clientTimestamps| == i && |delays| == i
      invariant forall k :: 0 <= k < i ==>
                  updateIds[k] == results[k].updateIds
                  && clientTimestamps[k] == results[k].clientTimestamps
                  && delays[k] == results[k].delays
    {
      updateIds := updateIds + [results[i].updateIds];
      clientTimestamps := clientTimestamps + [results[i].clientTimestamps];
      delays := delays + [results[i].delays];
    }
  }

  /**
   * `run_MWST` with one connect task per socket. The connect loops never end
   * by themselves, so the wait ends by the timeout unless a loop raised, in
   * which case the exception escapes `wait_for` and the run; after the
   * timeout every socket's queues are drained and transposed.
   */
  method RunMWST(ticker: string, timeout: int, numCoro: nat, deliveries: seq<seq<Delivery>>) returns (r: RunResult)
    requires |deliveries| == numCoro
    ensures r.Raised? <==> exists i :: 0 <= i < numCoro && Feed(Stream, Empty, deliveries[i]).outcome.Fail?
    ensures !r.NoData?
    ensures r.Data? ==>
              && |r.updateIds| == numCoro && |r.clientTimestamps| == numCoro && |r.delays| == numCoro
              && forall i :: 0 <= i < numCoro ==>
                   Columns(r.updateIds[i], r.delays[i], r.clientTimestamps[i]) == Feed(Stream, Empty, deliveries[i]).cols
  {
    var sockets := MakeSockets(ticker, numCoro);
    var tasks, _ := CreateTasksOnce(numCoro);
    var fault := ConnectAll(sockets, tasks, deliveries);
    if fault.Some? {
      return Raised(fault.value);
    }
    var results := GatherData(sockets);
    var updateIds, clientTimestamps, delays := Transpose(results);
    r := Data(updateIds, clientTimestamps, delays);
  }

  // ---------------------------------------------------------------------------
  // run_SWST

  /**
   * `run_SWST`: one AsyncWSv2 with `numSubs` subscriptions. Subscription
   * `idx` reads its own GET_PROPERTY reply `replies[idx]` and then runs its
   * receive loop over `frames[idx]` with the frame filter `filter`.
   * `gather` of no coroutines completes at once, so with no subscription
   * the timeout branch is not taken and the run returns `None`; a
   * subscription that raised ends the run with its exception; otherwise the
   * wait times out and `get_data()` is returned.
   */
  method RunSWST(futuresWs: string, ticker: string, timeout: int, numSubs: nat, replies: seq<Json>, filter: Filter,
                 frames: seq<seq<Delivery>>)
    returns (r: RunResult)
    requires |replies| == numSubs && |frames| == numSubs
    ensures r.NoData? <==> numSubs == 0
    ensures r.Raised? <==> exists i :: 0 <= i < numSubs && SubscribeRun(replies[i], filter, Empty, frames[i]).outcome.Fail?
    ensures r.Data? ==>
              && |r.updateIds| == numSubs && |r.clientTimestamps| == numSubs && |r.delays| == numSubs
              && forall i :: 0 <= i < numSubs ==>
                   Columns(r.updateIds[i], r.delays[i], r.clientTimestamps[i]) == SubscribeRun(replies[i], filter, Empty, frames[i]).cols
  {
    var socket := new AsyncWSv2(futuresWs, ticker, numSubs);
    if numSubs == 0 {
      return NoData;
    }
    var fault: Option<Fault> := None;
    for idx := 0 to numSubs
      invariant fresh(socket.Repr())
      invariant forall k :: 0 <= k < idx ==>
                  socket.ColsAt(k) == SubscribeRun(replies[k], filter, Empty, frames[k]).cols
      invariant forall k :: idx <= k < numSubs ==> socket.ColsAt(k) == Empty
      invariant fault.None? <==> forall k :: 0 <= k < idx ==> SubscribeRun(replies[k], filter, Empty, frames[k]).outcome.Pass?
    {
      assert socket.updateIdsL[idx] in socket.updateIdsL && socket.delaysL[idx] in socket.delaysL;
      assert socket.clientTimestampsL[idx] in socket.clientTimestampsL;
      assert socket.updateIdsL[idx] in socket.Repr() && socket.delaysL[idx] in socket.Repr();
      assert socket.clientTimestampsL[idx] in socket.Repr();
      var outcome := socket.Subscribe(idx, replies[idx], filter, frames[idx]);
      if outcome.Fail? && fault.None? {
        fault := Some(outcome.fault);
      }
    }
    if fault.Some? {
      return Raised(fault.value);
    }
    var updateIds, clientTimestamps, delays := socket.GetData();
    r := Data(updateIds, clientTimestamps, delays);
  }
}
