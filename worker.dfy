/** The OpenSky background worker: the TAK client it sends through, the
    OpenSky API it polls, and the service's poll loop and disposal. */
module OpenSkyWorker {
  import opened DotNet
  import opened CursorOnTarget
  import opened OpenSkyMapping

  /** What `GetStatesAsync` gives back: the state vectors, or an exception. */
  datatype FetchResponse = Fetched(states: seq<StateVector>) | FetchFailed

  /** How a tick ends: the loop goes on, or an exception escaped the loop body
      and ends the worker. */
  datatype TickOutcome = Continued | Faulted

  /** How the worker ends: stopped by the cancellation token, or by an
      exception. */
  datatype RunOutcome = Cancelled | Crashed

  /** The TAK client as the worker sees it: a connection flag kept by the
      client's own reconnect logic, and a log of what was sent. */
  class TakClient {
    var isConnected: bool
    var connectCalls: nat
    var sent: seq<Message>
    var disposeCalls: nat

    constructor ()
      ensures !isConnected && connectCalls == 0 && sent == [] && disposeCalls == 0
    {
      isConnected, connectCalls, sent, disposeCalls := false, 0, [], 0;
    }

    /** Starts connecting in the background; the flag changes later. */
    method Connect()
      modifies this`connectCalls
      ensures connectCalls == old(connectCalls) + 1
    {
      connectCalls := connectCalls + 1;
    }

    method Send(m: Message)
      modifies this`sent
      ensures sent == old(sent) + [m]
    {
      sent := sent + [m];
    }

    /** The client's own reconnect logic setting its connection flag; the
        worker only reads the flag. */
    method SetConnected(connected: bool)
      modifies this`isConnected
      ensures isConnected == connected
    {
      isConnected := connected;
    }

    method Dispose()
      modifies this`disposeCalls
      ensures disposeCalls == old(disposeCalls) + 1
    {
      disposeCalls := disposeCalls + 1;
    }
  }

  /** The OpenSky REST API: `feed(k)` is the answer to the k-th query. */
  class OpenSkyApi {
    const feed: nat -> FetchResponse
    var calls: nat

    constructor (feed: nat -> FetchResponse)
      ensures this.feed == feed && calls == 0
    {
      this.feed := feed;
      calls := 0;
    }

    method GetStates() returns (response: FetchResponse)
      modifies this`calls
      ensures response == feed(old(calls))
      ensures calls == old(calls) + 1
    {
      response := feed(calls);
      calls := calls + 1;
    }
  }

  /** What one tick sends, given the connection flag it reads and the answer
      its query would get. */
  function TickSends(connected: bool, response: FetchResponse, interval: Int32): seq<Message> {
    if connected && response.Fetched? then Messages(response.states, interval) else []
  }

  /** The batch one tick sends messages for, if any: the answer to its
      query, when the client is connected and the query succeeds. */
  function TickBatch(connected: bool, response: FetchResponse): seq<seq<StateVector>> {
    if connected && response.Fetched? then [response.states] else []
  }

  /** The messages sent for a sequence of fetched batches, batch after batch. */
  function SentFor(batches: seq<seq<StateVector>>, interval: Int32): seq<Message> {
    if batches == [] then []
    else SentFor(batches[..|batches| - 1], interval) + Messages(batches[|batches| - 1], interval)
  }

  /** Why a run stopped: the cancellation token (after the last tick, or
      during a delay that never elapses), a failed query, or a delay the
      runtime rejects. */
  datatype Stop = Cancellation | FetchError | DelayError

  /** A run: the batches it fetched and sent messages for, the number of
      queries made so far, and why it stopped. */
  datatype RunResult = RunResult(batches: seq<seq<StateVector>>, calls: nat, stop: Stop)

  /** The ticks of a run, one per entry of `connectivity` (the connection flag
      read at that tick), starting with `calls` queries already made; each
      tick that does not fail is followed by a delay of `interval`
      milliseconds. */
  function RunTicks(feed: nat -> FetchResponse, calls: nat, connectivity: seq<bool>, interval: Int32): (r: RunResult)
    ensures calls <= r.calls
    decreases |connectivity|
  {
    if connectivity == [] then RunResult([], calls, Cancellation)
    else
      var response := feed(calls);
      if connectivity[0] && response.FetchFailed? then RunResult([], calls + 1, FetchError)
      else
        var batch := TickBatch(connectivity[0], response);
        var next := calls + (if connectivity[0] then 1 else 0);
        match Delay(interval)
        case Throws => RunResult(batch, next, DelayError)
        case WaitsForever => RunResult(batch, next, Cancellation)
        case Elapses =>
          var rest := RunTicks(feed, next, connectivity[1..], interval);
          RunResult(batch + rest.batches, rest.calls, rest.stop)
  }

  /** `batches` followed by the run `r`. */
  function Prepend(batches: seq<seq<StateVector>>, r: RunResult): RunResult {
    RunResult(batches + r.batches, r.calls, r.stop)
  }

  /** The run from tick `i` is tick `i` and its delay followed by the run from
      tick `i + 1`, unless the query of tick `i` fails or its delay does not
      elapse; `run` stays the batches sent so far followed by the rest of the
      run. */
  lemma RunTicksStep(run: RunResult, done: seq<seq<StateVector>>, feed: nat -> FetchResponse, calls: nat,
                     connectivity: seq<bool>, interval: Int32, i: nat)
    requires i < |connectivity|
    requires run == Prepend(done, RunTicks(feed, calls, connectivity[i..], interval))
    ensures var response := feed(calls);
            var next := calls + (if connectivity[i] then 1 else 0);
            var sent := done + TickBatch(connectivity[i], response);
            if connectivity[i] && response.FetchFailed? then run == RunResult(done, next, FetchError)
            else match Delay(interval)
              case Throws => run == RunResult(sent, next, DelayError)
              case WaitsForever => run == RunResult(sent, next, Cancellation)
              case Elapses => run == Prepend(sent, RunTicks(feed, next, connectivity[i + 1..], interval))
  {
    assert connectivity[i..][1..] == connectivity[i + 1..];
    var response := feed(calls);
    var next := calls + (if connectivity[i] then 1 else 0);
    var batch := TickBatch(connectivity[i], response);
    if !(connectivity[i] && response.FetchFailed?) {
      if Delay(interval) == Elapses {
        var rest := RunTicks(feed, next, connectivity[i + 1..], interval);
        assert RunTicks(feed, calls, connectivity[i..], interval) == Prepend(batch, rest);
        assert done + (batch + rest.batches) == (done + batch) + rest.batches;
      } else {
        assert RunTicks(feed, calls, connectivity[i..], interval).batches == batch;
      }
    } else {
      assert done + [] == done;
    }
  }

  /** Sending one more tick's batch appends that tick's messages. */
  lemma SentForStep(done: seq<seq<StateVector>>, connected: bool, response: FetchResponse, interval: Int32)
    ensures SentFor(done + TickBatch(connected, response), interval) ==
              SentFor(done, interval) + TickSends(connected, response, interval)
  {
    var batch := TickBatch(connected, response);
    if batch != [] {
      assert (done + batch)[..|done + batch| - 1] == done;
    } else {
      assert done + batch == done;
    }
  }

  lemma AppendAssoc<T>(a: seq<T>, b: seq<T>, c: seq<T>)
    ensures (a + b) + c == a + (b + c)
  {
  }

  /** The TAK client's log after one more tick: what was sent for the
      batches so far, then that tick's messages. */
  lemma SentAfterTick(base: seq<Message>, before: seq<Message>, after: seq<Message>,
                      done: seq<seq<StateVector>>, connected: bool, response: FetchResponse, interval: Int32)
    requires before == base + SentFor(done, interval)
    requires after == before + TickSends(connected, response, interval)
    ensures after == base + SentFor(done + TickBatch(connected, response), interval)
    ensures connected && response.FetchFailed? ==> after == before
  {
    SentForStep(done, connected, response, interval);
    AppendAssoc(base, SentFor(done, interval), TickSends(connected, response, interval));
  }

  /** The TAK client's log after the record at `i` is handled: what was
      sent for the records before it, then that record's message if any. */
  lemma SentAfterRecord(base: seq<Message>, before: seq<Message>, after: seq<Message>,
                        states: seq<StateVector>, i: nat, interval: Int32)
    requires i < |states|
    requires before == base + Messages(states[..i], interval)
    requires after == before + (if Usable(states[i]) then [MapState(states[i], interval).value] else [])
    ensures after == base + Messages(states[..i + 1], interval)
  {
    MessagesSnoc(states[..i], states[i], interval);
    assert states[..i + 1] == states[..i] + [states[i]];
    AppendAssoc(base, Messages(states[..i], interval),
                if Usable(states[i]) then [MapState(states[i], interval).value] else []);
  }

  /** The number of ticks that find the client connected. */
  function ConnectedTicks(connectivity: seq<bool>): (n: nat)
    ensures n <= |connectivity|
  {
    if connectivity == [] then 0
    else (if connectivity[0] then 1 else 0) + ConnectedTicks(connectivity[1..])
  }

  /** A run queries OpenSky at most once per connected tick, and never
      otherwise; a run that is cancelled made exactly one query per connected
      tick, unless an infinite delay cut it short. */
  lemma {:induction false} RunQueriesOnlyWhenConnected(feed: nat -> FetchResponse, calls: nat, connectivity: seq<bool>,
                                                        interval: Int32)
    ensures var r := RunTicks(feed, calls, connectivity, interval);
            && r.calls <= calls + ConnectedTicks(connectivity)
            && (r.stop == Cancellation && interval != -1 ==> r.calls == calls + ConnectedTicks(connectivity))
    decreases |connectivity|
  {
    if connectivity != [] {
      RunQueriesOnlyWhenConnected(feed, calls + (if connectivity[0] then 1 else 0), connectivity[1..], interval);
    }
  }

  /** A tick whose query and delay both succeed adds its batch in front of
      the rest of the run. */
  lemma RunTicksUnfold(feed: nat -> FetchResponse, calls: nat, connectivity: seq<bool>, interval: Int32)
    requires connectivity != [] && Delay(interval) == Elapses
    requires !(connectivity[0] && feed(calls).FetchFailed?)
    ensures var next := calls + (if connectivity[0] then 1 else 0);
            RunTicks(feed, calls, connectivity, interval) ==
              Prepend(TickBatch(connectivity[0], feed(calls)), RunTicks(feed, next, connectivity[1..], interval))
  {
  }

  /** A run makes one query per batch it sends for, plus the failed one when
      a failed query stopped it, and that query is its last. */
  lemma {:induction false} RunCallsPerBatch(feed: nat -> FetchResponse, calls: nat, connectivity: seq<bool>,
                                            interval: Int32)
    ensures var r := RunTicks(feed, calls, connectivity, interval);
            && r.calls == calls + |r.batches| + (if r.stop == FetchError then 1 else 0)
            && (r.stop == FetchError ==> feed(r.calls - 1) == FetchFailed)
    decreases |connectivity|
  {
    if connectivity != [] && Delay(interval) == Elapses && !(connectivity[0] && feed(calls).FetchFailed?) {
      var next := calls + (if connectivity[0] then 1 else 0);
      RunCallsPerBatch(feed, next, connectivity[1..], interval);
      RunTicksUnfold(feed, calls, connectivity, interval);
    }
  }

  /** The k-th query of a run feeds the k-th batch sent. */
  lemma {:induction false} RunBatchesAreAnswers(feed: nat -> FetchResponse, calls: nat, connectivity: seq<bool>,
                                                interval: Int32)
    ensures var r := RunTicks(feed, calls, connectivity, interval);
            forall j :: 0 <= j < |r.batches| ==> feed(calls + j) == Fetched(r.batches[j])
    decreases |connectivity|
  {
    if connectivity != [] && Delay(interval) == Elapses && !(connectivity[0] && feed(calls).FetchFailed?) {
      var r := RunTicks(feed, calls, connectivity, interval);
      var next := calls + (if connectivity[0] then 1 else 0);
      var batch := TickBatch(connectivity[0], feed(calls));
      var rest := RunTicks(feed, next, connectivity[1..], interval);
      RunBatchesAreAnswers(feed, next, connectivity[1..], interval);
      RunTicksUnfold(feed, calls, connectivity, interval);
      assert r.batches == batch + rest.batches;
      assert next == calls + |batch|;
      forall j | 0 <= j < |r.batches|
        ensures feed(calls + j) == Fetched(r.batches[j])
      {
        if j < |batch| {
          assert r.batches[j] == feed(calls).states;
        } else {
          assert r.batches[j] == rest.batches[j - |batch|];
        }
      }
    }
  }

  /** A delay the runtime rejects is the only other way a run crashes, and a
      negative delay ends the run after its first tick: it is rejected when
      below -1, and never elapses when -1. */
  lemma {:induction false} RunNegativeInterval(feed: nat -> FetchResponse, calls: nat, connectivity: seq<bool>,
                                               interval: Int32)
    ensures var r := RunTicks(feed, calls, connectivity, interval);
            && (r.stop == DelayError <==>
                  interval < -1 && connectivity != [] && !(connectivity[0] && feed(calls).FetchFailed?))
            && (interval < 0 ==> r.calls <= calls + 1 && |r.batches| <= 1)
    decreases |connectivity|
  {
    if connectivity != [] && Delay(interval) == Elapses && !(connectivity[0] && feed(calls).FetchFailed?) {
      RunNegativeInterval(feed, calls + (if connectivity[0] then 1 else 0), connectivity[1..], interval);
    }
  }

  /** While the client stays disconnected, nothing is queried or sent, and
      the run is cancelled unless its first delay is rejected. */
  lemma {:induction false} RunDisconnected(feed: nat -> FetchResponse, calls: nat, connectivity: seq<bool>,
                                           interval: Int32)
    requires forall i :: 0 <= i < |connectivity| ==> !connectivity[i]
    ensures RunTicks(feed, calls, connectivity, interval) ==
              RunResult([], calls, if interval < -1 && connectivity != [] then DelayError else Cancellation)
  {
    if connectivity != [] && Delay(interval) == Elapses {
      assert forall i :: 0 <= i < |connectivity[1..]| ==> connectivity[1..][i] == connectivity[i + 1];
      RunDisconnected(feed, calls, connectivity[1..], interval);
    }
  }

  class OpenSkyService {
    const takClient: TakClient
    const openSkyClient: OpenSkyApi
    /** `opensky:interval`: milliseconds between polls, and also the number of
        seconds an event stays fresh. */
    const interval: Int32
    var disposed: bool

    /** The configuration reads and the DNS lookup are not modelled: the
        interval and the OpenSky answers are given. */
    constructor (interval: Int32, feed: nat -> FetchResponse)
      ensures fresh(takClient) && fresh(openSkyClient)
      ensures this.interval == interval && openSkyClient.feed == feed
      ensures !disposed
      ensures !takClient.isConnected && takClient.connectCalls == 0
      ensures takClient.sent == [] && takClient.disposeCalls == 0
      ensures openSkyClient.calls == 0
    {
      this.interval := interval;
      openSkyClient := new OpenSkyApi(feed);
      takClient := new TakClient();
      disposed := false;
    }

    /** One pass of the poll loop's body, without the delay: when the client
        is connected, query OpenSky and send one message per usable record, in
        order; otherwise only defer. A failed query is not caught. */
    method Tick() returns (outcome: TickOutcome)
      modifies takClient`sent, openSkyClient`calls
      ensures var response := openSkyClient.feed(old(openSkyClient.calls));
              && openSkyClient.calls == old(openSkyClient.calls) + (if takClient.isConnected then 1 else 0)
              && takClient.sent == old(takClient.sent) + TickSends(takClient.isConnected, response, interval)
              && (outcome == Faulted <==> takClient.isConnected && response.FetchFailed?)
    {
      outcome := Continued;
      if takClient.isConnected {
        var response := openSkyClient.GetStates();
        if response.FetchFailed? {
          outcome := Faulted;
          return;
        }
        SendBatch(response.states);
      }
    }

    /** The `foreach` over a fetched batch: each record is mapped inside its
        own `try`, so a record that cannot be mapped is skipped and the rest
        are still sent, in order. */
    method SendBatch(states: seq<StateVector>)
      modifies takClient`sent
      ensures takClient.sent == old(takClient.sent) + Messages(states, interval)
    {
      var i := 0;
      while i < |states|
        invariant 0 <= i <= |states|
        invariant takClient.sent == old(takClient.sent) + Messages(states[..i], interval)
      {
        ghost var before := takClient.sent;
        var mapped := MapState(states[i], interval);
        if mapped.Success? {
          takClient.Send(mapped.value);
        }
        SentAfterRecord(old(takClient.sent), before, takClient.sent, states, i, interval);
        i := i + 1;
      }
      assert states[..i] == states;
    }

    /** `ExecuteAsync` up to cancellation: connect once, then one tick per
        entry of `connectivity`, the connection flag the client's reconnect
        logic has set by that tick, each followed by the delay of `interval`
        milliseconds. */
    method Execute(connectivity: seq<bool>) returns (outcome: RunOutcome)
      modifies takClient`isConnected, takClient`connectCalls, takClient`sent, openSkyClient`calls
      ensures takClient.connectCalls == old(takClient.connectCalls) + 1
      ensures var r := RunTicks(openSkyClient.feed, old(openSkyClient.calls), connectivity, interval);
              && takClient.sent == old(takClient.sent) + SentFor(r.batches, interval)
              && openSkyClient.calls == r.calls
              && (outcome == Crashed <==> r.stop != Cancellation)
    {
      takClient.Connect();
      ghost var feed := openSkyClient.feed;
      ghost var run := RunTicks(feed, openSkyClient.calls, connectivity, interval);
      ghost var done: seq<seq<StateVector>> := [];
      var i := 0;
      while i < |connectivity|
        invariant 0 <= i <= |connectivity|
        invariant takClient.connectCalls == old(takClient.connectCalls) + 1
        invariant takClient.sent == old(takClient.sent) + SentFor(done, interval)
        invariant run == Prepend(done, RunTicks(feed, openSkyClient.calls, connectivity[i..], interval))
      {
        takClient.SetConnected(connectivity[i]);
        ghost var response := feed(openSkyClient.calls);
        ghost var before := takClient.sent;
        RunTicksStep(run, done, feed, openSkyClient.calls, connectivity, interval, i);
        var tick := Tick();
        SentAfterTick(old(takClient.sent), before, takClient.sent, done, connectivity[i], response, interval);
        if tick == Faulted {
          return Crashed;
        }
        done := done + TickBatch(connectivity[i], response);
        var delay := Delay(interval);
        if delay == Throws {
          return Crashed;
        } else if delay == WaitsForever {
          return Cancelled;
        }
        i := i + 1;
      }
      assert connectivity[i..] == [] && done + [] == done;
      outcome := Cancelled;
    }

    /** `Dispose(bool disposing)`: the first call disposes the TAK client when
        `disposing`; every later call changes nothing. */
    method DisposeCore(disposing: bool)
      modifies this`disposed, takClient`disposeCalls
      ensures disposed
      ensures takClient.disposeCalls ==
                old(takClient.disposeCalls) + (if !old(disposed) && disposing then 1 else 0)
    {
      if !disposed {
        if disposing {
          takClient.Dispose();
        }
        disposed := true;
      }
    }

    /** `Dispose()`: idempotent; the TAK client is disposed at most once over
        any number of calls. */
    method Dispose()
      modifies this`disposed, takClient`disposeCalls
      ensures disposed
      ensures takClient.disposeCalls == old(takClient.disposeCalls) + (if old(disposed) then 0 else 1)
    {
      DisposeCore(true);
    }
  }
}
