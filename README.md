# opensky2cot: the OpenSky-to-TAK bridge, modelled in Dafny

opensky2cot polls the OpenSky Network for the state vectors of the aircraft
it can see and forwards each one to a TAK server as a Cursor-on-Target (CoT)
event. All of its logic is in the `OpenSkyService` background worker. That
worker does four things:

- it connects the TAK client once;
- on every pass of its poll loop it checks the client's connection flag;
- when connected, it fetches the current batch of state vectors and maps
  each record to a CoT message inside its own `try`, sending the messages
  that map;
- on disposal it disposes the TAK client at most once.

The project has five modules:

- `Wrappers` holds `Option` and `Result`.
- `CursorOnTarget` holds the CoT message, event, point, detail and contact.
- `DotNet` holds the parts of the .NET base library the worker relies on:
  - `Int32`;
  - `DateTime` as whole seconds since the Unix epoch, with the range check of
    `DateTime.AddSeconds`;
  - what `Task.Delay` does with its argument: elapse, wait forever, or throw;
  - `String.Trim()` over the whitespace set of `Char.IsWhiteSpace`.
- `OpenSkyMapping` holds the pure part:
  - `MapState`, the body of the per-record `try`;
  - `LookupType`;
  - `Messages`, the messages sent for a fetched batch;
  - lemmas about these three.
- `OpenSkyWorker` holds the stateful part, as classes:
  - `TakClient`, with its connection flag and a log of the messages sent;
  - `OpenSkyApi`, whose `k`-th query gets the answer `feed(k)`;
  - `OpenSkyService`, with `Tick` (one pass of the poll loop), `SendBatch`
    (the `foreach` over a batch), `Execute` (the whole loop up to
    cancellation) and the two `Dispose` methods.

`Execute` is proved against the function `RunTicks`. `RunTicks` describes a
run tick by tick and says which batches a run sends messages for. Lemmas
about `RunTicks` state what a run queries and sends.

Five behaviours of the code are kept as written:

- **Fetch failures end the worker.** A failed OpenSky query ends the worker,
  not just the current tick: `GetStatesAsync` at `OpenSkyService.cs:61` sits
  outside every `try`, so its exception leaves `ExecuteAsync`. The model has
  `Tick` return `Faulted` and `Execute` return `Crashed`; `RunTicks` stops
  such a run with `FetchError`.
- **A negative interval ends the loop after its first tick.** The delay at
  `OpenSkyService.cs:117` rejects an interval below -1 by throwing, outside
  every `try`, so the worker crashes (`DelayError`). An interval of exactly
  -1 is an infinite wait, so no second tick happens before cancellation.
- **The time comes before the position check.** The event time is computed
  from `TimePosition` before the latitude/longitude check. So a record with no
  position time is skipped by the `(int)` cast throwing, which is caught, and
  not by the `continue`.
- **The interval quirk is kept.** The stale time is the event time plus
  `_interval` *seconds*, though `_interval` is configured in milliseconds and
  used as milliseconds by the delay.
- **The callsign fallback is null-only.** A blank but non-null callsign
  trims to the empty string.

## Model

| member | source | states |
|---|---|---|
| OpenSkyMapping.MapState | OpenSkyService.cs:66-101 | a record yields a message exactly when it has a position time, a latitude and a longitude (so neither `AddSeconds` can fail for a 32-bit position time); no position time is the caught cast failure; a missing coordinate is the `continue` |
| OpenSkyMapping.MapStateFields | OpenSkyService.cs:73-101 | every event built has version "2.0", uid "opensky-" + icao24, how "m-p", type "a-n-A-C-F", time = start = epoch + position time, stale − start = interval, lat/lon copied, hae = altitude or 9999999.0, and the trimmed callsign |
| OpenSkyMapping.LookupTypeIsPlaceholder | OpenSkyService.cs:121-125 | the CoT type is "a-n-A-C-F" for every ICAO address |
| OpenSkyMapping.UidIdentifiesAircraft | OpenSkyService.cs:78 | two produced events have the same uid if and only if they come from the same ICAO address |
| OpenSkyMapping.CallsignFallback | OpenSkyService.cs:71 | a null callsign falls back to the trimmed ICAO address; a non-null one is trimmed and used, and it gives "" exactly when it is blank |
| OpenSkyMapping.CallsignTrimmed | OpenSkyService.cs:96 | the contact callsign has no surrounding whitespace: trimming it again changes nothing |
| OpenSkyMapping.Messages | OpenSkyService.cs:62-110 | a batch sends at most one message per record; which ones is stated by the lemmas below |
| OpenSkyMapping.MessagesAppend | OpenSkyService.cs:62-110 | processing a batch in two parts sends the first part's messages, then the second's |
| OpenSkyMapping.MessagesSnoc | OpenSkyService.cs:62-110 | one more record appends exactly its message when it is usable, and nothing otherwise |
| OpenSkyMapping.MessagesSkipUnusable | OpenSkyService.cs:68-69 | an unusable record sends nothing, and the records after it are still sent, in order |
| OpenSkyMapping.MessagesOfUsable | OpenSkyService.cs:62-110 | a batch of usable records sends one message per record, the i-th message being the i-th record's |
| OpenSkyMapping.MessagesFromBatch | OpenSkyService.cs:62-110 | every message sent for a batch is the message of one of its records |
| OpenSkyMapping.MessagesNoneUsable | OpenSkyService.cs:68-69 | a batch with no usable record sends nothing |
| DotNet.AddSeconds | OpenSkyService.cs:66 | adding seconds to a DateTime succeeds exactly when the result stays within the DateTime range, and then gives the sum |
| DotNet.Delay | OpenSkyService.cs:117 | a delay below -1 ms throws, -1 waits until cancellation, any other value elapses |
| DotNet.Trim | OpenSkyService.cs:71 | trimming never lengthens a string; what it removes is stated by `TrimSpec` and `TrimUnique` |
| DotNet.TrimSpec | OpenSkyService.cs:71 | the trimmed string is a slice with only whitespace around it, and it neither starts nor ends with whitespace |
| DotNet.TrimUnique | OpenSkyService.cs:71 | that description determines the trimmed string: any string meeting it is `Trim`'s result |
| DotNet.TrimBlank | OpenSkyService.cs:71 | a string trims to "" if and only if it is empty or all whitespace |
| DotNet.TrimIdempotent | OpenSkyService.cs:71 | trimming twice is trimming once |
| OpenSkyWorker.TakClient.Connect | OpenSkyService.cs:53 | a connect call is counted; the connection flag is left to the client |
| OpenSkyWorker.TakClient.SetConnected | OpenSkyService.cs:59 | the client's reconnect logic sets the flag that each tick reads |
| OpenSkyWorker.TakClient.Send | OpenSkyService.cs:103 | sending appends the message to the client's log |
| OpenSkyWorker.TakClient.Dispose | OpenSkyService.cs:133 | a dispose call is counted |
| OpenSkyWorker.OpenSkyApi.GetStates | OpenSkyService.cs:61 | the k-th query gets the k-th answer of the feed |
| OpenSkyWorker.OpenSkyService.constructor | OpenSkyService.cs:24-50 | a new service holds fresh, unconnected clients, the given interval, and is not disposed |
| OpenSkyWorker.OpenSkyService.Tick | OpenSkyService.cs:59-115 | a disconnected tick queries nothing and sends nothing; a connected tick queries once and appends exactly the batch's messages, in order; it faults exactly when that query fails |
| OpenSkyWorker.OpenSkyService.SendBatch | OpenSkyService.cs:62-110 | the log grows by exactly `Messages` of the batch: one message per usable record, in batch order, with the unusable records skipped |
| OpenSkyWorker.OpenSkyService.Execute | OpenSkyService.cs:51-119 | connects once, then the log grows by the messages of exactly the batches `RunTicks` fetches (ticks and delays alike), the query count is the run's, and the worker crashes exactly when the run stops on a failed query or a rejected delay |
| OpenSkyWorker.RunTicks | OpenSkyService.cs:55-118 | a run's query count never drops below the count it starts with; its batches and how it stops are described by the lemmas below |
| OpenSkyWorker.RunQueriesOnlyWhenConnected | OpenSkyService.cs:55-118 | a run queries at most once per connected tick, and exactly once per connected tick when it is cancelled without an infinite delay |
| OpenSkyWorker.RunBatchesAreAnswers | OpenSkyService.cs:59-62 | the j-th batch sent for is the answer to the j-th query of the run |
| OpenSkyWorker.RunCallsPerBatch | OpenSkyService.cs:59-62 | a run makes one query per batch it sends for, plus one more exactly when a failed query stopped it, and that last query is the one that failed |
| OpenSkyWorker.RunNegativeInterval | OpenSkyService.cs:117 | a run stops on a rejected delay exactly when the interval is below -1 and its first tick did not fail; with any negative interval it makes at most one query and sends for at most one batch |
| OpenSkyWorker.RunDisconnected | OpenSkyService.cs:112-115 | while the client stays disconnected, nothing is queried or sent, and the run is cancelled unless the interval is below -1 |
| OpenSkyWorker.OpenSkyService.DisposeCore | OpenSkyService.cs:127-138 | afterwards the service is disposed; the TAK client is disposed only by the first call, and only when `disposing` |
| OpenSkyWorker.OpenSkyService.Dispose | OpenSkyService.cs:140-145 | idempotent: the first call disposes the TAK client once, and every later call leaves it alone |

## Left out

- `Program.cs` is not part of this model. It is host, configuration and
  logging setup.
- The constructor's configuration reads and DNS lookup
  (`OpenSkyService.cs:28-49`) are left out. The interval and the OpenSky
  answers are parameters of the constructor, and the OpenSky credentials play
  no part.
- The TAK client's internals are left out: connecting, reconnecting with
  backoff, and the transport behind `Send`. The connection flag the client
  keeps is an input to each tick, given as `connectivity`.
- The network fetch is left out. `GetStatesAsync` is the `feed` function of
  `OpenSkyApi`.
- A null `States` in a successful response is not modelled. In the code the
  `foreach` at `OpenSkyService.cs:62` runs outside every `try`, so such a
  response throws and ends the worker, as a failed query does.
- `Message.ToXmlString()` is left out. The log holds messages, not their XML
  encoding.
- `async`/`await`, the timing of `Task.Delay` and the `CancellationToken`
  are left out. A run has one tick per entry of `connectivity` and, unless
  something stops it earlier, ends as cancelled after the last entry.
- Logging and `GC.SuppressFinalize` are left out.
- Latitude, longitude and altitude are `real`, not floating point. They are
  only copied or defaulted, never computed with.
- The type of `TimePosition` comes from the OpenSky client library, which is
  not part of this model. It is taken to be a nullable 32-bit integer.
- `Icao24` is taken to be non-null.
- `DateTime` is modelled to whole seconds. `AddSeconds` of a whole number of
  seconds never produces a fraction.
- OpenSkyWorker.OpenSkyService.Execute: the infinite loop is not modelled
  unbounded. Its contract covers runs of any finite length, one tick per
  entry of `connectivity`. The length of a delay and the time it takes are
  not modelled, only whether it elapses, never elapses or throws.
