# NDSmonitor core, modelled in Dafny

NDSmonitor watches a Nodogsplash captive portal. Every `Refresh` seconds
it opens an ssh session to the router and runs `ndsctl json`. From the
output it builds one InfluxDB batch of points:

- per authenticated client whose two counters parse as integers, `Download_Bytes` and `Upload_Bytes` (the KiB counters times 1024), tagged with the portal name, the upper-cased MAC address, the IP, the ID, the token and the state;
- the aggregates `Authenticated`, `PreAuth` and `NdsError`=0, or only `NdsError`=1 when the portal service is down (the command failed, or printed the exact "not started" message);
- optionally `ProbeTime`.

The batch goes to a queue of at most 1000 batches and is dropped when
the queue is full. When the service is down and `AllowRestart` is set,
the probe calls `restartNDS`, but on the ssh session that `ndsctl json`
has already used. An ssh session runs a single command, so the restart
command never reaches the router: the call returns an error, which is
ignored. A single worker drains the
queue. It writes each batch once. When a write fails and a ping confirms
that the store is unreachable, it sleeps 30 s × (number of confirmed
failures since the last successful write) and reconnects. A successful
write sets the count back to 0.

The project has these modules:

| module | models |
|---|---|
| `Wrappers` | `Option` |
| `Strings` | the two library calls the probe relies on: `strconv.Atoi` (64-bit) and ASCII `strings.ToUpper` |
| `Settings` | the configuration record |
| `Points` | points, the `Batch` class (`newInfluxBP`, `AddPoint`) and `QueuePointInt` |
| `Queue` | the buffered channel, as the `DbQueue` class |
| `Probe` | `probeNDS`: pure functions give the batch (`ProbePoints`); the imperative `BuildBatch` and `ProbeNds` are proved to build exactly that batch and to queue or drop it |
| `ProbeLemmas` | what one cycle promises, for every order of walking the client map |
| `Enumerations` | walking a map in an arbitrary order: flattening, counting and permutation facts, for any element type |
| `Store` | `connectInfluxdb` and `dbWorker`: a pure state machine (`Step`, `Replay`) and the `Worker` class proved against it |
| `StoreLemmas` | back-off and delivery properties of the worker |
| `Scheduler` | the tick loop of `main`: a pure `Tick`/`RunTicks` and the `MainLoop` class |
| `SchedulerLemmas` | its properties |

Everything outside the program appears as data passed to the model:

- ssh: the command's error flag and its output, whether a session opens, whether a reconnect succeeds;
- JSON decoding: `Option<Snapshot>`; `None` means decoding failed before anything was filled in, and the client map stays empty. Output that is valid JSON but fails later (a field of the wrong type) keeps what was decoded up to that point, and is a `Some`;
- the order Go walks the client map: a sequence listing every key once;
- the clock: the elapsed nanoseconds for `ProbeTime`;
- the InfluxDB client: one `BatchOutcome` per batch (write, ping, reconnect).

A few behaviours of the program are kept as they are, and shown by lemmas:

- When the command fails but its output still decodes into clients, the batch still carries their traffic points next to `NdsError`=1 (`FailedCommandKeepsTraffic`).
- A failed ssh reconnect leaves a nil client. The next tick's `NewSession` on it panics and ends the process (`FailedReconnectEndsProcess`).
- A refused InfluxDB reconnect would likewise leave a nil client, and the next write would panic (`RefusedReconnectPanics`). The library builds its client from the unchanged settings, so after a successful start it always accepts the reconnect, and this path cannot happen in the running program.
- The InfluxDB user name sent is the server address; `InfluxUsername` is never read (`ConnectInfluxdb`).
- A failed write whose ping succeeds drops the batch and leaves the error count alone (`UnconfirmedFailureIsNeutral`).
- A state string other than exactly `Authenticated` is counted as pre-auth, the empty one included.

## Model

| member | source | states |
|---|---|---|
| Strings.Atoi | main.go:234-247 | a parsed counter is in the signed 64-bit range and starts with a digit or a sign |
| Strings.AtoiFormatInt | main.go:234-247 | every 64-bit value written in decimal parses back to itself |
| Strings.AtoiRejectsNonInteger | main.go:234-247 | text with a decimal point or an exponent does not parse, so the client is skipped |
| Strings.ToUpperAscii | main.go:223 | same length, each lower-case ASCII letter replaced by its upper-case letter, every other character unchanged |
| Points.Batch.constructor | db.go:62-70 | a new batch is empty, for the configured database, with second precision |
| Points.QueuePointInt | db.go:72-83 | exactly one point is appended, with the given measurement and tags and a single `value` field |
| Queue.DbQueue.constructor | main.go:293 | a new channel is empty and holds at most the capacity it is made with (1000 in `main`) |
| Queue.DbQueue.Len | main.go:274 | the number of waiting batches, never above the capacity |
| Queue.DbQueue.Send | main.go:276 | appends the batch at the back and keeps the length within capacity |
| Queue.DbQueue.Receive | db.go:36 | takes the oldest batch, or nothing from an empty queue |
| Probe.ProbePoints | main.go:211-267 | a batch holds two points per reportable client, then one aggregate point when the service is down or three when it is up, then `ProbeTime` when self-monitoring is on; it always holds `NdsError` with the value of the error flag |
| Probe.AddTrafficPoints | main.go:212-253 | appends the client's two traffic points when it is authenticated and both counters parse, and nothing otherwise |
| Probe.AddClientPoints | main.go:211-254 | the loop appends the traffic points of every client in walk order and returns the two tallies |
| Probe.AddAggregatePoints | main.go:256-262 | appends `NdsError`=1 alone, or `Authenticated`, `PreAuth` and `NdsError`=0 |
| Probe.BuildBatch | main.go:170-267 | the batch is exactly `ProbePoints`, and a restart is attempted exactly when the service is down and restarts are allowed |
| Probe.ProbeNds | main.go:170-280 | the batch is queued exactly when fewer than 1000 are waiting, and the queue is otherwise unchanged and never exceeds 1000 |
| ProbeLemmas.TrafficOrderIndependent | main.go:211-254 | any two walks of the client map give the same traffic points, as a multiset |
| ProbeLemmas.EnumeratedTally | main.go:211-220 | a tally over a walk is the number of clients satisfying the predicate, whatever the order |
| ProbeLemmas.TalliesCountStates | main.go:216-220 | `Authenticated` counts the clients in state "Authenticated", `PreAuth` all the others |
| ProbeLemmas.TalliesCoverClients | main.go:216-220 | the two tallies add up to the number of clients |
| ProbeLemmas.TrafficPointCount | main.go:249-253 | exactly two traffic points per reportable client |
| ProbeLemmas.TrafficOwner | main.go:234-253 | every traffic point is the download or upload point of a client that is authenticated and whose counters both parse |
| ProbeLemmas.OwnedTraffic | main.go:211-253 | both counter points of such a client are in the traffic of every walk that visits it |
| ProbeLemmas.TrafficMembership | main.go:234-253 | a point is a traffic point if and only if it is the download or upload point of a reportable client |
| ProbeLemmas.ClientTraffic | main.go:234-253 | an authenticated client whose counters parse to d and u KiB yields `Download_Bytes` of d × 1024 and then `Upload_Bytes` of u × 1024, with the client's tags |
| ProbeLemmas.TrafficMeasurements | main.go:251-252 | every traffic point is `Download_Bytes` or `Upload_Bytes` with one `value` field |
| ProbeLemmas.HealthyCycleAggregates | main.go:258-261 | with the service up, the aggregates carry the set sizes of authenticated and pre-auth clients and `NdsError`=0 |
| ProbeLemmas.ProbeMeasurements | main.go:256-267 | every point that is not traffic carries only the portal tag and is `NdsError`, `Authenticated`, `PreAuth` or `ProbeTime` |
| ProbeLemmas.AggregateOrigin | main.go:249-267 | an `NdsError`, `Authenticated` or `PreAuth` point in the batch is one of the aggregate points, never traffic or timing |
| ProbeLemmas.ServiceDownIsExactMatch | main.go:186-196 | a failed command always counts as down; output counts as down only when it is exactly the not-started message, so the message with any text before or after it (a trailing newline, say) does not |
| ProbeLemmas.NdsErrorReportsFlag | main.go:186-262 | `NdsError`=1 is in the batch if and only if the service is down; `NdsError`=0, an `Authenticated` point and a `PreAuth` point are each in it if and only if it is up |
| ProbeLemmas.NotStartedCycle | main.go:193-196 | the not-started message yields `NdsError`=1 and no tallies |
| ProbeLemmas.DecodeFailureCycle | main.go:206-209 | output whose decoding fails before any client is filled in yields zero tallies and `NdsError`=0 |
| ProbeLemmas.ExampleCycle | main.go:211-262 | after a successful command, two authenticated clients that each downloaded 10 KiB and uploaded 20 KiB and one pre-auth client give, in walk order, 10240/20480 for the first, 10240/20480 for the second, `Authenticated`=2, `PreAuth`=1, `NdsError`=0 |
| ProbeLemmas.FailedCommandKeepsTraffic | main.go:186-254 | a failed command whose output decodes, whatever that output is, still reports the traffic of its clients, next to `NdsError`=1 |
| Store.Step | db.go:37-57 | a batch is written exactly when the client is open and the write succeeds, which resets the worker to count 0; a back-off happens exactly on a ping-confirmed failure, adds one to the count and sleeps 30 s times the new count; the client stays open after it exactly when the reconnect succeeds; a nil client panics and ends the process; the count changes only on a write or a back-off |
| Store.ConnectInfluxdb | db.go:11-23 | no address ends the process; otherwise a client exists exactly when the library accepts the settings, with user name = address and a 180 s timeout |
| Store.Worker.Launch | db.go:28-31 | the worker starts with count 0 and an open client exactly when the connection succeeds, and the process ends otherwise |
| Store.Worker.HandleBatch | db.go:37-57 | one pass of the loop changes the state and acts exactly as `Step`, and records the batch as written only when the write succeeds |
| Store.Worker.Run | db.go:36-58 | takes the batches in queue order and handles each once, stopping only when the process has ended; the state is `Replay` of the outcomes |
| StoreLemmas.ErrcountCountsFailures | db.go:33-57 | while the process runs, the error count is the number of ping-confirmed failures since the last successful write |
| StoreLemmas.BackoffGrows | db.go:45-49 | the n-th confirmed failure in a row sleeps 30 × n seconds and then reconnects |
| StoreLemmas.WriteClearsCount | db.go:55-56 | a successful write returns the worker to count 0 with an open client |
| StoreLemmas.UnconfirmedFailureIsNeutral | db.go:38-43 | a failed write whose ping succeeds changes nothing for any later batch |
| StoreLemmas.RefusedReconnectPanics | db.go:50-53 | a refused reconnect leaves a nil client; the next batch panics and the process ends |
| StoreLemmas.CrashedAbsorbs | db.go:38 | after the panic nothing changes and no batch is handled |
| StoreLemmas.DeliveredAtMostOnce | db.go:36-38 | no batch reaches the store twice, and only queued batches reach it |
| StoreLemmas.HealthyStoreDeliversAll | db.go:36-57 | when every write succeeds, all batches reach the store in queue order and the count stays 0 |
| StoreLemmas.StoppedRunIsWholeRun | db.go:36-38 | a run cut short by the panic ends in the same state as the run over all outcomes |
| Scheduler.Tick | main.go:300-323 | while the process runs, a tick adds one to the count and logs exactly when the new count is a multiple of 30; a probe cycle starts exactly when the client is live and a session opens; a session asked of a nil client panics and ends the process; when a live client gets no session the tick reports the reconnect, and the client stays live exactly when the reconnect succeeds and is nil otherwise; once ended, nothing changes |
| Scheduler.MainLoop.Start | main.go:286-289 | the loop starts with a live client and count 0 exactly when the first ssh connection succeeds |
| Scheduler.MainLoop.OnTick | main.go:300-326 | one tick changes the state and reports exactly as `Tick` |
| Scheduler.MainLoop.Run | main.go:300-326 | the loop's state and counts of launches and liveness lines are those of `RunTicks` and `Reports`; it stops early only when the process has ended |
| SchedulerLemmas.ReconnectsKeepRunning | main.go:314-323 | a live client stays live through any run in which every tick either opens a session or reconnects, so a failed session alone never ends the loop |
| SchedulerLemmas.ActiveCountsTicks | main.go:298-301 | while the process runs, the tick count goes up by one per tick |
| SchedulerLemmas.ReportsPerTick | main.go:300-325 | while the process runs, the i-th tick logs exactly when the count it reaches is a multiple of 30, and starts a probe cycle exactly when its session opened |
| SchedulerLemmas.LoggedTicksArePassedMultiples | main.go:300-307 | while the process runs, the i-th tick logs exactly when the count it reaches is a multiple of 30, and the number of logged ticks is the number of multiples of 30 passed |
| SchedulerLemmas.LivenessLogCount | main.go:303-307 | the number of liveness lines is the number of multiples of 30 the tick count passed |
| SchedulerLemmas.LaunchesCountSessions | main.go:314-325 | while the process runs, the i-th tick starts a probe cycle exactly when its session opened, so the number of cycles is the number of sessions opened |
| SchedulerLemmas.FailedReconnectEndsProcess | main.go:314-323 | after a failed reconnect the next tick panics on the nil client and the process ends |
| SchedulerLemmas.GoneAbsorbs | main.go:314 | once the process has ended no tick changes anything |

## Left out

- ssh (dialling, sessions, running commands), the JSON decoder, the InfluxDB HTTP client, the ticker and `time.Sleep` are not modelled; their results are parameters.
- Concurrency is not modelled. Probe cycles run as goroutines, so two cycles may both see a length of 999 and both send. The model checks and sends atomically.
- Configuration loading (`startup`, `fileExists`) is not part of this model; the configuration is a given record.
- `restartNDS`: only the decision to call it is modelled (`restartAttempted`). It runs on the session that `ndsctl json` already used, and an ssh session accepts one command, so the restart fails before reaching the router; its error is returned and ignored. The ssh library's behaviour is not part of this model.
- Probe.ProbeNds: the ×1024 is unbounded. The 64-bit wrap-around for counters above about 9 × 10^15 KiB is not modelled.
- Points.QueuePointInt: the value is kept as an integer. The conversion to `float64`, exact below 2^53, is not modelled.
- `queuePointUint64` and `queuePointFloat64` are never called by the core and are not modelled.
- Strings.ToUpperAscii: only ASCII letters are upper-cased; Unicode case mapping is not modelled.
- Point timestamps (`time.Now()`), the log lines, and the slow-probe message after 180 s are not modelled.
- `NewPoint` and `NewBatchPoints` errors are not modelled. For the point and batch settings used here they cannot occur, unless the tags, which come from the router, exceed the store's key-length limit.
- Store.Worker.HandleBatch: whether the library accepts a reconnect is a parameter. The real library decides it from the unchanged settings, so after a successful start it would always accept.
