# Verified model of the Raspberry Pi health publisher

A Dafny model of the service that collects Raspberry Pi health measurements and
publishes them to an MQTT broker, with proofs about its publication protocol and
its numeric and parsing kernels.  `dafny verify dfyconfig.toml` checks all of it.

## What is modelled

**Publication protocol.**  `Bootstrap` holds the 12-phase machine twice: as pure
transition functions and as the class the supervisor mutates, each method proved
equal to its function.  `Client` gives the meaning of every piece of supervisor
code on one value; `Supervisor` is the supervisor as the code has it, a class
whose event loop and shutdown tail are proved equal to those functions for every
sequence of inputs.  `System` puts the same functions into a step system with the
transport, the broker, the scheduler and the worker; each step is as small as the
code's atomic actions allow, so a state can land between any two of them.
`Invariants`, `LinkPreservation`, `Preservation`, `BrokerPreservation`,
`CollectionPreservation` and `Reachability` show one invariant inductive;
`Theorems`, `Freshness`, `Liveness` and `Progress` draw the conclusions.
`Refinement` shows that the step system does nothing the event loop does not,
`Execution` that runs of the event loop in an environment that keeps the rules
below are runs of the step system, so that the conclusions hold of the loop.

**Latest-value collection.**  `Watch` models a watch slot as a value with a
version and each receiver's last seen version.  `Worker` has the worker and the
scheduler as loops over shared slots; in `System` the worker reads the
identifier, collects and stores in separate steps.  `WorkerExecution` and
`SchedulerExecution` show that all runs of the system take them through cycles
and ticks of those loops.  A state's payload is represented by the number of
connection acknowledgements received when its collection began (`begunIn`), which
is what freshness is about.

**Collection and kernels.**  `Collector` runs cycles over arbitrary source
results, filling readings and errors in place and keeping the CPU baseline;
`Output` reads command output through a bounded buffer; `Cpu`, `Memory`, `Power`,
`Backoff` and `Topics` are the kernels, `Text`, `Numerals` and `Wrappers` what they
share.  Each parser is characterized by the text it accepts, with the numbers its
digits write defined position by position in `Numerals`.

## What the transport and the broker are assumed to do

These are the transition rules of `System`; sections are those of MQTT Version
3.1.1 (OASIS).

- Accepted requests are written in FIFO order; each written publish yields one
  outgoing event, with packet identifier 0 at QoS 0 and otherwise a nonzero one
  not in use (section 2.3.1).  Disconnect yields its own outgoing event.
- A publish at QoS 1 is written only while fewer than 4 are unacknowledged; its
  acknowledgement is sent after the broker has processed it (section 4.3.2) and
  acknowledgements arrive in order (section 4.6).
- The broker processes the packets of a session in order, keeps the last
  retained message of each topic (section 3.3.1.3), and publishes the Will in the
  same step in which a session ends without DISCONNECT (section 3.1.2.5); a
  processed DISCONNECT discards it (section 3.14.4).
- A new CONNECT of the client, including one that arrives late, takes over from
  the older session (section 3.1.4).  Sessions are clean, so a lost connection
  drops all that was queued or in flight (section 3.2.2.2).
- A run starts with a new process and a broker that has served only earlier
  processes of the service, whose last session may still be live.
- Connections may be lost, sessions closed, the shutdown requested and the
  process killed at any step.  The priorities of the biased select are not
  assumed: every ready branch may be taken.

"Below saturation" means that the request counter is below 2^64 - 1.  Where the
strict claims need it, it is a hypothesis; `Watch.RequestsAreFreshBelowSaturation`
shows that it is needed.

Findings: the Discovery document and the supervisor derive their topics by
different rules, which agree on all accepted configurations and differ exactly
when a trailing slash reaches them (`Topics.TopicsDisagree`).  The error for free
swap or available memory above the total, the two byte overflows of the clamped
values, and the idle-above-total CPU error are unreachable.

## Model

| member | source | states |
|---|---|---|
| Theorems.AvailabilityNeverLies | src/mqtt.rs:76-92 | In every reachable state of client, transport, broker and Will, over any losses, takeovers and shutdowns: with no live session the retained availability is not "online"; while it is "online" the Discovery document is retained. |
| Theorems.StatesOnlyWhileOnline | src/mqtt.rs:532-565 | The broker forwards a state only while "online" is retained. |
| Theorems.DisconnectOnlyWhenOffline | src/mqtt.rs:532-587 | A DISCONNECT is processed only when "offline" is already retained, so discarding the Will loses nothing. |
| Theorems.ReportedOnlineIsVisible | src/mqtt.rs:302-307 | While the supervisor reports Online and its session is live, the retained availability is "online". |
| Theorems.AcknowledgementsMatch | src/mqtt.rs:532-548 | In every phase that waits for an acknowledgement, the acknowledgement polled next has the awaited identifier if and only if it belongs to the awaited publish; stale ones cannot be confused with it. |
| Theorems.SkipsExactlyTheEarlierPublish | src/mqtt.rs:567-587 | In every reachable shutdown state the next outgoing event is skipped if and only if it is not the offline publish. |
| Theorems.IssuedInOrder | src/mqtt.rs:494-598 | On every connection the issued actions satisfy the positional order: Discovery first, "online" second or never, states only after "online", only the disconnect after "offline". |
| Theorems.AcknowledgementsGateTheOrder | src/mqtt.rs:532-548 | "Online", the first state and the disconnect are issued only after the broker processed, and the supervisor polled the acknowledgement of, Discovery, "online" and "offline" of the same connection. |
| Theorems.ReliableShape | src/mqtt.rs:494-598 | What QoS 1 publishes a connection has made, stage by stage. |
| Theorems.PublishesAreConserved | src/mqtt.rs:345-379 | Every QoS 1 publish of a connection is acknowledged, on its way back, unacknowledged or queued, in exactly this order; what was issued is what the broker processed, what is on the wire and what is queued. |
| Theorems.QueueNeverRejects | src/mqtt.rs:345-379 | At most two requests are pending and two publishes unacknowledged in every reachable state; no step makes the bounded control queue reject a request. |
| Theorems.WritesAreNeverBlocked | src/mqtt.rs:24-26 | A queued request can always be written: the in-flight limit of 4 never holds it back. |
| Theorems.StatusRefinesPhase | src/mqtt.rs:232-308 | At the loop head no transition to online is pending, and Online, Bootstrapping and Disconnected are reported exactly in the phases they stand for. |
| Theorems.StatusInShutdown | src/mqtt.rs:381-417 | While the shutdown tail waits the status is ShuttingDown. |
| Execution.EndsStopped | src/mqtt.rs:381-417 | A run of the loop that has ended reports Stopped. |
| Freshness.PublishedStatesAreFresh | src/mqtt.rs:243-256 | Below saturation every published state was collected by a collection begun after the acknowledgement of the connection that carries it, under every interleaving. |
| Freshness.NoReplay | src/mqtt.rs:550-565 | Below saturation the identifiers of published states are strictly increasing over all connections of a run. |
| Progress.IssuedIsCollected | src/daemon.rs:388-412 | Under every schedule, with requests landing at any time: as long as the worker neither fails nor ends and below saturation, a computed number of worker steps, at most nine, is enough for an issued identifier to be collected or superseded by a later collected one. |
| Progress.FreshStateArrives | src/daemon.rs:388-412 | So that many worker steps put a state good enough for the connection into the slot, whatever else happens meanwhile. |
| Progress.BootstrapAlwaysReachesWait | src/mqtt.rs:494-548 | Under every schedule without loss, takeover, kill or shutdown: a run of a bootstrap on a live session at whose end nothing is left to write, process, acknowledge or poll, and no turn to finish, has passed the wait for a fresh state. |
| Progress.DeliveriesBeforeWait | src/mqtt.rs:494-548 | Before it passes the wait such a run takes no more deliveries than a bound computed from its first state. |
| Progress.BootstrapCanStall | src/mqtt.rs:494-548 | Such an end can be reached from every state of the bootstrap. |
| Progress.BootstrapAlwaysPublishes | src/mqtt.rs:494-565 | Below saturation and with an able worker at its end: a run of a bootstrap under any such schedule at whose end nothing that has begun is left to do, by transport, broker, worker or supervisor, has published a state on that connection. |
| Progress.SessionCanSettle | src/mqtt.rs:494-565 | From every state of a live session with an able worker such an end can be reached, without further requests: work that has begun is bounded. |
| Progress.ShutdownAlwaysEnds | src/mqtt.rs:381-417 | Under every schedule without loss, takeover, kill or expired deadline: a run of a graceful shutdown on a live session at whose end nothing is left to deliver has ended, with the supervisor gone, the session closed by DISCONNECT and "offline" retained. |
| Progress.ShutdownIsBounded | src/mqtt.rs:381-417 | No such run takes more deliveries than a bound computed from its first state. |
| Progress.ShutdownCanStall | src/mqtt.rs:381-417 | Such an end can be reached from every state of the shutdown. |
| Freshness.LatestValueWins | src/daemon.rs:388-412 | In every reachable state the collected identifiers are a strictly increasing selection of the issued ones; every issued one is collected, superseded by a later one, or still owed unless the worker has failed or ended (`Progress.IssuedIsCollected` bounds how long). |
| Freshness.QuiescentSlotIsNewest | src/daemon.rs:388-412 | When an idle worker has seen every request, the state slot holds the state of the newest request. |
| Freshness.NoLostWakeUp | src/mqtt.rs:294-304 | A state the supervisor may publish is always one it has not seen, so its wait ends. |
| Freshness.AwaitingNeverStarves | src/mqtt.rs:331-343 | Waiting for a fresh state with an idle worker that has seen every request: an eligible state is in the slot, the wait ends, and the next supervisor step publishes it. |
| Freshness.GoingOnlinePublishes | src/mqtt.rs:302-305 | The turn that brings a session online publishes a newer state in the slot at once and reports Online. |
| Freshness.StaleStatesAreSeen | src/mqtt.rs:243-252 | On an acknowledged connection whatever is in the slot counts as seen, and below saturation is older than the state the connection asks for. |
| Liveness.WorkerCatchesUp | src/daemon.rs:395-410 | From every state of the invariant with a live worker, worker steps alone lead to an idle worker that has seen every request. |
| Liveness.BootstrapReachesWait | src/mqtt.rs:494-548 | From every state of a bootstrap on a live session some run reaches the wait for a fresh state on the same connection. |
| Liveness.BootstrapCanComplete | src/mqtt.rs:494-565 | Below saturation and with a worker that is able to collect, from every reachable bootstrap on a live session some run publishes next a state requested, collected and tagged for this connection: no deadlock. |
| Liveness.ShutdownCanComplete | src/mqtt.rs:381-417 | From every reachable graceful shutdown on a live session some run ends with "offline" retained, the session closed by DISCONNECT and the supervisor gone. |
| Refinement.SystemFollowsTheCode | src/mqtt.rs:221-308 | From the system to the code: in every reachable state the supervisor is at a point of a run of the event loop, with exactly what that run has computed. |
| Execution.TurnIsACourse | src/mqtt.rs:227-308 | From the code to the system: one turn of the event loop, in an environment that offers only what the system offers, is a path of system steps from any reachable loop head and ends exactly where the path ends. |
| Execution.LawfulRunsAreRuns | src/mqtt.rs:221-417 | So is any number of turns with the shutdown tail: progress and state of the code are those of the reachable state the path leads to, and no request is rejected. |
| Execution.LawfulRunsNeverFail | src/mqtt.rs:221-309 | What the loop of a new supervisor returns in such an environment is never the error of a full control queue. |
| Execution.LawfulRunsAreSafe | src/mqtt.rs:221-417 | The states such a run has published are fresh for their connection and never repeated below saturation; no session means no retained "online"; a reported Online on the live session is visible. |
| Execution.OfferedInputsAreTaken | src/mqtt.rs:232-308 | Every input the system offers at a reachable loop head makes a turn that can be taken to its end. |
| Refinement.SystemEndsAsTheCode | src/mqtt.rs:381-417 | From the system to the code: unless the process is killed, the supervisor leaves only as a run of the event loop ends, with its final state; the converse is part of the `Execution` rows. |
| Reachability.InvariantAlways | src/mqtt.rs:221-417 | The system invariant holds in every reachable state and after every enabled step. |
| Reachability.RestartIsInitial | src/mqtt.rs:76-92 | Whatever state a process leaves, killed or not and with its session still live or not, a process started next is in an initial state: the results hold across restarts. |
| Reachability.FreshBrokerIsOk | src/mqtt.rs:76-92 | A broker the service has never used is one its first process may start from. |
| Protocol.OrderIsTheAutomaton | src/mqtt.rs:476-482 | A sequence of actions satisfies the positional order if and only if the stage automaton accepts it. |
| Bootstrap.BootstrapMachine.Connected | src/mqtt.rs:495-501 | The whole new machine state of a connection; asks for Discovery. |
| Bootstrap.BootstrapMachine.OutgoingPublish | src/mqtt.rs:503-530 | New state in each of the 12 phases for a zero and a nonzero packet identifier. |
| Bootstrap.BootstrapMachine.PublishAcknowledged | src/mqtt.rs:532-548 | New state and action: only the expected identifier advances the phase. |
| Bootstrap.BootstrapMachine.StateAvailable | src/mqtt.rs:550-565 | New state and action: a state goes out if and only if the phase allows its identifier. |
| Bootstrap.BootstrapMachine.Shutdown | src/mqtt.rs:567-587 | New state and action, and whether an earlier publish has to be skipped. |
| Bootstrap.BootstrapMachine.Disconnected | src/mqtt.rs:589-592 | Stopped, all else unchanged. |
| Bootstrap.BootstrapMachine.ConnectionLost | src/mqtt.rs:594-598 | Disconnected, with pending transitions dropped and the identifiers kept. |
| Bootstrap.BootstrapMachine.AcceptsState | src/mqtt.rs:600-602 | The phases that accept a state. |
| Bootstrap.BootstrapMachine.JustBecameOnline | src/mqtt.rs:608-610 | Reads and clears the pending transition, nothing else. |
| Supervisor.MqttSupervisor.constructor | src/mqtt.rs:193-214 | A new supervisor is in the initial state of the functions and of the step system. |
| Supervisor.MqttSupervisor.Perform | src/mqtt.rs:345-379 | One more queued request, or a rejection that changes nothing when 16 are pending. |
| Supervisor.MqttSupervisor.HandleEvent | src/mqtt.rs:311-329 | The new state of machine, queue and histories for each event. |
| Supervisor.MqttSupervisor.PublishCurrentState | src/mqtt.rs:331-343 | Marks the slot as seen and publishes its state exactly when the machine allows it. |
| Supervisor.MqttSupervisor.StartBootstrap | src/mqtt.rs:243-256 | A fresh collection request and the Discovery request, the machine waiting for the new identifier. |
| Supervisor.MqttSupervisor.EndOfTurn | src/mqtt.rs:302-307 | Status and the state published on the transition to online. |
| Supervisor.MqttSupervisor.GracefulShutdown | src/mqtt.rs:381-417 | Exit and final state for every sequence of polls, equal to the function of the shutdown tail. |
| Supervisor.MqttSupervisor.Connect | src/mqtt.rs:243-256 | The branch of an acknowledged connection: backoff reset, slot marked as seen, bootstrap started. |
| Supervisor.MqttSupervisor.Disconnect | src/mqtt.rs:260-286 | The branch of a failed poll: machine, status and queue of a lost connection, the next attempt number, the next jitter word and the delay they give. |
| Supervisor.MqttSupervisor.Turn | src/mqtt.rs:227-308 | Exit, new state, retry delay, attempt counter and jitter word of one loop turn, with the moves of other actors before, within and late in it. |
| Supervisor.MqttSupervisor.Run | src/mqtt.rs:221-309 | Exit, final state and retry delays of any number of turns, equal to the functions the refinement and pacing theorems speak of. |
| Supervisor.PausesAreBounded | src/mqtt.rs:159-173 | In every run exactly the failed polls pause, each more than 80% and at most 120% of the entry for the failures in a row before it. |
| Supervisor.JitterNeverDies | src/mqtt.rs:629-634 | No number of turns brings the jitter generator to zero. |
| Watch.RequestCollection | src/mqtt.rs:431-438 | The slot holds the returned identifier, one more than the last below saturation; its version advances. |
| Watch.RequestsAreFreshBelowSaturation | src/mqtt.rs:431-438 | An identifier is new if and only if the counter has not saturated; after that it repeats. |
| Worker.CollectionWorker | src/daemon.rs:388-412 | Over any wake-ups and requests: slots, seen version and stored identifiers equal the function of the cycles, with ticks of the scheduler finding the flag set exactly while a collection runs; stored identifiers strictly increase below saturation, the slot holds the last one, and a worker that has seen everything has collected the newest request. |
| Worker.CyclesKeepStep | src/daemon.rs:395-410 | What holds between cycles of that function, for every number of cycles. |
| WorkerExecution.CyclesAreSteps | src/daemon.rs:395-410 | The worker steps of the system, with any requests landing between them, compute what one cycle of the loop computes. |
| WorkerExecution.WorkerRunsAreCycles | src/daemon.rs:388-412 | The same for any number of cycles, up to a failed collection. |
| WorkerExecution.WorkerFollowsTheCode | src/daemon.rs:388-412 | Every run of the system from an idle worker, under any schedule, takes the worker through whole cycles of its loop and part of the next one, with what those cycles compute. |
| WorkerExecution.EveryWorkerStateIsTheLoops | src/daemon.rs:388-412 | In every reachable state the worker is where a run of its loop has got to. |
| WorkerExecution.ForeignStepsAsk | src/daemon.rs:388-449 | Any step of another actor is to the worker at most one request. |
| SchedulerExecution.TicksAreSteps | src/daemon.rs:414-449 | Any number of scheduler ticks of the system, each with steps of the other actors before and within it, leaves the request slot as the ticks of the loop do. |
| SchedulerExecution.SchedulerFollowsTheCode | src/daemon.rs:414-449 | Every run of the system from before the start of the scheduler takes it through the start, whole ticks of its loop and part of the next one, with the request slot those leave. |
| SchedulerExecution.EverySchedulerStateIsTheLoops | src/daemon.rs:414-449 | In every reachable state the scheduler is where a run of its loop has got to. |
| Worker.CollectionScheduler | src/daemon.rs:414-449 | One request at the start and one per idle tick, on top of those of the supervisor; busy ticks request nothing; every warning is the time of a busy tick, warnings are at least a minute apart and every busy tick is covered by one. |
| Backoff.RetryBackoff.NextDelay | src/mqtt.rs:159-168 | The delay of the entry and the clamped jitter, within 20% of the entry, at its ends for jitter at or beyond 0 and 1, and the entry itself for a jitter that is not finite. |
| Backoff.ScheduleIs | src/mqtt.rs:29 | The entries: 1, doubling to 16, then 30, then 60 for good. |
| Backoff.DelayIsLinear | src/mqtt.rs:159-168 | The delay grows linearly with the jitter from four fifths of the entry to six fifths. |
| Backoff.DelayIncreases | src/mqtt.rs:159-168 | More jitter within the unit interval, more delay. |
| Backoff.RetryBackoff.Reset | src/mqtt.rs:170-173 | The schedule starts again. |
| Backoff.Delays | src/mqtt.rs:159-173 | For every sequence of failures and successful connections, each delay is within 20% of the capped entry for its number of consecutive failures. |
| Backoff.ScrambleIsInvertible | src/mqtt.rs:629-634 | The three xor-shift steps have a two-sided inverse on 64-bit words, and only zero is mapped to zero. |
| Backoff.ScrambleIsXorshift | src/mqtt.rs:629-634 | A draw is the three shifts by 13, 7 and 17 with their exclusive ors. |
| Backoff.FirstDraw | src/mqtt.rs:629-634 | The first word after the smallest seed is 0x40822041. |
| Backoff.UnitIsExact | src/mqtt.rs:629-634 | The unit is the exact share of the word in the greatest word. |
| Backoff.Jitter.constructor | src/mqtt.rs:620-627 | The seed is never zero. |
| Backoff.Jitter.NextUnit | src/mqtt.rs:629-634 | One draw: the new word, its unit value within 0 and 1, and a word that stays nonzero. |
| Backoff.DrawsNeverDie | src/mqtt.rs:629-634 | For any number of draws: the word is zero if and only if the first one was, and different first words never meet. |
| Backoff.Draw | src/mqtt.rs:617-635 | Any number of draws from any seed: the words are the iterated scramble, the last is not zero, and every unit is that of its word, above 0 and at most 1. |
| Collector.Collector.Collect | src/collector.rs:133-155 | Every reading is the value its source gave or its kernel made of it, every recorded error has the reason of what went wrong, and the baseline left is the newest sample, for every combination of source results. |
| Collector.ReadingsAreTheSources | src/collector.rs:133-396 | A readable thermal zone is the temperature and an absent one gives the firmware value; the first frequency file that is not absent is the frequency; usage, memory and power are what the kernels return; the other readings are their sources. |
| Collector.ErrorsAreExplained | src/collector.rs:133-396 | Which reason is recorded for which failure of each metric, and that none other is. |
| Collector.Collector.CollectCpuUsage | src/collector.rs:179-222 | Usage, at most one error, the baseline left behind and whether the collector slept. |
| Collector.Collector.CollectTemperature | src/collector.rs:251-288 | The thermal zone, or the firmware command exactly when the zone is absent. |
| Collector.Collector.CollectFrequency | src/collector.rs:290-315 | The first frequency file that is not absent decides; both absent is no error. |
| Collector.Collector.CollectEach | src/collector.rs:133-155 | Readings, baseline and sleeps over any number of cycles of a new collector. |
| Collector.ErrorsAreOrdered | src/collector.rs:133-155 | A cycle records at most one error per metric, in the order of collection, and records one if and only if the metric failed. |
| Collector.MissingMeansError | src/collector.rs:179-396 | A measurement is missing if and only if its error is recorded, the CPU counters did not move, or both frequency files are absent; in the last two cases no error is recorded. |
| Collector.SourcesAreIndependent | src/collector.rs:133-155 | Two cycles whose sources agree for a metric have the same reading and the same errors for it, whatever the other sources do. |
| Collector.AtMostOneWarmUp | src/collector.rs:179-200 | Over any number of cycles there is at most one warm-up sleep: one if and only if some cycle read a first sample. |
| Collector.BaselineIsNewestSample | src/collector.rs:179-222 | The usage is always measured from the newest sample ever read, whatever failed in between. |
| Collector.CpuErrorCondition | src/collector.rs:202-222 | With a baseline, a CPU error is recorded if and only if the sample is unreadable, a counter rolled back, or the delta sum overflows. |
| Collector.RecoversAfterRollback | src/collector.rs:209-222 | After any cycle that read its samples, even a rollback, later cycles whose counters only grow without overflow record no CPU error. |
| Output.ReadLimitedOutput | src/collector.rs:599-619 | However the stream is cut into reads: the stream itself up to 4096 bytes, too large beyond, a read error if a read fails; the buffer never exceeds 4096 bytes. |
| Output.CutsAreStreams | src/collector.rs:599-619 | Every way of cutting a byte string into nonempty reads is the same stream. |
| Cpu.CheckedSum | src/metrics/cpu.rs:200-206 | The sum of the counters if it fits 64 bits, nothing otherwise. |
| Cpu.ComputeUsage | src/metrics/cpu.rs:104-151 | The in-place delta loop and the checks after it compute the usage function, with each error; a percentage that comes out is that of the busy jiffies in all eight counters. |
| Cpu.UsageIsBusyShare | src/metrics/cpu.rs:104-151 | The percentage times the moves of all eight counters is 100 times those of user, nice, system, irq, softirq and steal; 0 exactly when only idle and iowait moved, 100 exactly when neither did. |
| Cpu.UsageErrors | src/metrics/cpu.rs:104-146 | Which error comes out: the first counter that moved backwards, the idle sum, or the total out of range. |
| Cpu.UsageIsAPercentage | src/metrics/cpu.rs:104-151 | The usage lies within 0 and 100; it is absent if and only if no counter moved; it exists if and only if no counter rolled back and the delta sum fits; the idle-exceeds-total error is unreachable. |
| Cpu.DeltasAdd | src/metrics/cpu.rs:104-120 | The deltas of two consecutive intervals add up to those of the whole. |
| Cpu.UsageLiesBetween | src/metrics/cpu.rs:104-151 | The usage over two consecutive intervals lies between the usages of the two. |
| Memory.ParseRelevantValues | src/metrics/memory.rs:78-96 | The line loop computes the function of all lines, with the error of the first bad line. |
| Memory.ParsingCharacterized | src/metrics/memory.rs:78-127 | The lines parse if and only if every relevant line is well formed and alone in naming its key; the values are then exactly those of the lines. |
| Memory.LineMeans | src/metrics/memory.rs:78-127 | For each of the nine keys, by the text of the line: it gives a number exactly when after the first colon there are, between white space, a decimal number of 64 bits and the unit kB alone; and exactly when each of the three errors comes out. |
| Memory.KernelLine | src/metrics/memory.rs:113-127 | A line as the kernel prints it, with any padding and digits, gives exactly its key and number. |
| Memory.IgnoredLines | src/metrics/memory.rs:80-86 | A line contributes nothing exactly when it names none of the nine keys before a first colon. |
| Memory.ParseU64Means | src/metrics/memory.rs:113-120 | A field is a number exactly when it is an optional plus and decimal digits with that value, below 2^64. |
| Memory.FirstBadLine | src/metrics/memory.rs:78-96 | When parsing fails, the error is that of the first bad line: its key was named before, or its value is wrong. |
| Memory.MetricsErrors | src/metrics/memory.rs:37-76 | There are metrics exactly when nothing stands in their way, and otherwise which error comes out, in the order the code asks. |
| Memory.LineOrderIsIrrelevant | src/metrics/memory.rs:37-96 | Permuting the lines changes neither success nor the metrics. |
| Memory.MetricsExist | src/metrics/memory.rs:37-76 | When exactly there are metrics: required keys, a positive total, byte counts that fit, and a reported or computable available amount. |
| Memory.MetricsMean | src/metrics/memory.rs:37-76 | Byte counts of the clamped kibibyte values, and percentages that are exact ratios of used to total. |
| Memory.MeasureIsConsistent | src/metrics/memory.rs:55-75 | After clamping, the only possible failures are the byte counts of the two totals; used and available make up the total, for memory and for swap. |
| Memory.MetricsAreConsistent | src/metrics/memory.rs:37-76 | For every input the overflow and underflow errors of the clamped values are unreachable, and success means conservation and percentages within 0 and 100. |
| Power.PrintThenParse | src/metrics/power.rs:30-80 | Parsing "throttled=" followed by the printed mask gives the same status, for every 32-bit mask. |
| Power.AcceptedInputs | src/metrics/power.rs:39-80 | An input is read as the status of a mask exactly when it is, with any white space around itself, key and value: throttled, an equals sign, 0x or 0X, and an optional plus with digits of that mask, in either case and with any leading zeros. |
| Text.AsciiSpaces | src/metrics/power.rs:39-54 | Of the ASCII characters exactly space, tab, line feed, vertical tab, form feed and carriage return are trimmed. |
| Power.AssignmentMissing | src/metrics/power.rs:39-43 | The assignment is missing exactly when there is no equals sign. |
| Power.RejectedInputs | src/metrics/power.rs:44-65 | Exactly when each of the other errors comes out, by the text around the first equals sign: another key, no prefix, nothing after it, or no 32-bit mask. |
| Power.FromHexMeans | src/metrics/power.rs:58-65 | A text is read as a mask exactly when it writes it. |
| Power.SuccessIsAStatus | src/metrics/power.rs:67-80 | Every status that comes out is that of its mask. |
| Power.HexRoundTrip | src/metrics/power.rs:30-65 | The digits of a number are read back as that number. |
| Power.RawHexIsCanonical | src/metrics/power.rs:30-36 | The printed mask is lower case without superfluous zeros. |
| Power.DigitsAreUnique | src/metrics/power.rs:30-65 | Canonical digits are the digits of their value: no two canonical texts mean the same number. |
| Power.ParseThenPrint | src/metrics/power.rs:30-80 | A canonical mask is what an accepted input prints as exactly when its digits are those of the mask the input writes (`Power.AcceptedInputs`). |
| Power.FlagsRebuildTheMask | src/metrics/power.rs:67-84 | The eight flags rebuild exactly bits 0-3 and 16-19 of the mask. |
| Topics.TopicsAgree | src/discovery.rs:107-127 | For every accepted configuration the advertised topics are the ones the supervisor uses. |
| Topics.AcceptedConfigurations | src/config.rs:397-450 | A configuration is accepted, unchanged, exactly when its identifier is 1 to 64 letters, digits, underscores and hyphens, both topics are concrete and the derived ones fit 65,535 bytes; otherwise the first bad field is named. |
| Topics.IdentifiersAreValid | src/config.rs:476-495 | The identifier check accepts exactly 1 to 64 ASCII letters, digits, underscores and hyphens. |
| Topics.TopicsAreConcrete | src/config.rs:529-547 | The topic check accepts exactly the nonempty levels joined by slashes, free of wildcards and control characters, without white space at either end, of at most 65,535 bytes. |
| Topics.DerivedLevels | src/config.rs:157-171 | The levels of the three topics: those of the base topic or the prefix, and the fixed ones and the identifier after them. |
| Topics.TopicsDisagree | src/discovery.rs:321-323 | The two derivations differ if and only if the base topic, or the prefix, ends with a slash. |
| Topics.TopicsAreDistinct | src/config.rs:157-171 | State, availability and Discovery topics are pairwise distinct. |
| Topics.ExtendedTopicIsValid | src/config.rs:529-547 | Appending well-formed levels to a concrete topic gives one again while it fits the length limit. |
| Topics.DerivedTopicsAreValid | src/config.rs:397-450 | The three topics of an accepted configuration are again concrete topics. |

## Left out

- `rumqttc`, tokio and sockets beyond the rules above: keep-alive timing, TLS, packet encoding, connection timeouts and the classification of errors for the log.
- The 64 KiB packet limit against the size of the Discovery document, which the code does not establish for every accepted configuration.
- Anything after the request counter saturates; identifiers repeat there.
- A broker restart that loses or keeps retained messages, and a broker that delays the Will.
- Fairness: that every actor keeps taking steps is not assumed; the `Progress` results speak of all runs at whose end nothing that matters is left to do, bound the steps before it, and show that such ends can be reached.
- Times: the scheduler's ticks carry times, the system has no clock, so a run fixes their order only.
- IEEE rounding of `f64`: usages, percentages, delays and jitter units are reals, and the rounding of serialized metrics is not modelled.
- File reading, processes, `statvfs`, signals, clocks, TOML, JSON and credentials: the collector's sources are arbitrary results, and the shutdown deadline may expire at any poll.
- The parsers of load averages, temperatures, frequencies, uptime, `/proc/stat` and the disk arithmetic: their results are inputs of the collector.
- Splitting text into lines: meminfo is a sequence of lines.
- The other configuration checks (names, host, port, paths, durations), each one branch.
- The component table, health summary, command line and diagnostics, and how the service joins its tasks: finite case analyses.
- Supervisor.MqttSupervisor.Turn: log messages and the payload bytes are not part of it.
- Worker.CollectionWorker: a closed request channel is the end of its list of cycles.
- Execution.LawfulRunsAreRuns: moves of other actors between the end of a retry delay and the check after it count as moves during the delay; the code does nothing in between.
