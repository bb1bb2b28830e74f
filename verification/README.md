# Delivery control of Neptunus, verified

Neptunus moves events from inputs through filters and processors to outputs. An input that reads a broker may
acknowledge a message only when every event made from it, and every copy of such an event, has left the pipeline.
This project models the machinery that promises this, and the other parts of the system whose correctness spans
several goroutines or several calls, and proves what they keep:

- **Kafka input** (`KafkaController`, `KafkaProtocol`, `KafkaHistory`, `KafkaOrder`, `Delivery`, `Tokens`): per-topic
  readers, the commit controller with its ordered queues, the token semaphore, and the shutdown handshake. The
  controller is a class; its methods are proved against functions (`Stored`, `Signal`, `Prefix`, `Trimmed`), and the
  step system of all goroutines is built from the same functions. `KafkaHistory` counts the copies of every event;
  `KafkaOrder` settles which orders of offsets are safe.
- **Event tracker and copying** (`Tracker`, `Stages`): the reference count as an int32, and the parser, clone and
  fan-out stages, which must keep it equal to the number of live copies. What a stage sends is recorded as a snapshot,
  because the receiver may change the event.
- **Pipeline graph** (`Graph`, `GraphTermination`, `GraphFlow`, `GraphRoutes`, `Wiring`, `Topology`, `Pipeline`,
  `Certification`, `PipelineGrowth`, `PipelineLayout`, `PipelinePlaces`, `PipelineRoutes`, `PipelineUnits`):
  networks of goroutines and channels with their close statements. `Graph` proves, for every network that carries a
  certificate, no send on a closed channel, no double close, conservation of events, progress and termination.
  `Topology` describes the network of every unit and of a whole configuration: which goroutine reads and sends where,
  and what the close of each channel waits for. `Pipeline` is the code that builds it step by step; `Certification`
  proves that every configuration's network is certified. `PipelineGrowth`, `PipelineLayout` and `PipelinePlaces` tell
  in plain numbers where every unit stands in the whole network and who reads what it sends, and `PipelineRoutes` that
  every input reaches every output through every line. `GraphFlow` follows the events through a part of a network, and
  `PipelineUnits` through every unit of a pipeline.
- **Mixer** (`Mixer`): the lines' shared output table behind a read/write lock, and the assembly of the lines.
- **RabbitMQ input** (`Rabbit`): the consumer and its acker.
- **Kafka output** (`KafkaWriter`, `Batching`): the writer's flush with its retry rounds over any broker answers, and
  the batcher and the pool of keyed runners in front of it.
- **Service** (`Service`): any number of interleaved calls of Start and Stop for one pipeline id.
- **Stats metric** (`Metric`) and **Starlark conversion** (`Starlark`), with powers of two in `Powers`.

A step of a step system is one channel operation, lock operation or atomic access; which goroutine moves next, when a
ticker fires, what the broker or a parser answers, and what a plugin decides are free choices. A theorem about `Run`
holds for every sequence of such choices.

## Assumptions

- Offsets of one Kafka partition arrive in increasing order in a generation. `KafkaOrder.FetchOrderIff` shows how much
  of this commit safety needs: all runs with given fetches keep the promise if and only if no message that yields events
  comes at or below an offset fetched before. RabbitMQ delivery tags are unique on a channel.
- The limits on unacknowledged messages and the batch buffer are at least 1. Channel buffers may be 0.
- A plugin sends only while it runs, sends each event it consumes, and each copy it makes, exactly once, and makes at
  most a fixed number of copies per consumed event. That clone, parser and fan-out do send exactly once is proved in
  `Stages`.
- The events of one batch of a Kafka writer have different uuids. In the repository every new event and every clone
  gets a new one (`core/event.go:25-47`, `core/event.go:96-99`), and a fan-out gives one uuid to copies for different
  outputs only. `KafkaWriter.DoneOnceIff` shows that the writer relies on it: of several events of a batch with one uuid
  only the last is ever done.
- A pipeline has at least one output, which its configuration demands (`pipeline/pipeline.go:511-514`), and at least
  one line. `Stages.FanOut.Pass` shows that without an output the fan-out would lose its events.
- A metric's counters are float64 and stay at 2^53 once they are there (`Metric.ShownIsExactIff`); their guards against
  `MaxFloat64` are never met. Its sum, average and bounds are over exact reals.
- The mixer's progress results assume room for at least one event behind each line, which the reader of a line's
  output gives even with unbuffered channels.

## Where the code differs from what one would expect

- *The mixer can hang the assembly of a pipeline.* The lines are registered one after the other, under the write lock,
  and what the lines emit is read only after the last registration. A mixer of an earlier line that waits in its select,
  holding the read lock, with no room behind the registered lines, holds back the next registration, for good if nothing
  behind the mixers drops events. `Mixer.HangsForGoodIff`: some run gets there if and only if there are at least two
  lines with a mixer at that place, however much room there is. `Mixer.RegistersIff`: from which states the next line
  can still be registered. `Mixer.NeverHungFreely`: from all of them, if events may be dropped behind the mixers.
- *A refused storage lock blocks a pipeline id.* After `Acquire` has failed the pipeline object stays in the state
  Building, and every later Start and Stop is answered with a conflict (`Service.AbandonedIffRefused`,
  `Service.RefusedForever`, `Service.RefusedConflicts`, `Service.Refusal`).
- *A Stop can return without an error and stop nothing* (`Service.MissedStop`). `Service.StopStopsIff`: a Stop that
  returns without an error has cancelled the pipeline if and only if the pipeline was launched, or its Start just about
  to launch it, when the Stop loaded the unit. `Service.CancelledIff`: nothing else cancels a pipeline.
- *The sum of a metric* forgets what it had when an observation brings it to exactly `MaxFloat64`
  (`Metric.SumIsExactIff`); half of that, observed twice, does it (`Metric.HalvesAreLost`).
- The clone processor's documentation says that with `save_timestamp` the new event has the origin's timestamp; the code
  gives it to every clone, set or not (`Stages.CloneEvent`).
- The comment in `bindings.go` maps every slice and every string-keyed map to a Starlark value; the code converts only
  slices and maps of `any`. The model follows the code.

## Model

| member | source | states |
|---|---|---|
| `KafkaController.CommitController.constructor` | plugins/inputs/kafka/kafka.go:240-252 | a new controller has no queues, counts all readers of the topic and is not finished |
| `KafkaController.CommitController.OnFetched` | plugins/inputs/kafka/reader.go:220-241 | a fetched message is queued at the end of its partition's queue, or its token is given back if the offset is queued already |
| `KafkaController.CommitController.OnDelivered` | plugins/inputs/kafka/reader.go:242-257 | a signal takes one event off the message with that offset only, and marks it as delivered when none is left |
| `KafkaController.CommitController.CommitQueue` | plugins/inputs/kafka/reader.go:261-297 | commits the end of the longest delivered prefix, removes exactly that prefix whether or not the broker accepts, and gives back one token per removed message |
| `KafkaController.CommitController.DeleteOldest` | plugins/inputs/kafka/reader.go:288-292 | removing the n oldest messages gives back n tokens |
| `KafkaController.CommitController.OnTick` | plugins/inputs/kafka/reader.go:258-306 | in whatever order the queues are visited, every queue has lost exactly its longest delivered prefix, and doneCh is closed iff all readers have left and no token is held |
| `KafkaController.CommitController.OnExit` | plugins/inputs/kafka/reader.go:307-320 | counts a reader out; the last one lets the controller finish at once iff no token is held |
| `KafkaController.Prefix` | plugins/inputs/kafka/reader.go:262-271 | the longest delivered prefix: all of it delivered, and what follows is not |
| `KafkaController.SweptResult` | plugins/inputs/kafka/reader.go:261-298 | after a commit phase a queue is empty or starts with an undelivered message, is the end of what it was, and lost only delivered messages |
| `KafkaProtocol.AccountingAlways` | plugins/inputs/kafka/reader.go:106-136 | in every state of every run the tokens held are the queued messages plus those between token and hand-off, at most MaxUncommitted; the controller never blocks on the semaphore and never meets a missing queue |
| `KafkaProtocol.SafeAlways` | plugins/inputs/kafka/reader.go:63-166 | in every state of every ordered run each queue holds exactly the messages handed over and not removed, each with its number of missing signals |
| `KafkaHistory.CommitSafety` | plugins/inputs/kafka/reader.go:258-298 | whenever a position has been committed, of every event of every message below it the original and each copy ever made were finished, and its one signal was received; positions of a partition strictly increase, and the last one is just behind a fetched message |
| `KafkaHistory.EventHistory` | core/tracker.go:25-42 | in every state of every run, an event of which c copies were made and d finished is alive with 1 + c - d copies iff d <= c, and its hook has run iff d = c + 1; its signal is received at most once and not before |
| `KafkaHistory.SentPerMessage` | plugins/inputs/kafka/reader.go:97-166 | between a fetch and the next one exactly the events that the parser made of the message are sent; one, or none if such messages are dropped, when the parser fails |
| `KafkaProtocol.StaleFetch` | plugins/inputs/kafka/reader.go:132-136 | in the state right after the fetch of a message with events the promise holds iff no committed position is above its offset; what later commits do to it is in KafkaOrder |
| `KafkaOrder.FetchOrderIff` | plugins/inputs/kafka/reader.go:63-166 | for every topic, partition and sequence of fetches: all runs with these fetches keep every commit off unfinished messages iff no message with events comes at or below an offset fetched before |
| `KafkaOrder.KeptAlways` | plugins/inputs/kafka/reader.go:220-298 | in every state of every run whose messages with events come in increasing order, whatever the offsets of the others, each unfinished message has its entry, no commit is above it, and duplicates do no harm |
| `KafkaOrder.Breaks` | plugins/inputs/kafka/reader.go:258-298 | any other sequence of fetches has a run in which a commit covers a message of which nothing has been sent yet |
| `KafkaProtocol.CleanExit` | plugins/inputs/kafka/reader.go:300-321 | when doneCh is closed all readers have left their loop, all queues are empty, no hook can send any more, and the last commit of every partition is just behind its last message |
| `KafkaProtocol.DrainedStep` | plugins/inputs/kafka/reader.go:168-170 | when all readers wait and all hooks have fired, only the commit phase can move |
| `KafkaProtocol.DrainedTickFinishes` | plugins/inputs/kafka/reader.go:300-306 | then the next commit phase closes doneCh |
| `KafkaProtocol.DrainedProgress` | plugins/inputs/kafka/reader.go:258-306 | and until then some step of the commit phase is possible |
| `Tracker.Tracker.Decrease` | core/tracker.go:30-42 | one off the duty; panics iff it is negative; at zero all hooks run, in the order added |
| `Tracker.Tracker.Copy` | core/tracker.go:25-28 | one more on the duty, as an int32 |
| `Tracker.Tracker.AddHook` | core/tracker.go:21-23 | the hook comes last |
| `Tracker.DutyCountsCopies` | core/tracker.go:25-42 | with fewer than 2^31 copies at any time, the duty is the number of live copies, and the hooks have run exactly once when none is left and not before |
| `Tracker.FinishPanicsIff` | core/tracker.go:30-35 | exactly when finishing a live copy panics, for any number of copies |
| `Tracker.Event.AddHook` | core/event.go:49-55 | a first hook makes a tracker of duty 1, further hooks join it |
| `Tracker.Event.Done` | core/event.go:57-61 | an untracked event is left alone, a tracked one loses one copy |
| `Tracker.Event.Clone` | core/event.go:96-117 | a new event with its own uuid and otherwise the same contents, which shares the tracker and is counted by it |
| `Tracker.ShareTracker` | core/event.go:158-166 | the receiver gets the tracker and is counted, or the call panics if it has one |
| `Stages.CloneEvent` | plugins/processors/clone/clone.go:19-54 | Count clones (at least one) with the configured key and labels and the origin's timestamp, then the origin: each sent once, and duty grows by the clones |
| `Stages.ParseDonors` | plugins/processors/parser/parser.go:92-134 | copies for exactly the donors before the first that cannot be set, each like the origin but with the donor's data: alone, or set in the origin's data, without the parsed field if the origin is dropped; the copy that cannot be set is dropped and the origin goes on with the error |
| `Stages.ParseEvent` | plugins/processors/parser/parser.go:57-138 | whatever the field holds and wherever setting fails, the origin and every copy leave exactly once by out or drop, the copies with the data as told for ParseDonors, and the duty is the number of live copies |
| `Stages.FanOut.Receive` | plugins/core/fanout/fanout.go:28-29 | consuming keeps every output a prefix of the input that lags by at most one event |
| `Stages.FanOut.SendNext` | plugins/core/fanout/fanout.go:30-38 | one output gets one snapshot, a clone with the origin's uuid or, for the last output, the origin; the prefix property is kept |
| `Stages.FanOut.Pass` | plugins/core/fanout/fanout.go:28-39 | after a pass every output has the event; what was sent balances with the duty iff there is an output |
| `Graph.NeverPanics` | core/unit/soft.go:61-94 | in no run of a certified network is a send on a closed channel, a double close or a negative duty reachable, and each duty is the number of copies in flight |
| `Graph.StoppedIsComplete` | pipeline/pipeline.go:367-384 | when a run reaches Stopped, channels are empty, every event and copy that ever existed was finished exactly once, all duties are 0 and each hook ran once |
| `Graph.ConservedStep` | core/unit/soft.go:61-94 | every step keeps, for every class of events, created = in flight + finished |
| `Graph.CloseOrderStep` | core/unit/soft.go:131-166 | every step keeps: a channel is closed only when all its senders have returned, and a goroutine returns only with its input closed and empty |
| `Graph.BusyMoves` | core/unit/soft.go:61-94 | a goroutine with events in hand, or one that holds it back, can move |
| `Graph.IdleMoves` | core/unit/soft.go:131-166 | with nothing in flight a live goroutine, or something it waits for, can move |
| `Graph.AlwaysMoves` | pipeline/pipeline.go:367-384 | after the stop signal some step is possible in every state until Stopped |
| `GraphTermination.MeasureDown` | core/unit/soft.go:61-94 | every step but an input's emission decreases one natural number, for any filter count, buffer and copies |
| `GraphTermination.RunsEnd` | pipeline/pipeline.go:367-384 | once inputs emit no more, a run has at most that many steps left |
| `GraphTermination.NoEmitAfterReturn` | core/unit/soft.go:201-208 | nothing is emitted after the inputs have returned |
| `GraphTermination.Stops` | pipeline/pipeline.go:367-384 | every run with a stop signal can be continued to Stopped within that bound |
| `GraphTermination.OnlyStoppedRests` | pipeline/pipeline.go:367-384 | a run with a stop signal that no step but an emission could continue has reached Stopped |
| `GraphFlow.ContentStep` | core/unit/soft.go:61-94 | every step changes what is in any part of a network by exactly what enters and leaves it |
| `GraphFlow.FirstInFirstOut` | core/unit/soft.go:61-94 | in every run, what was taken out of a channel, followed by what is in it, is what was put into it, in order |
| `GraphFlow.PartConserves` | core/unit/soft.go:61-94 | in any certified network: once the goroutines of a part have returned, its channels are empty and what left it is, one for one, what entered it |
| `GraphFlow.UnitIsPart` | core/unit/soft.go:31-59 | the filters and the plugin of a processor or output unit read only the unit's input and the channels between them, and were given only these and the unit's own two channels to send on |
| `GraphFlow.UnitSends` | core/unit/soft.go:31-59 | whatever such a goroutine may send on is one of these, or, for a mixer only, a channel given to a mixer of its group |
| `GraphFlow.UnitConserves` | core/unit/soft.go:61-94 | for any part of a certified network with the goroutines of such a unit: once they have returned, the channels between them are empty, and what was read from the unit's input, with the copies made, is what left, each event once |
| `PipelineUnits.ProcessorInShape` | pipeline/pipeline.go:318-328 | every processor unit of every line of every configuration is a unit, as in UnitConserves, of the whole graph |
| `PipelineUnits.OutputInShape` | pipeline/pipeline.go:360-365 | so is every output unit |
| `PipelineUnits.ProcessorConserves` | core/unit/soft.go:31-94 | in every run of every pipeline, for every processor unit: once its filters and processor have returned, the events that left it are one for one those it read and made |
| `PipelineUnits.OutputConserves` | core/unit/soft.go:105-166 | the same for every output unit |
| `Wiring.AddGoroutine` | core/unit/soft.go:61-94 | starting a goroutine whose input's senders are covered keeps the network well wired |
| `Wiring.WiredIsCertified` | pipeline/pipeline.go:275-367 | a network without unread channels and uncovered senders is certified |
| `Topology.SwapParity` | plugins/core/not/not.go:15-29 | accepted events go to the reject channel iff the number of swaps, by Reverse and by wrapping Nots, is odd |
| `Topology.InputBuilt` | core/unit/soft.go:177-234 | making the channels and starting the goroutines of an input unit one by one gives its close statements: first waits for the input, rej for the input and all filters |
| `Topology.ProcessorBuilt` | core/unit/soft.go:31-94 | the same for a processor unit: drop waits for the processor, out for every goroutine of the unit |
| `Topology.OutputBuilt` | core/unit/soft.go:105-166 | the same for an output unit: rej and done wait for the output |
| `PipelinePlaces.InputPlace` | core/unit/soft.go:177-234 | in the whole graph of every configuration, in plain numbers: every goroutine of the i-th input unit with what it reads and was given, what each close waits for; its rejects are read by its consumer only, its output by the i-th goroutine of the fan-in only |
| `PipelinePlaces.ProcessorPlace` | core/unit/soft.go:31-94 | the same for the k-th processor unit of line l: filters reject to the unit's output, the processor was given the output and the drop channel, a mixer only the output; the drop channel is read by a consumer only, the output by the next unit only, or by the l-th goroutine of the fan-in |
| `PipelinePlaces.OutputPlace` | core/unit/soft.go:105-166 | the same for the o-th output unit: it alone reads the o-th output of the fan-out, and its rejects and done channels are read by its two consumers only |
| `PipelinePlaces.MergePlace` | pipeline/pipeline.go:301-311 | the fan-in of the inputs: one goroutine for each of the input units' outputs, all on one channel that is closed when all have returned |
| `PipelinePlaces.JoinPlace` | pipeline/pipeline.go:333-344 | the fan-in of the lines likewise, over what the last units of the lines send |
| `PipelinePlaces.FanOutPlace` | pipeline/pipeline.go:347-357 | the fan-out alone reads what was merged last, and was given exactly one channel for each output |
| `PipelineRoutes.EventsGetThrough` | pipeline/pipeline.go:275-367 | for every configuration, input, line and output there is a run in which an event that this input emits passes through every processor of this line and is received by this output's plugin |
| `Pipeline.GraphBuilder.AddFilter` | core/unit/soft.go:43-49 | a filter reads its input and sends to the rejects channel and a new accepts channel, whose close waits for it alone |
| `Pipeline.GraphBuilder.StartFilters` | core/unit/soft.go:61-72 | a chain of filters of any length: each reads what the one before accepts, each accepts channel is closed after its filter, and the unit's close waits for all if asked to |
| `Pipeline.GraphBuilder.NewProcessor` | core/unit/soft.go:31-94 | the whole network after a processor unit: rejects bypass the processor, drops are finished, drop is closed after the processor, and out after the filters, the processor and the consumer of drops |
| `Pipeline.GraphBuilder.NewInput` | core/unit/soft.go:177-234 | the whole network after an input unit: rejects are finished, the first channel is closed after the input, and rej after the input and all filters |
| `Pipeline.GraphBuilder.NewOutput` | core/unit/soft.go:105-166 | the whole network after an output unit: rejected and done events are finished, and both channels are closed after the output |
| `Pipeline.GraphBuilder.NewFanIn` | core/unit/soft.go:305-324 | the whole network after a fan-in: one goroutine per input, and the output closed after all of them |
| `Pipeline.GraphBuilder.NewFanOut` | core/unit/soft.go:268-297 | the whole network after a fan-out: one goroutine over all outputs, each closed after it |
| `Pipeline.GraphBuilder.AddInputs` | pipeline/pipeline.go:290-299 | the input units, and the channels at their ends |
| `Pipeline.GraphBuilder.AddLine` | pipeline/pipeline.go:318-328 | a line of processor units, each reading what the one before sends |
| `Pipeline.GraphBuilder.AddLines` | pipeline/pipeline.go:317-328 | all lines read the same channel; mixers at one place form a group |
| `Pipeline.GraphBuilder.AddOutputs` | pipeline/pipeline.go:360-365 | the output units, each on its own channel of the fan-out |
| `Pipeline.Build` | pipeline/pipeline.go:275-367 | for every configuration with an output: exactly the network of the configuration, with its goroutines, channels and close statements, which `PipelinePlaces` tells one by one |
| `Certification.ShapeIsCertified` | pipeline/pipeline.go:275-367 | the network of every configuration with an output and a line is certified: every close covers all senders of its channel |
| `Certification.PipelineDelivers` | pipeline/pipeline.go:275-384 | for every such configuration and every run of its network: no panic, duty equals copies in flight, a Stopped run has finished every event once with each hook run once; a run with a stop signal can be continued to Stopped and can rest nowhere else, and without emissions a known number bounds its remaining steps |
| `Certification.LoneInput` | core/unit/soft.go:177-234 | an input unit with a consumer of its output is certified, for any filters and buffer |
| `Certification.LoneProcessor` | core/unit/soft.go:31-94 | a processor unit between a source and a consumer is certified, for any filters and buffer |
| `Certification.LoneOutput` | core/unit/soft.go:105-166 | an output unit behind a source is certified, for any filters and buffer |
| `Mixer.Handover` | plugins/core/mixer/mixer.go:80-125 | in every run no mixer sends to a line that has returned or closed, a selecting mixer chooses among exactly the lines that are registered and have not returned, its own included, and every consumed event but the one in hand was sent to exactly one line, in order |
| `Mixer.SelectIsOpen` | plugins/core/mixer/mixer.go:108-121 | every case of a select is the output of a registered line |
| `Mixer.RegistersIff` | plugins/core/mixer/mixer.go:58-78 | if nothing behind the mixers drops events: the next line can still be registered iff no more mixers hold the read lock with an event than there is room behind the registered lines |
| `Mixer.DoomedStays` | plugins/core/mixer/mixer.go:108-125 | if nothing behind the mixers drops events, no step leads out of a state in which there are more |
| `Mixer.AssemblyCanHang` | pipeline/pipeline.go:315-344 | such a state is reachable for any two or more lines and any room |
| `Mixer.HangsIff` | pipeline/pipeline.go:315-344 | some run of the assembly gets into such a state iff there are at least two lines |
| `Mixer.HangsForGoodIff` | pipeline/pipeline.go:315-344 | if nothing behind the mixers drops events: some run of the assembly gets into a state from which the next line is never registered iff there are at least two lines |
| `Mixer.NeverHungFreely` | pipeline/pipeline.go:315-344 | if what is behind the mixers may drop events, and there is room for one behind every line: from every state of every run the next line can still be registered |
| `Mixer.NeverHangs` | plugins/core/mixer/mixer.go:80-125 | once the pipeline is assembled, until every mixer waits for an event or is done, some step is possible that leaves less work |
| `Rabbit.Acker.OnFetched` | plugins/inputs/rabbitmq/consumer.go:174-176 | the tag is tracked with its number of events |
| `Rabbit.Acker.OnDelivered` | plugins/inputs/rabbitmq/consumer.go:177-213 | a signal takes an event off; the last one, or the one of a message without events, acknowledges, forgets the tag and returns its token; the acker stops iff the consumer has left and no token is held |
| `Rabbit.Acker.OnExit` | plugins/inputs/rabbitmq/consumer.go:214-220 | the acker stops at once iff no token is held |
| `Rabbit.AckSafety` | plugins/inputs/rabbitmq/consumer.go:54-146 | a tag is acknowledged at most once, exactly when each of its events has signalled once, and then the original and every copy of each were finished; a delivery without events is acknowledged by the consumer's own signal; until then as many signals are outstanding as it has events left, or one |
| `Rabbit.EventHistory` | core/tracker.go:25-42 | as in KafkaHistory: an event is alive with 1 + c - d copies iff d <= c, and its hook has run iff d = c + 1 |
| `Rabbit.TokensAccounted` | plugins/inputs/rabbitmq/consumer.go:90-107 | tokens held are the tracked messages plus the one in hand-off, at most MaxUndelivered, and are there when the acker takes one back |
| `Rabbit.CleanStop` | plugins/inputs/rabbitmq/consumer.go:210-221 | when the acker has stopped, every fetched message was acknowledged once and no signal is outstanding |
| `Rabbit.StopsWhenDone` | plugins/inputs/rabbitmq/consumer.go:140-146 | while the consumer waits and the acker has not stopped, some event is still alive or about to signal |
| `KafkaWriter.Writing.OnWriteErrors` | plugins/outputs/kafka/writer.go:173-213 | per-message answers: exactly the retriable messages are kept, each event gets its own error |
| `KafkaWriter.Writing.OnTooLarge` | plugins/outputs/kafka/writer.go:214-218 | only the too large message is given up |
| `KafkaWriter.Writing.Try` | plugins/outputs/kafka/writer.go:154-239 | one round, for every answer of the broker |
| `KafkaWriter.Writing.Do` | plugins/common/retryer/retryer.go:15-43 | at most RetryAttempts rounds if that is positive; ends only when nothing is left to send or the attempts are used up |
| `KafkaWriter.KeptIff` | plugins/outputs/kafka/writer.go:154-239 | a message is in the next round iff the answer keeps it, which NextRound tells by the kinds of answers |
| `KafkaWriter.NextRound` | plugins/outputs/kafka/writer.go:154-239 | what is sent in the next round: nothing after a success or an unknown error, everything after a temporary Kafka error and nothing after another one, all but the message that is too large, or, in order, exactly the messages with a temporary error, a timeout or an unexpected end of file |
| `KafkaWriter.NextErrors` | plugins/outputs/kafka/writer.go:154-239 | what each answer makes of the error of each event: none, its message's own, too large for one and no change for the others, or the same for all; and no change for events that were not sent |
| `KafkaWriter.NeverResent` | plugins/outputs/kafka/writer.go:153-242 | a message reported as accepted in any round is in none of the later rounds |
| `KafkaWriter.ErrorNilIffAccepted` | plugins/outputs/kafka/writer.go:153-242 | after any number of rounds an event's error is nil iff its message was reported as accepted, given different uuids |
| `KafkaWriter.Flush` | plugins/outputs/kafka/writer.go:57-142 | one batch: unserializable events are done first, the others only after the last round, one per entry of the status map |
| `KafkaWriter.FlushReport` | plugins/outputs/kafka/writer.go:125-141 | given different uuids of the serializable events: each of them has a message with its place and uuid, and is in the report with a nil error iff that message was accepted; of an event that is not serializable nothing is sent |
| `KafkaWriter.DoneOnceIff` | plugins/outputs/kafka/writer.go:57-142 | every event of the batch goes to Done exactly once iff the serializable ones have different uuids; only those that are not serializable are skipped |
| `Batching.Run` | plugins/common/batcher/batcher.go:19-43 | the batches concatenate to exactly the items and none is longer than Buffer; every tick ends a shorter one just where it comes, the close ends one more, and all others are full; they are those of a runner taking the same steps |
| `Batching.Pool.Get` | plugins/common/pool/pool.go:31-48 | the key's running runner, or a new one, which the wait group counts |
| `Batching.Pool.Push` | plugins/outputs/kafka/writer.go:46-48 | a push goes to an open channel and is the next item of its key |
| `Batching.Pool.Advance` | plugins/common/pool/pool.go:40-45 | a runner's own step, a tick or after the close of its channel the return, loses nothing that was pushed; the return, and nothing else, lowers the wait group |
| `Batching.Pool.Wait` | plugins/common/pool/pool.go:76 | whichever runners tick and return meanwhile, the wait passes when the counter is zero, which it reaches; then every goroutine ever started has returned |
| `Batching.Pool.Remove` | plugins/common/pool/pool.go:62-67 | the runner is closed and forgotten, what was pushed to it is not |
| `Batching.Pool.Close` | plugins/common/pool/pool.go:69-78 | when the wait has passed, every runner, removed ones included, has flushed exactly what was pushed to it and returned |
| `Batching.RunOutput` | plugins/outputs/kafka/kafka.go:211-236 | for any events, idle removals and runner steps: under each key exactly its events were flushed, in order of pushes, in batches of at most Buffer |
| `Service.AtMostOneRun` | pipeline/service/internal.go:64-141 | over every interleaving at most one pipeline object is in Building to Stopping, and it is the registry's |
| `Service.StartResultIff` | pipeline/service/internal.go:64-106 | in every run a Start returns without an error iff it launched its pipeline, with a build error iff Build failed, with a lock error iff the storage refused, and then its pipeline is never launched; otherwise with a conflict, iff it found a pipeline between Building and Stopping |
| `Service.StartedFate` | pipeline/service/internal.go:241-291 | what becomes of the pipeline that a Start has built: launched for good, Stopped after a failed build, Building after a refused lock |
| `Service.StopResultIff` | pipeline/service/internal.go:108-141 | a Stop returns without an error iff it passed its cancel statement, with not found iff there was no unit, and otherwise with a conflict, iff it found the pipeline not running |
| `Service.Lifecycle` | pipeline/pipeline.go:275-384 | the goroutine of a pipeline runs only once launched, takes it from Building through Starting, Running and Stopping to Stopped, one state a step, and leaves Running only when cancelled |
| `Service.OneMutex` | pipeline/service/internal.go:64-106 | all units of the id share one mutex |
| `Service.AbandonedIffRefused` | pipeline/service/internal.go:258-267 | a built pipeline that nobody will launch exists iff the storage refused its lock |
| `Service.RefusedForever` | pipeline/service/internal.go:258-267 | from then on it stays the registry's and Building, and nothing else is ever busy |
| `Service.RefusedConflicts` | pipeline/service/internal.go:64-141 | after a refusal every call that returns, begun before or after, returns with a conflict |
| `Service.Refusal` | pipeline/service/internal.go:258-267 | a run in which that happens |
| `Service.CancellableIff` | pipeline/service/internal.go:269-274 | in every state the registry's unit has the cancel function iff its pipeline was launched or its Start is just about to launch it |
| `Service.StopStopsIff` | pipeline/service/internal.go:108-141 | a Stop that returns without an error has itself cancelled the pipeline iff, when it loaded the unit, the pipeline was launched or just about to be |
| `Service.CancelledIff` | pipeline/service/internal.go:293-298 | in every run a pipeline's context is cancelled iff some Stop has come to its cancel statement with a unit of it that has the cancel function |
| `Service.LoadedLate` | pipeline/service/internal.go:269-274 | a unit loaded while its pipeline's goroutine is at work has the cancel function |
| `Service.StopCancels` | pipeline/service/internal.go:108-141 | a Stop whose unit has the cancel function returns without an error only after cancelling (one direction of StopStopsIff, with the resulting state) |
| `Service.MissedStop` | pipeline/service/internal.go:108-141 | a run in which a Stop returns without an error and the pipeline goes on running, not cancelled |
| `Metric.Metric.Observe` | plugins/processors/stats/metric.go:35-81 | every field stays the fold of the whole history, or of the values since the last reset; the gauge is the value observed |
| `Metric.Metric.Reset` | plugins/processors/stats/metric.go:83-90 | only average, minimum and maximum start anew; count, sum, gauge and buckets stay |
| `Metric.SinceReset` | plugins/processors/stats/metric.go:83-90 | what is recent is what was observed since the last reset; what was ever observed does not change with it |
| `Metric.Metric.FillBuckets` | plugins/processors/stats/metric.go:51-59 | every bucket counts the values at or below its bound |
| `Metric.Metric.Average` | plugins/processors/stats/metric.go:61-80 | the moving average times the count is the exact sum of the recent values; minimum and maximum are attained bounds |
| `Metric.SumIsExactIff` | plugins/processors/stats/metric.go:42-46 | the stored sum is the sum of the whole history iff no value below MaxFloat64 ever brought it to exactly that |
| `Metric.HalvesAreLost` | plugins/processors/stats/metric.go:42-46 | half of MaxFloat64 observed twice leaves half of it in the sum |
| `Metric.ShownIsExactIff` | plugins/processors/stats/metric.go:36-40 | a float64 counter shows its number of increments iff that is at most 2^53, stays at 2^53 afterwards, and never meets its guard |
| `Metric.PlusOneRounds` | plugins/processors/stats/metric.go:36-40 | one more on a counter is the float64 nearest to the sum: exact iff the sum has at most 53 binary digits before its zeros, which it has iff the counter is below 2^53 |
| `Metric.BucketsAreCumulative` | plugins/processors/stats/metric.go:51-59 | buckets grow with their bound, also as shown, and one holds the count of values iff all are within it |
| `Metric.AverageIsWithin` | plugins/processors/stats/metric.go:61-80 | with a value observed since the last reset, the average field lies between the minimum and the maximum fields |
| `Metric.AverageIsBetween` | plugins/processors/stats/metric.go:61-80 | the total of any values lies between their number times their bounds |
| `Starlark.ToStarlarkValue` | plugins/common/starlark/bindings.go:239-302 | the loops over lists and maps compute the conversion, in any iteration order |
| `Starlark.ToGoValue` | plugins/common/starlark/bindings.go:304-367 | the same for the way back |
| `Starlark.StarMeans` | plugins/common/starlark/bindings.go:239-302 | the way there keeps what every value says: text, truth, number, time, list or map |
| `Starlark.GoMeans` | plugins/common/starlark/bindings.go:304-367 | the way back succeeds iff there is no function, no integer beyond 64 bits and no key but strings, and keeps what every value says; a month or a weekday becomes its name |
| `Starlark.RoundTrip` | plugins/common/starlark/bindings.go:239-367 | the way there succeeds iff the value holds only known types; then the way back succeeds with the normal form: int64 where it fits, else uint64, and float64 |
| `Starlark.SecondRoundTrip` | plugins/common/starlark/bindings.go:239-367 | a second round trip is the identity |
| `Starlark.BackTrip` | plugins/common/starlark/bindings.go:239-367 | a Starlark value that Go can hold comes back, unchanged iff it holds no month or weekday |

## Left out

- Brokers, serializers, parsers and field access: parameters or free choices of answers. Logging, metrics export, labels and timestamps put on events by the inputs, and the generation of ids.
- `Graph` starts with all goroutines of the network in place; the order in which `Pipeline.Run` starts them matters only to the mixer, and is modelled in `Mixer`. An input unit closes its rejects channel only after the stop signal as well; the model allows it before.
- The mixers' read/write lock is in `Mixer` and not in `Graph`: that a mixer waits for the lock is not a state of the whole graph, and the progress results of the two models are not joined. `Mixer.NeverHangs` shows that after the assembly the lock by itself holds nobody back.
- `Mixer` takes the room behind a line as a number of events; a second place with mixers behind the first, which lets events change lines there, is not part of it.
- Lookups and keykeepers, which see no events. Processor tables with several plugins in one entry, whose order may differ from line to line: all lines are taken to have the same shape.
- A Kafka topic without assigned partitions, whose controller never finishes. The broker's own handling of a failed commit.
- The `reject` setting of the RabbitMQ input: a rejected delivery is not tracked and takes no token.
- `KafkaWriter.Writing.Do`: with no positive number of attempts the retries may go on for ever, so that the method takes the number of tries it follows as a parameter, and every claim is made for any such number. Waiting times and per-event durations are left out.
- `Batching.RunOutput`: says nothing about the order in time between a removed runner's last flush and a new runner of the same key, which may overlap. Buffer sizes below 1, with which the batcher flushes at ticks only.
- `Service`: `Update`, `Delete`, `Add`, `StartAll` and `StopAll`, and a Start of an id that the storage does not know, which fails before it touches anything. An `Add` replaces the registry's unit without looking again, so that a Start in between falls outside the claim of one run per id.
- `Metric`: rounding of sums and averages, the label key's hash, and the caches of the stats processor with their shared flush.
- The Starlark processor's scripts, which may return an event twice; strings that are not valid UTF-8; NaN and infinities.
- `Tracker` models concurrent calls by the order of their atomic additions. Hooks are taken to be added before the event is sent, as the inputs do.
- The gRPC and RabbitMQ outputs, whose guarantees depend on how libraries close streams and confirm channels.
