# Verified model of the vehicle, its simulator and their audits

The system is a closed loop of two programs. The vehicle (C++, `src/`) admits sensor frames, runs an episode state
machine with a PID controller, answers with actuator frames and records every cycle through a lock-free ring. The
simulator (Python, `sim/`) runs plant, actuator, delay line and loss streams. They talk in *lockstep* (stop and wait,
one logical tick per exchange) or *free run* (a 2 ms schedule). Offline programs (`scripts/`, `ground/`) audit what
both leave behind.

The project models those parts as Dafny functions, and the parts the sources write as loops and mutable objects as
methods and classes proved equal to those functions. The main results:

* **Lockstep refines the in-process run.** Whatever a network that loses, repeats, delays, reorders or detectably
  garbles does, the simulator's rows are a prefix of the reference program's rows, and all of them on exit code 0
  (`Refinement.RunsRefineReference`). A run that loses sends, frames and replies still reaches code 0 as long as one
  attempt per tick gets through and the reply to the last tick, which is sent once, arrives
  (`Lossless.LossyRunCompletes`, `FinalReply`). All counter equations hold after every step (`Counters`), and of a
  completed run the offline audit demands nothing more than a network without unexplained or garbled datagrams
  (`Verdict.CompletedRunVerdict`). How such a run ends is decided exactly: the audit's table of expected reason pairs
  fits every completed run but one kind, a one-tick scenario whose delivered initial sample is already past 0.30 rad.
  There the simulator reports its horizon while the vehicle reports divergence (`Endings.CompletedRunEnds`, and
  `Endings.LostStartIsReported` for an input).
* **Free-run admission.** Conservation, buffer bounds, order of consumption, the slot array as a map, promotion in
  the frame's own cycle and the one-time terminal latch hold over all runs (`AdmissionRuns`, `AdmissionOrder`,
  `AdmissionSlots`), and the audit that recomputes every population from the recording accepts every honest run
  (`AuditRuns.HonestRunPasses`).
* **What every tick and packet comes to.** Every row of the reference run follows from the rows before it, the scenario
  and the draws (`HeadlessMeaning.RowsFollow`), every request from the samples and requests before it
  (`EpisodeMeaning.RequestMeans`). Every packet the vehicle, the simulator, the free-run admission and the ground
  receiver are given is disposed of and counted by what they have answered, accepted, heard or recorded so far
  (`SessionMeaning.EveryPacketMeans`, `SimulatorMeaning.EveryDatagramMeans`, `AdmissionIdentity.RepeatMeans`,
  `GroundMeaning.EveryDeliveryMeans`), and every batch of replies by its draws (`FreeModelMeaning.ReceiveMeans`).
* **Episode and controller.** The vehicle's in-place step is the reference step; the settle counter, the command
  ledger and the replay protection hold over all runs; the PID limits hold along every episode, for arithmetic with
  any rounding that is monotone, odd and close enough, as rounding to the nearest binary64 number is.
* **Telemetry.** CRC-32C (section 12.1 of RFC 3720) by table equals its definition; frames and payloads round-trip;
  two stream decoders agree on every byte string, and their counters are what is missing from a numbered run; every
  interleaving of ring producer and consumer is linear; a recording closed without a noted failure decodes to every
  record pushed before the stop.
* **Ground evidence.** The merge accepts exactly the subsequences of a contiguous vehicle stream, and every lossy
  delivery produces one.
* **Free-run simulator accounting and random streams.** Draws, partitions and the delay line hold over any calls; the
  generator's mixer is a bijection and its streams do not repeat.

Conventions: binary64 values are 64-bit words compared as bits, with finiteness and magnitude read from the word;
bytes are numbers below 256; plant and PID step are functions of the scenario wherever their arithmetic does not
matter, and the controller itself is verified over `real` with every operation rounded. Kernel calls, clocks and
network choices enter as outcome sequences.

## Modules

`Basics`, `Crc`, `Frames`, `Stream`, `StreamCounts`, `Payload`, `WirePositions` are the wire; `Episode`,
`EpisodeRuns`, `EpisodeMeaning`, `Control`, `Rng`, `Headless`, `HeadlessRuns`, `HeadlessMeaning` the reference run;
`Session`, `SessionMeaning`, `Simulator`, `SimulatorMeaning`, `Lockstep`, `Refinement`, `Lossless`, `FinalReply`,
`Reconcile`, `Counters`, `History`, `HistoryRuns`, `Endings`, `Verdict` the lockstep exchange and its audit;
`Admission` and the `Admission*` modules, `Intervals`, `FreeRun`, `FreeRunMeaning`, `FreeRunProgram`, `Audit`,
`AuditRuns` the free-run vehicle and its audit, `AuditMeaning` both audits; `FreeModel`, `FreeModelMeaning`,
`FreeModelClass` the free-run simulator; `Ring`, `Recording` the recording path; `Ground`, `GroundMeaning` the ground
receiver. A `...Meaning` module says what the functions of its namesake come to without naming their branches: by
what was received, answered or recorded before, and by the draws and the scenario.

`dafny verify dfyconfig.toml --resource-limit 2000000 --verification-time-limit 0` checks everything.

## Model

| member | source | states |
|---|---|---|
| Frames.DecodeInvertsEncode | src/telemetry.cpp:119-136 | Decoding an encoded frame of a known type and its exact payload size returns type, sequence number and payload |
| Frames.EncodeInvertsDecode | src/telemetry.cpp:119-136 | A datagram is accepted only if it is, byte for byte, the encoding of what is returned |
| Frames.EncodeInjective | src/telemetry.cpp:51-62 | Different frames never share bytes |
| Frames.EncodeFrameInto | src/telemetry.cpp:51-62 | Writing at offsets into a buffer leaves exactly the encoded frame there and touches nothing beyond it |
| Frames.OneByteCorruptionRejected | src/telemetry.cpp:119-136 | Changing any one byte of an accepted datagram makes it rejected; with the named error where only one can apply |
| Crc.TableEntry | src/telemetry.cpp:16-25 | The table's shift loop computes eight steps of the bitwise definition |
| Crc.MakeCrcTable | src/telemetry.cpp:16-26 | All 256 entries are the bitwise remainders of their indices |
| Crc.TableCrc32c | src/telemetry.cpp:30-36 | The table-driven loop equals the bit-by-bit reflected CRC-32C of section 12.1 of RFC 3720 on every byte string |
| Crc.BitsLinear | src/telemetry.cpp:16-25 | The bitwise step is linear over exclusive or, which is why a table works |
| Crc.UpdateInjective | src/telemetry.cpp:30-36 | One update is injective in the state for a fixed byte, and in the byte for a fixed state |
| Crc.OneByteChange | src/telemetry.cpp:30-36 | Changing one byte of any string always changes its checksum |
| Crc.KnownChecksums | src/telemetry.cpp:16-36 | Four bytes of ones have the checksum 0xffffffff, and with 0x80 behind them 0x7d09c487, which only one polynomial gives |
| Payload.LayoutsTile | ground/wire.py:65-83 | In each of the six layouts the fields cover the payload exactly, without gap or overlap |
| Payload.EncodePayloadInto | ground/wire.py:94-108 | Filling a zeroed buffer field by field gives the concatenated encoding, or a refusal exactly for impossible counts |
| Payload.PayloadRoundTrip | ground/wire.py:94-122 | Every accepted payload decodes to its values, reserved flag bits cleared |
| Payload.BytesRoundTrip | ground/wire.py:111-122 | Re-encoding what was decoded gives the bytes back |
| Payload.ControlRoundTrip | src/telemetry.cpp:264-328 | A control record is encoded exactly when its counts are possible, and then decodes to itself field for field |
| Payload.SensorRoundTrip | src/telemetry.cpp:207-233 | A sensor payload decodes to what was encoded, reserved flag bits cleared |
| Payload.ActuatorRoundTrip | src/telemetry.cpp:235-262 | An actuator payload decodes to what was encoded |
| WirePositions.SensorOnWire | src/telemetry.cpp:207-218 | Each named field of an encoded sensor lies at its byte positions, least byte first, the flags without their reserved bits |
| WirePositions.ActuatorOnWire | src/telemetry.cpp:235-247 | So does each of an encoded actuator |
| WirePositions.ControlOnWire | src/telemetry.cpp:264-296 | and of an encoded control record |
| WirePositions.SensorDecoded | src/telemetry.cpp:220-233 | Whatever 44 bytes are decoded, every field is read from its positions |
| WirePositions.ControlDecoded | src/telemetry.cpp:298-328 | So are those of every control record that decodes |
| Basics.LERoundTrip | src/wire.hpp:21-54 | Reading back the little-endian bytes of a value that fits gives the value |
| Basics.UnLERoundTrip | src/wire.hpp:56-90 | Writing back what was read gives the bytes |
| Stream.DecodeByScanning | src/telemetry.cpp:64-117 | The byte-scanning decoder computes the one stream semantics: frames with positions, counters, skipped bytes |
| Stream.DecodeByFinding | ground/wire.py:152-209 | The find-based decoder returns the same frames, counters and skipped bytes on every byte string |
| Stream.StreamSoundAndComplete | src/telemetry.cpp:64-117 | Frames returned are genuine and disjoint, no uncovered position before the end holds a valid frame, consumed plus skipped is the length, and decoding stops early only at a cut frame |
| Stream.DecodeConcat | ground/wire.py:143-209 | Decoding a concatenation of encoded frames returns exactly those frames, nothing skipped, no error counted |
| Stream.ConsecutiveLosesNothing | src/telemetry.cpp:105-111 | Consecutive sequence numbers count nothing lost, across the 32-bit wrap |
| StreamCounts.CountersMean | src/telemetry.cpp:64-117 | On every byte string each counter is what it says: frames found, numbers skipped between neighbours, steps back, positions outside all frames that fail for version or checksum, and falls out of step |
| StreamCounts.LostAreRemoved | src/telemetry.cpp:105-111 | If frames are removed from a consecutively numbered run, across the wrap, lost is the number removed between the first and the last kept one, and nothing is a discontinuity |
| StreamCounts.StepBackCounts | src/telemetry.cpp:105-111 | A frame numbered up to 2^31 behind the expected one is one discontinuity and nothing lost |
| Episode.PrefixInPlace | src/episode.cpp:10-24 | The vehicle's prefix check is the reference's, on every command |
| Episode.ApplyInPlace | src/episode.cpp:25-41 | Applying in place changes mode and terminal and returns the ack the reference computes |
| Episode.SettleInPlace | src/episode.cpp:57-65 | Incrementing only below the cap equals taking a minimum, while the counter is at most 1000 |
| Episode.CommandsInPlace | src/episode.cpp:99-128 | The command phase on the working copy is the reference's: same mode, pending slot, last command and acks |
| Episode.StepInPlace | src/episode.cpp:54-142 | The vehicle's transition returns the reference transition's value on every state with a settle counter of at most 1000 |
| Episode.StepKeeps | sim/episode.py:140-213 | Every step keeps states well formed, moves the mode only forward and never revises a termination |
| EpisodeRuns.RunMovesForward | src/episode.cpp:54-142 | Over any run the mode never goes back, and a terminated state never changes |
| EpisodeRuns.SettleIsTrailing | src/episode.cpp:57-65 | While the episode was live, the settle counter is the trailing run of in-box held samples, capped at 1000 |
| EpisodeRuns.StabilizedExactlyWhenSettled | src/episode.cpp:79-81 | At a horizon with nothing else wrong, STABILIZED is reported exactly when the last thousand held samples were in the box |
| EpisodeRuns.StabilizedImpliesSettled | src/episode.cpp:67-81 | STABILIZED is only ever reported after a thousand consecutive in-box cycles |
| EpisodeRuns.StepLedger | src/episode.cpp:83-128 | In a live cycle every arriving command gets exactly one arrival ack, and the cycle's acks account for what was queued and what was resolved |
| EpisodeRuns.QueuedAreResolvedOrPending | src/episode.cpp:83-128 | Over any run the queued commands are the resolved ones, in order, followed by the single pending one |
| EpisodeRuns.BehindIsInert | src/episode.cpp:14-22 | A command at or within 2^31 behind the last accepted one changes nothing but adds one refusing ack |
| EpisodeRuns.AppliedAreAccepted | src/episode.cpp:99-128 | Applied commands are accepted ones, each at most once, in order, and accepted numbers advance by less than 2^31 each |
| EpisodeRuns.ReuseNeedsFullCircle | src/episode.cpp:14-22 | An accepted sequence number can come back only after the accepted numbers went all the way round 2^32 |
| EpisodeRuns.ReplayNeedsFullCircle | src/episode.cpp:10-128 | Over any run, applying one sequence number twice takes a full circle of accepted commands in between |
| EpisodeMeaning.RequestMeans | src/episode.cpp:130-141 | Over any run a fresh flying cycle requests what the controller answers to its sample, after exactly the fresh flying samples before; one without a sample repeats the last such request while the sample is at most 8 cycles old and asks for zero from 9 on; any other cycle asks for zero |
| EpisodeMeaning.PidFollows | src/episode.cpp:130-138 | Over any run the controller has seen the samples of the fresh flying cycles, each once and in order, and no others |
| EpisodeMeaning.EndsExactlyFor | src/episode.cpp:67-82 | Exactly when a live cycle ends the episode for each of the seven reasons that are no command |
| EpisodeMeaning.ArrivalMeans | src/episode.cpp:99-121 | Exactly which of nine acknowledgements an arriving command gets, from its number, opcode and tick alone |
| EpisodeMeaning.ModeMeans | src/episode.cpp:99-134 | Mode, pending and last accepted command after a live cycle follow from the one command in effect |
| EpisodeMeaning.ResolutionMeans | src/episode.cpp:102-127 | The pending command is given up for an abort, resolved when due, or left alone, with the acknowledgement of each |
| EpisodeMeaning.AcksTruthful | src/episode.cpp:25-41 | An applied acknowledgement names this tick and the mode its command led to; any other names neither |
| EpisodeMeaning.EndingRefuses | src/episode.cpp:86-97 | A cycle that ends the episode for another reason applies, queues and preempts no command |
| Control.Controller.Step | src/control.cpp:9-51 | The in-place controller computes the reference step, operation by operation: same delta and same three state fields, under any rounding |
| Control.StepBounded | sim/control_ref.py:31-77 | Request and integrator stay within the rounded 0.12, whatever the rounding |
| Control.NeverWindsUp | src/control.cpp:24-45 | While the request is saturated the integrator never moves further the same way |
| Control.ResponseIsOdd | src/control.cpp:9-51 | A mirrored input from a mirrored state gives the mirrored response |
| Control.RequestIsMonotone | src/control.cpp:9-35 | A larger angle error never lowers the request, saturation included |
| Control.RateRaisesRequest | src/control.cpp:12-35 | A larger angular rate never lowers the request |
| Control.UnsaturatedStep | src/control.cpp:9-51 | In exact arithmetic and short of every limit the request is KP times the angle plus KD times the filtered rate plus the integrated angle, and the state left is that rate, that integral and that request |
| Control.FilteredBetween | src/control.cpp:12-14 | The filtered rate, rounded at each of its four operations, lies between the rate before and the rate seen |
| Control.RunKeepsBounds | src/episode.cpp:130-141 | Along every episode run the integrator stays bounded and the filtered rate never exceeds the largest rate seen |
| Control.EveryRequestInLimits | sim/actuator.py:11-19 | Every request of every run is in limits, through fresh, coast, neutral and terminal cycles, so the actuator clamp is the identity on it |
| Rng.UnmixInvertsMix | sim/rng.py:18-22 | The mixer has a left inverse on 64-bit words |
| Rng.MixInvertsUnmix | sim/rng.py:18-22 | and a right one, so it is a bijection |
| Rng.SplitMix64.NextU64 | sim/rng.py:30-36 | The generator returns the mix of its advanced state |
| Rng.StateIsLinear | sim/rng.py:34-36 | After n draws the state is start + n * GOLDEN modulo 2^64 |
| Rng.DrawsDistinct | sim/rng.py:34-36 | No value repeats within 2^64 draws |
| Rng.StreamsDistinct | sim/rng.py:7-27 | The named streams start in different states for any master seed |
| Rng.KnownDraw | sim/rng.py:18-36 | The first draw from state zero is 0xe220a8397b1dcdaf, and so is the start of the first stream under seed zero |
| Rng.DropChances | sim/link.py:4-8 | Probability zero never drops, one always does, and a higher one drops whatever a lower one does |
| Headless.RunHeadless | sim/run_headless.py:19-87 | The tick loop leaves the rows, stream states and final reason of the reference run, which always ends within the horizon |
| Headless.Sense | sim/run_headless.py:51-58 | Observation, held sample, freshness and age of one tick |
| Headless.Delay.PushPop | sim/run_headless.py:10-16 | The delay line releases its oldest entry |
| HeadlessRuns.RunConsistent | sim/run_headless.py:43-83 | At every tick rows, held sample, pending reason and episode state agree with each other, and the run is over exactly when the episode is |
| HeadlessMeaning.RowsFollow | sim/run_headless.py:43-83 | Every row of every run follows from the rows before it: truth, losses drawn, observation, staleness, command, reason, the request that arrives, and what is applied, which is the row before's when nothing arrives, the arriving word within 0.12 and 0.12 with its sign beyond |
| HeadlessRuns.StabilizedExactlyWhenAccepted | sim/trace.py:82-96 | For a run that reaches its horizon without uplink loss, the episode says STABILIZED exactly when the acceptance clause finds the rows settled |
| Session.ProjectAck | src/lockstep.cpp:11-20 | The loop selects the first applied ack, else the first |
| Session.RecordEncodable | src/lockstep.cpp:97-105 | The record of a logical cycle always has counts the control payload accepts |
| Session.Session.Receive | src/lockstep.cpp:39-114 | The session's fields after a datagram, and its disposition, are those of the specification, on every branch |
| Session.Session.EndSend | src/lockstep.cpp:120-128 | Send outcome, first transmission, original failure and record flag are accounted as specified |
| Session.Session.NoteRecord | src/lockstep.cpp:129-133 | A record attempt is resolved as a push or a ring drop |
| Session.Session.Stop | src/lockstep.cpp:134-136 | A stop is noted only while nothing else has ended the session |
| Session.Serve | src/lockstep.cpp:229-257 | The receive loop leaves the session the sequence of arrivals adds up to |
| SessionMeaning.EveryPacketMeans | src/lockstep.cpp:39-75 | Over any run of the receive loop a session remembers exactly the frames it answered, in the order of their ticks; by them alone each packet is new, served from the cache, dropped or fatal, and counted as such |
| SessionMeaning.NewMeant | src/lockstep.cpp:76-112 | The state after a new cycle is that of the episode run over the answered frames, each once |
| SessionMeaning.NewCycleMeans | src/lockstep.cpp:76-113 | A new cycle is one episode step on what its frame says, with each record flag, each status byte of the reply and the acknowledgement shown pinned down |
| Lockstep.SameInputs | src/lockstep.cpp:60-90 | From the frame alone the vehicle rebuilds exactly the inputs of the reference episode |
| Lockstep.VehicleAnswers | src/lockstep.cpp:39-114 | The frame of the next tick runs the next cycle of the reference episode and caches its reply |
| Lockstep.VehicleRepeats | src/lockstep.cpp:61-70 | The frame of an answered tick is answered from the cache if it is the latest, else dropped; nothing else changes |
| Lockstep.OnlyAcceptanceMoves | sim/run_sim.py:81-129 | Only the acceptance of a reply advances the model: no send, retry, timeout, duplicate or bad datagram does |
| Lockstep.ClosesLikeTick | sim/run_sim.py:131-145 | Closing a tick on the reference request is one tick of the reference run |
| Lockstep.ReplyRead | src/lockstep.cpp:106-109 | The simulator decodes from a reply the reference request, mode, status word and staleness |
| Lockstep.CallMoves | sim/run_sim.py:81-145 | Whatever the kernel returns, the simulator stays at its tick or closes it exactly as the reference does |
| Simulator.SendOnce | sim/run_sim.py:82-98 | One physical send: attempt, outcome, first success and input recording |
| Simulator.Examine | sim/run_sim.py:107-127 | One received datagram is malformed, discarded, duplicate, old, fatal or the answer, and counted as such |
| Simulator.Transact | sim/run_sim.py:81-129 | The retry and receive loops of a tick leave the state their kernel calls add up to |
| Simulator.CloseInPlace | sim/run_sim.py:133-145 | Delay line, actuator, row, end of run and plant step of an answered tick |
| Simulator.Execute | sim/run_sim.py:54-147 | The simulator program leaves the state its kernel calls add up to, killed at any of them |
| SimulatorMeaning.EveryDatagramMeans | sim/run_sim.py:107-132 | Against any vehicle and any network the simulator remembers exactly the replies that closed its ticks, and by them disposes of and counts each datagram |
| SimulatorMeaning.LossesAreDrawn | sim/run_sim.py:56-62 | Over every run each stream is drawn from once per tick opened, and the losses reported are the decisions of those ticks, however often the network makes it repeat itself |
| Refinement.CallKeeps | sim/run_sim.py:54-147 | Every kernel call of the simulator keeps the two sides and the messages in flight coupled to the reference run |
| Refinement.ServeKeeps | src/lockstep.cpp:229-257 | So does every datagram the vehicle handles, and none of them is fatal |
| Refinement.AlwaysCoupled | sim/run_sim.py:54-147 | Whatever a losing, duplicating, reordering or detectably corrupting network does, both sides stay coupled to the reference run |
| Refinement.RunsRefineReference | sim/run_sim.py:54-147 | The simulator's rows are always a prefix of the reference rows, and all of them with the same final reason on code 0; the vehicle never meets a conflicting or skipped tick |
| Refinement.NeverFatal | src/lockstep.cpp:71-75 | No packet a running vehicle can be given is fatal |
| Refinement.SimulatorIsPlayed | sim/run_sim.py:54-147 | The simulator of the system is the simulator program under the same kernel-call outcomes |
| Lossless.LossyRunCompletes | sim/run_sim.py:81-129 | A run that keeps losing sends, frames and replies ends with code 0, every reference row and every record, as long as every tick has one of its 26 attempts left to get through and the reply to the last tick is not lost |
| Lossless.DeliveryCompletes | sim/run_sim.py:54-147 | In particular when nothing is lost, so the refinement and the audit results are not vacuous |
| FinalReply.CompletedNeedsReplies | sim/run_sim.py:101-129 | Conversely, a run that ends with code 0 was handed the reply to every tick it ran |
| FinalReply.LastReplySentOnce | src/lockstep.cpp:253-257 | Once the vehicle has answered the last tick it serves nothing more: that reply goes out in the one pass or never |
| Reconcile.ReceiverErrors | scripts/reconcile.py:23-34 | The receiver audit reports nothing exactly when the counters are natural and the three equations hold |
| Reconcile.BalancedHasNoErrors | scripts/reconcile.py:12-20 | The sender audit reports nothing exactly when the counters are natural and the five equations hold |
| AuditMeaning.OneSendOff | scripts/reconcile.py:12-20 | Whichever one of the eleven counters of a faultless sender is changed, the audit reports it |
| AuditMeaning.OneReceiptOff | scripts/reconcile.py:23-34 | And so for each counter of a receiver |
| Counters.PassCounts | src/lockstep.cpp:229-257 | The vehicle's equations hold after the receive, after the send begins, after it ends and after the record is noted |
| Counters.CallCounts | sim/run_sim.py:77-132 | The simulator's equations hold after every kernel call, and no counter underflows |
| Counters.CountersBalance | scripts/reconcile.py:12-34 | After every action of any run both sides satisfy all sender and receiver equations |
| Counters.AuditsReportNothing | scripts/reconcile.py:12-34 | So the counter audits report nothing, and logical receipts, generated replies and episode transitions are equal |
| History.CheckHistory | scripts/reconcile.py:87-113 | The audit's loop reports nothing exactly when the four recordings agree on every tick and the sample totals match the link counters |
| History.TickErrors | scripts/reconcile.py:91-111 | One tick is found faultless exactly when sample, record, reply and row agree in everything the audit compares |
| AuditMeaning.HistoryIsDetermined | scripts/reconcile.py:87-113 | Two histories of the same frames that both pass agree in all the frames decide of the records, and where the records agree, in the replies up to their rung |
| HistoryRuns.ReferenceAgrees | scripts/reconcile.py:87-111 | At every tick the sample, record, reply and row of the reference run agree in all the audit compares |
| HistoryRuns.AlwaysLogged | src/lockstep.cpp:229-257 | At every reachable state of the two processes and the network, the recordings and reports are those of the reference run so far |
| HistoryRuns.CompletedRunStreams | scripts/reconcile.py:114-117 | A run that ends with code 0 has drawn from each loss stream once per generated frame, from the named start, and never for a retry |
| HistoryRuns.CompletedRunAgrees | scripts/reconcile.py:83-113 | A run that ends with code 0 and no ring drop leaves four complete recordings that agree; unsent replies in the recording are the counted original send failures |
| Endings.EndingPair | scripts/reconcile.py:121-139 | The reference run ends in an expected pair of reasons exactly unless it is a single tick whose delivered initial sample is already out of range |
| Endings.CompletedRunEnds | scripts/reconcile.py:119-137 | The audit of the ending reports nothing for a completed run, or exactly one error in that one case |
| Endings.LostStartIsReported | scripts/reconcile.py:118-133 | That case exists: a delivered one-tick run from half a radian is reported as an unexpected terminal pairing |
| Verdict.ReconcileRun | scripts/reconcile.py:40-137 | The whole lockstep audit reports nothing exactly when the evidence is eligible: counters, residuals, populations, PID calls, history, random streams and ending |
| Verdict.CompletedRunVerdict | scripts/reconcile.py:40-137 | A completed run is eligible exactly when as many datagrams arrived as were sent, none was garbled, no first reply failed to go out and the run did not start lost; everything else the audit demands the programs guarantee |
| Verdict.DeliveryIsEligible | scripts/reconcile.py:40-137 | The run in which every datagram sent is received once is eligible, unless it starts lost |
| AuditMeaning.EligibleMeans | scripts/reconcile.py:40-137 | Eligible evidence of n ticks explains both directions copy by copy, has one record per tick with its reply sent, four agreeing recordings of n ticks, n draws from each stream and an ending its last record shows |
| AdmissionClass.AdmissionControl.BeginCycle | src/freerun_admission.cpp:46-76 | Opening a cycle: refusal, warmup occupancy, due frame, shifted slots and expiries as specified |
| AdmissionClass.AdmissionControl.Identify | src/freerun_admission.cpp:82-93 | The prior frame with an incoming frame's tick, in the source's search order |
| AdmissionClass.AdmissionControl.Candidate | src/freerun_admission.cpp:100-107 | Offering a candidate keeps the newer and logs the other as superseded |
| AdmissionClass.AdmissionControl.Terminal | src/freerun_admission.cpp:109-113 | A notice is checked for legality and kept if nothing is latched and it is the newest |
| AdmissionClass.AdmissionControl.Receive | src/freerun_admission.cpp:121-197 | Every datagram is classified and accounted as specified, on every branch |
| AdmissionClass.AdmissionControl.FinishCycle | src/freerun_admission.cpp:199-216 | Closing a cycle: promotion, latch, staleness and totals as specified |
| AdmissionRuns.ShiftExact | src/freerun_admission.cpp:60-74 | The loop over the slots sends each frame to its new distance, to the due place or to expiry |
| AdmissionRuns.ReceivedKeeps | src/freerun_admission.cpp:121-197 | Any datagram at any moment keeps the invariant, conservation included |
| AdmissionRuns.IdentitiesAlwaysHold | src/freerun_admission.cpp:218-221 | At every closed cycle of every run, tick gaps included, received equals dispositions plus parked, for the episode and for the recorded window |
| AdmissionRuns.BuffersNeverOverflow | src/freerun_admission.cpp:95-98 | The discard list is as long as old, superseded, nonfinite and skew-excess together, at most the received count, at most 9; neither array overflows |
| AdmissionRuns.ParkingSlotFree | src/freerun_admission.cpp:188-192 | A parked frame is never overwritten |
| AdmissionOrder.ConsumedInOrder | src/freerun_admission.cpp:199-206 | Over any run consumed samples are finite and strictly increasing in tick, never beyond the expected tick, and the last is the held one |
| AdmissionOrder.StalenessIsAge | src/freerun_admission.cpp:209-210 | Staleness is the distance to the last consumed tick, or the number of cycles, saturated |
| AdmissionOrder.LatchNeverChanges | src/freerun_admission.cpp:109-113 | The terminal latch is set only by a due notice and never changes |
| AdmissionSlots.SlotsAreMap | src/freerun_admission.cpp:60-76 | Over any run the shifting slot array is the map from tick to first-parked frame |
| AdmissionSlots.ChoiceIsNewest | src/freerun_admission.cpp:100-107 | The candidate of a cycle is the first newest among the due frame and the eligible frames of the batch |
| AdmissionSlots.ParkedIsPromoted | src/freerun_admission.cpp:61-67 | With consecutive cycles a parked normal frame is the choice of exactly the cycle of its tick, whatever else arrives |
| AdmissionSlots.SteadyNeverExpires | src/freerun_admission.cpp:115-119 | With consecutive cycles nothing parked ever expires |
| AdmissionCycle.CycleTotals | src/freerun_admission.cpp:46-216 | A whole cycle: totals, raw receipts, consumption, order, staleness and discards in one statement |
| AdmissionIdentity.RepeatMeans | src/freerun_admission.cpp:160-175 | Over any run a duplicate repeats tick and payload of an earlier datagram; a conflict has the tick of one with another payload and raises integrity |
| AdmissionIdentity.NewestAgain | src/freerun_admission.cpp:78-93 | The newest frame's bytes again, with room left, are a duplicate (or again nonfinite), and a normal one leaves integrity as it was |
| AdmissionIdentity.NoPriorMeans | src/freerun_admission.cpp:82-93 | A frame has no prior one exactly when nothing still remembered has its tick |
| AdmissionEffects.ClassMeans | src/freerun_admission.cpp:146-197 | Exactly when a frame is nonfinite, a repeat, old, current, future or in excess of the skew |
| AdmissionEffects.ReceiptMeans | src/freerun_admission.cpp:121-197 | Over any run a received frame changes the counters, the discard list and integrity by its class and by nothing else |
| AdmissionEffects.MalformedMeans | src/freerun_admission.cpp:123-145 | A garbled datagram is counted by its decode error and raises integrity |
| AdmissionEffects.OpeningMeans | src/freerun_admission.cpp:46-60 | Opening raises integrity exactly when it is refused, leaves a gap in the ticks or brings a due notice with no legal reason |
| AdmissionEffects.NoticeIsNewest | src/freerun_admission.cpp:109-113 | As long as nothing is latched, a cycle's notice is the first newest of the due one and those its datagrams present |
| AdmissionEffects.ClosingMeans | src/freerun_admission.cpp:199-216 | What a closed cycle admits, holds, counts and reports follows from its candidate and its notice |
| FreeRunProgram.CycleInPlace | src/freerun.cpp:81-169 | One scheduled cycle over the mutable admission object computes the cycle function |
| FreeRunProgram.RunFreerun | src/freerun.cpp:76-172 | The loop ends at the terminal cycle, a failed sleep or the last cycle, with the runtime the cycles add up to |
| FreeRunProgram.ResendTerminal | src/freerun.cpp:174-184 | Every further terminal copy is one attempt and one outcome |
| FreeRun.CycleBetween | src/freerun.cpp:81-102 | The admission is closed between cycles, keeps its invariant, and the next tick can always be opened |
| FreeRunMeaning.EveryCycleMeans | src/freerun.cpp:105-137 | In every cycle of every run the decision is taken on the admitted sample's own tick, angle and rate, the controller sees no other, and the record shows the sample, the request and each flag |
| FreeRunMeaning.CycleCounts | src/freerun.cpp:84-155 | A cycle counts controller calls, receive errors, replies sent and failed, terminal ones apart, and records pushed and dropped |
| FreeRunMeaning.CopiesMean | src/freerun.cpp:174-184 | After a terminal cycle the reply goes out at most as often as configured, each further copy counted for its outcome; otherwise no copy is sent |
| AuditRuns.RecordsEncodable | src/freerun.cpp:119-134 | Every record of the free-run loop has counts the control payload accepts |
| AuditRuns.CycleKeepsBooks | src/freerun.cpp:96-168 | Every honest cycle keeps summary and recording in agreement |
| AuditRuns.HonestRunPasses | scripts/latency.py:25-116 | The audit accepts every honest run: any batches, any send outcomes, any warmup, any length whose sums fit, however the loop ended and however many terminal copies followed |
| Audit.Validate | scripts/latency.py:25-116 | The audit reports nothing exactly when every population recomputed from the recording agrees with the summary |
| AuditMeaning.SummaryIsDetermined | scripts/latency.py:25-116 | A recording and its terminal notices leave the audit one summary to accept: cycles, both windows, terminal cycle, totals and every distribution's population and sum |
| Audit.Observations | scripts/latency.py:71-80 | Replaying the admitted history row by row finds a fault exactly when some row breaks it |
| Audit.Ladder | scripts/latency.py:82-86 | The four rungs are the rows counted by rung |
| Ring.SpscRing.TryPush | src/telemetry.hpp:220-229 | Run by itself, a push is refused exactly when the ring is full, and is counted |
| Ring.SpscRing.PopBatch | src/telemetry.hpp:231-238 | Run by itself, a batch pop takes the oldest entries that fit |
| Ring.EveryInterleaving | src/telemetry.hpp:220-238 | Every interleaving of the atomic steps keeps the ring linear: no unread slot is overwritten, no torn slot is read |
| Ring.RefusedWhenFull | src/telemetry.hpp:221-225 | Every refused attempt in the log was refused at a step of the run that loaded a tail a whole ring behind the head, with exactly the attempts before it over |
| Ring.RingIsLinear | src/telemetry.hpp:220-247 | Index bounds, popped a prefix of accepted, accepted plus drops equal to attempts, every entry stamped with the refusals before it, and every refusal in the log made when the ring was full |
| Recording.WriteBatch | src/telemetry.cpp:400-418 | The write loop over a batch appends its encodable records in order, numbered consecutively, each written whole or short, and notes every refusal and short write |
| Recording.EveryRunSound | src/telemetry.cpp:390-443 | Under every interleaving of producer, stop and drain and every outcome of writes and flush, the file is the records popped as long as nothing failed, and a failure is noted exactly when something did |
| Recording.ExitedHasEverything | src/telemetry.cpp:385-443 | When the drain has exited, it has tried to write every record accepted before the stop, in order |
| Recording.FailureIsNoted | src/telemetry.cpp:411-443 | An exited drain notes a failure exactly when a record had impossible counts, a write fell short or the flush failed |
| Recording.RecordingDecodes | src/telemetry.cpp:300-328 | A recorded stream decodes field for field to its records, with nothing lost, skipped or resynchronised, across the sequence wrap |
| Recording.RecordingIsComplete | src/telemetry.cpp:384-448 | End to end: after the drain has exited without noting a failure, the file decodes to every record pushed before the stop |
| Ground.Receiver.Accept | ground/link.py:47-73 | One datagram: source binding, disposition and recording as specified, a failed write included |
| Ground.ReceiverKept | ground/link.py:38-73 | Whatever arrives from wherever, every datagram has exactly one disposition and the recording is genuine and strictly increasing |
| GroundMeaning.EveryDeliveryMeans | ground/link.py:47-73 | Over any deliveries the receiver binds to the source of the first usable frame, and each datagram is foreign, malformed, recorded, unwritable, a duplicate, a conflict or out of order exactly by that and by what is recorded |
| Ground.MergeFrame | ground/link.py:267-285 | One vehicle frame against the next ground frame keeps the merge state, or shows that no merge exists |
| Ground.MatchStreams | ground/link.py:262-290 | The one-pass merge succeeds exactly when the vehicle stream is contiguous and increasing and the ground stream is a subsequence of it, and the losses are the unmatched frames |
| Ground.MembersAreSubsequence | ground/link.py:262-290 | Increasing frames that all occur in an increasing run are a subsequence of it |
| Ground.DeliveryIsAccepted | ground/link.py:38-73 | However the sent frames are lost, repeated and reordered, the recording is a subsequence of them and the merge accepts it |
| Ground.PopulationsAddUp | ground/link.py:375-384 | The population equations of the offline check follow from the two subsequences |
| FreeModel.RunAccounted | sim/freerun.py:105-165 | After any calls, draws equal ordinary plus terminal packets in each direction, streams are where that many draws leave them, and received equals selected plus lost plus superseded |
| FreeModelMeaning.ReceiveMeans | sim/freerun.py:113-149 | On every batch a call raises exactly at a bad datagram; a request is selected exactly when no notice has been seen and some reply survived, and it is the first of the newest survivors' |
| FreeModelMeaning.ReceiveCounts | sim/freerun.py:113-149 | Every datagram looked at is counted for what became of it, by its draw, its notice byte and its finiteness |
| FreeModelMeaning.AdvanceMeans | sim/freerun.py:151-165 | A body applies what leaves the delay line within 0.12, the last request still when nothing does, steps the plant on that, and ends for the reasons in their order |
| FreeModelMeaning.SampleMeans | sim/freerun.py:202-246 | A sample offered is lost, refused or transmitted by its draw, the scenario and the send, and forced where it differs from the draw |
| FreeModelMeaning.NoticeMeans | sim/freerun.py:202-246 | A terminal notice is lost by its draw alone |
| FreeModel.NewestIsFirst | sim/freerun.py:146-146 | The selected reply is the first of the newest |
| FreeModel.DelayIsExact | sim/freerun.py:151-156 | Body k applies what body k - delay selected, and nothing before |
| FreeModelMeaning.BodiesBounded | sim/freerun.py:253-275 | However the network behaves, at most one body fewer than the scenario's ticks is advanced, and that one ends the loop |
| FreeModelClass.Simulator.ReceiveBatch | sim/freerun.py:113-149 | The batch loop over the mutable model is the specification's, early raise included |
| FreeModelClass.Simulator.AdvancePlant | sim/freerun.py:151-165 | So is the plant step, with its reason priority |
| FreeModelClass.Simulator.DrawLoss | sim/freerun.py:105-111 | A loss decision in either direction draws once from its stream and counts it, whatever overrides the result |
| FreeModelClass.Simulator.OfferFrame | sim/freerun.py:202-246 | Offering a frame observes, draws and counts loss, failure or transmission, ordinary and terminal apart, and a prologue that cannot be sent raises |

## Left out

- RunsRefineReference: the horizon is at most 2^64 - 50 ticks (`Loaded`), because the command lead is added to the tick in 64-bit arithmetic; commands are known opcodes, as scenario loading guarantees.
- RunsRefineReference: corruption is detectable corruption: a garbled datagram is one the decoder refuses. A change of more than one byte that keeps the checksum is outside the claim.
- LossyRunCompletes: assumes finite requests, since the simulator refuses a nonfinite one, and no receipt discarded by the test hook; between the failures of its plan the network adds no stray datagrams.
- CompletedRunAgrees: reads each recorded frame by itself; that a recording file splits into its frames is `Stream.DecodeConcat`.
- HonestRunPasses: an honest run has a monotone clock, no ring drop, recorded intervals inside the histogram range, and latency and discard-age sums that fit 64 bits as they grow; these are what the audit itself can only observe.
- Validate: the type and presence checks of the JSON summary, and the coverage ratios it reports, are not modelled; counters are natural numbers by type.
- RingIsLinear: the atomic steps of the two threads interleave in one total order, so acquire and release on head, tail and stop are assumed to be enough; indices are unbounded naturals, so the wrap of a 64-bit index is not modelled. A load of the tail and the producer's decision on it are one step, since the decision reads nothing shared.
- ExitedHasEverything: a short write leaves a prefix of its frame and a failed flush or close a prefix of the file; the forwarding of frames to the ground endpoint beside the write is not modelled. The drain's outer loop is a state machine, because its steps interleave with the producer's; only its inner loop is a method.
- EveryRequestInLimits: arithmetic is exact operations with one rounding each, of which only order, symmetry and closeness are used (`Control.Rounds`); overflow, NaN and the sign of zero are not modelled, and that binary64 rounding has these properties is not proved here. `Control.ExactRounds` shows that exact arithmetic does.
- Controller.Step: in the same arithmetic, and so are the other results of `Control`.
- RunHeadless: the loss draw compares an exact 53-bit fraction with a real probability, where the source compares binary64 numbers.
- StepInPlace: the vehicle's state is a working copy that is returned, as in the source, so it is a value that is updated, not an object.
- DelayIsExact: the free-run simulator's body order (receive, advance, offer) is fixed by `FreeModel.Body`; the checks of its construction, its schedule, timestamps and round-trip observations are not modelled.
- Sockets, address binding, blocking and restoring descriptors, sleeping, clocks, signals, exit codes, real-time setup and the allocation guard: kernel behaviour. A send is a success or a failure, a receive is a datagram, a timeout or an error.
- Statistics counters are unbounded: the wrap of a 64-bit event counter is not modelled. Ticks, sequence numbers, checksums and random states wrap as in the source.
- HdrHistogram internals, percentiles and the bucket rounding of `recorded_statistics`: only counts, sums and drops of a distribution matter to the audit.
- ReconcileRun: the type and presence checks of the two JSON reports, and the draw counts and start states beside the final ones of the random streams, are not modelled.
- `terminal_residual`, `terminal_order`, `terminal_causes` and the free-run reconciliation: one-branch checks over two processes' clocks.
- The legacy record type of the drain (type 1 frames): the same loop with another payload; its payload layout is covered by `Payload`.
- The receiver's poll loop, file digests and report fields of `ground/link.py`, and scenario loading: field checks.
- Campaign, sweep, demo, plotting and command-line scripts.
