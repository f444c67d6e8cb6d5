# Spine, timely log demux and connection validation

This project models three parts of the Materialize repository in Dafny and
proves properties of them.

- **The fueled merge spine of a persist trace** (`trace.rs`). The trace is a
  stack of layers. Layer `k` holds one batch (`Single`), two batches being
  merged (`Double` with an `InProgress` merge), or the finished result of a
  merge (`Double` with a `Complete` merge). Inserting a batch spends
  `8 << level` units of fuel on every merge in progress. It then rolls the
  lower layers up, places the batch at the layer of its length, and tidies the
  top layers. The model is the class `TraceSpine.Spine`, whose field `merging`
  is a sequence of `MergeState` that its methods reassign. The proofs show:
  - the spine keeps every inserted hollow batch, in order, and its batches
    chain from the minimum frontier to `upper`;
  - the three internal panics (inserting into a merge, merging non-adjacent
    batches, a merge that `isize::MAX` fuel does not finish) cannot happen on
    a spine built by `new`, `insert` and `exert`. This follows from a bound on
    how much capacity lies below every merge and how much work each merge
    still needs (`TraceLayers.LayersOk`).
- **The timely logging demux** (`timely.rs`). The model is the class
  `TimelyLogging.Demux`, with the `DemuxState` maps and the eight output
  collections as append-only sequences of `(datum, time, diff)` updates. Its
  invariant `Balanced` states that the counts the state keeps for messages,
  schedule durations and histogram buckets are exactly what the output has
  accumulated for each datum. Shutting down an operator or a dataflow
  therefore cancels its message counts, schedule durations and histogram
  buckets to zero. Its announcements (operates, addresses, channels) are
  retracted once each, which cancels them only if they were announced once.
- **The validation in CREATE CONNECTION planning** (`connection.rs`). This
  covers the options each connection type accepts, the Kafka security
  protocol with its TLS and SASL settings and the options that protocol
  rejects, the choice between BROKER and BROKERS, and the required options,
  defaults and TLS pairings of the AWS, PrivateLink, schema registry,
  Postgres and SSH connections.

Frontiers are totally ordered and modelled as natural numbers. The minimum
frontier is 0 and join is the maximum. A hollow batch is its description and
its length. Rust's `isize` and `usize` arithmetic is written out where the
source relies on it (`AsUsize`, `AsIsize`, `ShlUsize`, `IntroduceFuel`).

Files: `wrappers.dfy` (Option, Result), `pow2.dfy` (powers of two,
`next_power_of_two`, `trailing_zeros`), `trace_batch.dfy` (batches and
per-layer state machines), `trace_layers.dfy` (layer sequences and the
spine's invariant), `trace_steps.dfy` (one lemma per step of the spine's
operations), `trace_spine.dfy` (the `Spine` class), `timely_demux.dfy`,
`connection.dfy`.

## Model

| member | source | states |
|---|---|---|
| PowerOfTwo.NextPowerOfTwo | src/persist-client/src/impl/trace.rs:242 | the result is a power of two, at least the input and at least 1, and less than twice the input when above 1 |
| PowerOfTwo.LevelIsCeilLog2 | src/persist-client/src/impl/trace.rs:242-243 | `n.next_power_of_two().trailing_zeros()` is 0 for 0 and 1, and otherwise the least `k` with `n <= 2^k` |
| PowerOfTwo.ShiftLevel | src/compute/src/logging/timely.rs:658-675 | the histogram bucket index of an elapsed time is the exponent of its power of two |
| TraceBatch.AsUsize | src/persist-client/src/impl/trace.rs:86 | `isize as usize` keeps the value modulo 2^64, keeps non-negative values and sends negative ones above `isize::MAX` |
| TraceBatch.AsIsize | src/persist-client/src/impl/trace.rs:362 | `usize as isize` keeps the value modulo 2^64 and is negative exactly for values above `isize::MAX` |
| TraceBatch.Join | src/persist-client/src/impl/trace.rs:53-70 | the join of two frontiers is an upper bound of both and is one of them |
| TraceBatch.SumLenAppend | src/persist-client/src/impl/trace.rs:44-51 | the length of concatenated parts is the sum of their lengths |
| TraceBatch.BeginMerge | src/persist-client/src/impl/trace.rs:53-70 | a new merge has done no work and its `since` is the join of both inputs' `since` and the compaction frontier |
| TraceBatch.WorkMerge | src/persist-client/src/impl/trace.rs:84-93 | work never exceeds the combined length, fuel drops exactly by the progress gained, and non-negative fuel is either used up or finishes the merge |
| TraceBatch.Done | src/persist-client/src/impl/trace.rs:95-112 | the merged batch spans b1's lower to b2's upper, is compacted to the merge's `since`, holds b1's parts then b2's, and its length is the sum |
| TraceBatch.WorkVariant | src/persist-client/src/impl/trace.rs:732-744 | an in-progress merge completes exactly when fuel is still positive after the work (with non-negative fuel: exactly when it needed less than the fuel); a complete variant and the fuel are unchanged |
| TraceBatch.CompleteVariant | src/persist-client/src/impl/trace.rs:718-726 | with `isize::MAX` fuel, a merge needing less than that always yields the merged batch with its inputs |
| TraceBatch.WorkState | src/persist-client/src/impl/trace.rs:662-667 | only a layer holding a merge does work; the merge's completion and remaining work follow `MergeVariant::work`, and the new layer is `WorkedLayer`: a merge advances by the fuel and completes once the fuel exceeds the work it still needs |
| TraceBatch.CompleteState | src/persist-client/src/impl/trace.rs:640-646 | the layer becomes vacant and yields its batch (a merge finished first) with the layer's length |
| TraceBatch.BeginMergeState | src/persist-client/src/impl/trace.rs:685-702 | two real adjacent batches start a merge; with a structurally empty side the other batch is the completed result; the layer's length is the sum |
| TraceLayers.Grow | src/persist-client/src/impl/trace.rs:484-486 | the layers are extended with vacant layers until layer `index` exists, and the existing layers are kept |
| TraceLayers.InsertLayerLen | src/persist-client/src/impl/trace.rs:488-496 | inserting into a layer adds the batch's length to the layer's |
| TraceLayers.LayerLenParts | src/persist-client/src/impl/trace.rs:596-603 | `MergeState::len` is the length of the hollow batches the layer shows |
| TraceLayers.BelowNoDoubles | src/persist-client/src/impl/trace.rs:545-556 | without merges below layer `k`, the capacity claimed below it is less than `2^k` |
| TraceLayers.NoAdjacentDoubles | src/persist-client/src/impl/trace.rs:470-473 | under the invariant, no merge sits directly above another, so draining a completed merge never meets the insert-into-merge panic |
| TraceLayers.RemainingBound | src/persist-client/src/impl/trace.rs:718-725 | under the invariant every merge in progress needs less than `isize::MAX` work, so `complete` never panics |
| TraceSteps.MergeRegroups | src/persist-client/src/impl/trace.rs:95-112 | finishing a merge replaces its two inputs by one batch over the same interval with the same parts |
| TraceSteps.FlattenInsertAt | src/persist-client/src/impl/trace.rs:482-501 | inserting at a layer with only vacant layers below appends the batch after all the spine's batches |
| TraceSteps.FlattenCompleteAt | src/persist-client/src/impl/trace.rs:504-510 | completing the lowest occupied layer takes its batches out as one regrouped batch |
| TraceSteps.WorkStep | src/persist-client/src/impl/trace.rs:453-458 | working one layer keeps the invariant and the batches (regrouped); a merge still in progress has taken all the fuel within its allowance |
| TraceSteps.DrainStep | src/persist-client/src/impl/trace.rs:470-473 | moving a completed merge to the next layer is always possible, keeps the invariant and only regroups the batches |
| TraceSteps.SettledClearsLow | src/persist-client/src/impl/trace.rs:357-370 | after `apply_fuel` with `8 << level`, no merge is left at layers up to `level + 1` |
| TraceSteps.RollUpNothing | src/persist-client/src/impl/trace.rs:410-417 | with only vacant layers below `index`, `roll_up` only grows the spine |
| TraceSteps.RollStep | src/persist-client/src/impl/trace.rs:420-424 | each step of the roll-up loop keeps the layers below vacant and the merged batch no larger than the capacity they claimed |
| TraceSteps.RollFinishVacant | src/persist-client/src/impl/trace.rs:429 | a roll-up ending in a vacant layer leaves the layers below empty and the invariant's bounds for the coming insertion |
| TraceSteps.RollFinishDouble | src/persist-client/src/impl/trace.rs:429-436 | a roll-up that starts a merge at `index` completes it and pushes it to `index + 1` within the bounds |
| TraceSteps.IntroduceOk | src/persist-client/src/impl/trace.rs:388-393 | placing the batch at its level after fuel and roll-up keeps the invariant and appends the batch |
| TraceSteps.TidyRemove | src/persist-client/src/impl/trace.rs:531-537 | removing a vacant or structurally empty layer below the top keeps the invariant and the batches |
| TraceSteps.TidyMerge | src/persist-client/src/impl/trace.rs:540-564 | drawing the top batch down into a merge below the `(1 << length) / 8` threshold keeps the invariant and the batches |
| TraceSpine.ShlUsize | src/persist-client/src/impl/trace.rs:357 | `x << s` on `usize` is below 2^64 and equals `x * 2^s` when that fits |
| TraceSpine.IntroduceFuel | src/persist-client/src/impl/trace.rs:357-362 | the fuel is an `isize` and equals `8 * 2^level * effort` whenever that fits |
| TraceSpine.IntroduceFuelExact | src/persist-client/src/impl/trace.rs:357-362 | up to level 59 the fuel of unit effort is exactly `8 * 2^level` |
| TraceSpine.FirstOccupied | src/persist-client/src/impl/trace.rs:231 | the result is the lowest non-vacant layer, or none when all are vacant |
| TraceSpine.InsertFuse | src/persist-client/src/impl/trace.rs:230-238 | fusing an empty batch into the lowest layer's empty batch keeps the invariant and appends the batch |
| TraceSpine.Spine.constructor | src/persist-client/src/impl/trace.rs:209-216 | a new spine has no layers, upper at the minimum frontier, and is valid |
| TraceSpine.Spine.Reserve | src/persist-client/src/impl/trace.rs:412-414 | the layers are grown with vacant ones to hold layer `index`; nothing else changes |
| TraceSpine.Spine.InsertAt | src/persist-client/src/impl/trace.rs:482-501 | the layer becomes `Single` if vacant or begins a merge if single; the caller must rule out a merge there (the panic) |
| TraceSpine.Spine.CompleteAt | src/persist-client/src/impl/trace.rs:504-510 | the layer becomes vacant and its batches come back as one regrouped batch of the same length |
| TraceSpine.Spine.MapBatches | src/persist-client/src/impl/trace.rs:271-286 | visits the batches from the highest layer down; on a valid spine they cover `[0, upper)` and hold the inserted parts in order |
| TraceSpine.Spine.Reduced | src/persist-client/src/impl/trace.rs:290-306 | true exactly when no layer is merging and at most one layer (equivalently one batch) holds updates |
| TraceSpine.Spine.ApplyFuel | src/persist-client/src/impl/trace.rs:447-480 | the layers become exactly `Fuelled`: each layer in turn is worked with the whole fuel, and a completed merge is emptied into the layer above, which is worked next. It keeps the invariant and the batches; with non-negative fuel every remaining merge has taken the fuel and none is left complete; without merges nothing changes |
| TraceSpine.Spine.FuelLayer | src/persist-client/src/impl/trace.rs:455-472 | one pass of the loop: the layers become `FuelStep` of the old ones, and the loop's invariant moves on to the next layer |
| TraceSpine.Spine.WorkAt | src/persist-client/src/impl/trace.rs:455-458 | layer `index` becomes `WorkedLayer` of itself with a copy of the fuel, and nothing else changes |
| TraceSpine.Spine.DrainLayer | src/persist-client/src/impl/trace.rs:469-472 | a completed layer is emptied and its batch inserted into the layer above, which can take it |
| TraceSpine.Spine.RollUp | src/persist-client/src/impl/trace.rs:410-438 | afterwards the layers below `index` are vacant, layer `index` holds no merge, the bounds for inserting there hold, and the batches are only regrouped |
| TraceSpine.Spine.Claimed | src/persist-client/src/impl/trace.rs:545-556 | the loop sums `1 << index` per single and `2 << index` per merge below the layer |
| TraceSpine.Spine.TidyLayers | src/persist-client/src/impl/trace.rs:513-578 | keeps the invariant and the exact batches, never adds layers, stops in a tidied state, and leaves a merge in progress at the same layer |
| TraceSpine.Spine.TidyStep | src/persist-client/src/impl/trace.rs:531-571 | one pass of the loop: either an empty layer below the top is dropped and the walk goes on one layer shorter, or the walk stops tidied with the same batches; a lower merge in progress stays in place |
| TraceSpine.Spine.DropBelowTop | src/persist-client/src/impl/trace.rs:534-537 | removing the absorbable layer below the top batch keeps the walk's invariant, shortens the layers by one and leaves every lower layer in place |
| TraceSpine.Spine.MergeBelowTop | src/persist-client/src/impl/trace.rs:558-560 | drawing the top batch into a merge with the batch below it keeps the invariant and the batches, leaves the layers tidied and every lower layer in place |
| TraceSpine.Spine.FuseAt | src/persist-client/src/impl/trace.rs:230-238 | an empty batch fused into the lowest layer's empty batch keeps the invariant and is appended to the trace's batches |
| TraceSpine.Spine.IntroduceBatch | src/persist-client/src/impl/trace.rs:326-402 | keeps the invariant; the batches are those before, regrouped, followed by the new one |
| TraceSpine.Spine.Insert | src/persist-client/src/impl/trace.rs:221-244 | requires the asserted `lower != upper` and `lower == self.upper`; keeps the spine valid, sets `upper` to the batch's upper, and appends its parts to those inserted before |
| TraceSpine.Spine.Exert | src/persist-client/src/impl/trace.rs:252-269 | keeps the spine valid with the same upper and the same inserted parts, for any effort when a merge is in progress |
| TraceSpine.Spine.SpendEffort | src/persist-client/src/impl/trace.rs:256-267 | spending the effort as fuel, or as an empty batch when no merge is in progress, keeps the spine valid and only regroups its batches |
| TimelyLogging.Ts | src/compute/src/logging/timely.rs:429-434 | the time is a multiple of the interval, strictly after the event's millisecond, at most one interval later |
| TimelyLogging.GrowVec | src/compute/src/logging/timely.rs:689-696 | the vector then has index `index`, never shrinks, keeps its elements, and new slots hold the default |
| TimelyLogging.NetDurationRetractions | src/compute/src/logging/timely.rs:499-507 | the duration retractions cancel the operator's recorded time and touch no other operator |
| TimelyLogging.NetHistogramRetractions | src/compute/src/logging/timely.rs:499-517 | the histogram retractions cancel each bucket's count at its power of two and touch nothing else |
| TimelyLogging.NetCountRetractions | src/compute/src/logging/timely.rs:550-571 | the count retractions cancel each worker's count on the channel and touch nothing else |
| TimelyLogging.CountAdded | src/compute/src/logging/timely.rs:605-638 | adding a message count to the kept vector and the output keeps them balanced |
| TimelyLogging.CountsRetired | src/compute/src/logging/timely.rs:550-571 | retracting a channel's counts and forgetting them keeps the output balanced, and the channel nets to zero |
| TimelyLogging.BucketAdded | src/compute/src/logging/timely.rs:674-681 | recording one schedule in bucket `index` (`Recorded`) adds the elapsed time to the operator's total and one to that bucket, touches no other operator, and keeps every bucket well formed |
| TimelyLogging.BumpBucket | src/compute/src/logging/timely.rs:674-680 | `grow_vec` then the bucket update leave the operator's buckets exactly `Recorded(old buckets, index, elapsed)` and every other operator's as they were |
| TimelyLogging.DurationAdded | src/compute/src/logging/timely.rs:656-665 | emitting `+elapsed` while recording it keeps durations balanced |
| TimelyLogging.HistogramAdded | src/compute/src/logging/timely.rs:658-672 | emitting `+1` at the elapsed time's power of two while counting its bucket keeps the histogram balanced |
| TimelyLogging.SchedulesRetired | src/compute/src/logging/timely.rs:498-518 | retracting an operator's buckets and forgetting them keeps durations and histogram balanced |
| TimelyLogging.RetractSchedules | src/compute/src/logging/timely.rs:499-517 | the loop emits the duration and histogram retraction of every nonempty bucket, lowest first |
| TimelyLogging.RetractCounts | src/compute/src/logging/timely.rs:550-560 | the loop emits the negated count of every worker on the channel |
| TimelyLogging.CountMessages | src/compute/src/logging/timely.rs:605-638 | emits `+length`, creates the vector with `peers` zeros when missing, adds the length to that worker's count only, and keeps the counts balanced |
| TimelyLogging.RetireChannel | src/compute/src/logging/timely.rs:550-571 | removes the channel's counts and retracts them, so the channel nets to zero for every worker |
| TimelyLogging.RecordSchedule | src/compute/src/logging/timely.rs:655-681 | emits duration and histogram updates; the operator's buckets become exactly `Recorded(old buckets, Level(elapsed), elapsed)`, with `(1, elapsed)` added to bucket `Level(elapsed)`, and other operators' buckets are unchanged; the totals and balance follow |
| TimelyLogging.RetireSchedules | src/compute/src/logging/timely.rs:498-518 | removes the operator's buckets and retracts them, so its durations and histogram net to zero |
| TimelyLogging.RetireChannels | src/compute/src/logging/timely.rs:536-572 | forgets each channel's counts and emits exactly, in channel order, its record and address retractions and the negated sent and received counts (`MessageRetractions`, nothing for a channel met twice), keeping the balance |
| TimelyLogging.RetireCountsAt | src/compute/src/logging/timely.rs:550-571 | retiring channel `i` takes the counts and updates left by the first `i` channels to those left by the first `i + 1` |
| TimelyLogging.RequestedPow | src/compute/src/logging/timely.rs:593 | a requested park duration becomes a power of two at least as large; none stays none |
| TimelyLogging.Demux.constructor | src/compute/src/logging/timely.rs:57-88 | the interval is at least 1, the state and output start empty, and the invariant holds |
| TimelyLogging.Demux.Handle | src/compute/src/logging/timely.rs:437-449 | keeps the invariant, and the new state and output are `Handled`: exactly the effect of the event's handler, as each handler's row states, down to every emitted update and every kept bucket; other kinds of event change nothing |
| TimelyLogging.Demux.HandleOperates | src/compute/src/logging/timely.rs:451-460 | emits `+1` operates and address records and stores the operator |
| TimelyLogging.Demux.HandleChannels | src/compute/src/logging/timely.rs:462-480 | emits `+1` channel and address records and appends the channel under its dataflow `scope_addr[0]` |
| TimelyLogging.Demux.HandleShutdown | src/compute/src/logging/timely.rs:482-527 | an unknown operator changes nothing; otherwise retracts its operates and address records, all its schedule data (which then nets to zero), and for a dataflow all of its channels with exactly their negated message counts (`MessageRetractions`), and forgets them |
| TimelyLogging.Demux.HandleDataflowShutdown | src/compute/src/logging/timely.rs:529-573 | removes the dataflow's channels, retracts exactly their records, addresses and negated counts at the event's timestamp, and leaves every such channel's counts at net zero |
| TimelyLogging.Demux.HandlePark | src/compute/src/logging/timely.rs:575-603 | a park replaces the last park; an unpark with no park changes nothing; otherwise emits the duration's and request's powers of two and clears the park |
| TimelyLogging.Demux.HandleMessages | src/compute/src/logging/timely.rs:605-638 | emits `+length` for (channel, target) on send or (channel, source) on receive and adds it to that counter only |
| TimelyLogging.Demux.HandleSchedule | src/compute/src/logging/timely.rs:640-683 | a start records its time; a stop with no start changes nothing; otherwise emits the elapsed time and its histogram entry and the operator's buckets become exactly `Recorded(old buckets, Level(elapsed), elapsed)`, leaving other operators alone |
| TimelyLogging.Demux.HandleStop | src/compute/src/logging/timely.rs:652-681 | a stop after a start forgets the start, emits the elapsed time and its power of two, and records `(1, elapsed)` in bucket `Level(elapsed)`, keeping the invariant |
| ConnectionPlan.EnsureOnlyValidOptions | src/sql/src/plan/statement/ddl/connection.rs:73-143 | succeeds exactly when every option seen is permitted for the type; otherwise reports the non-empty set of the others |
| ConnectionPlan.UpperChar | src/sql/src/plan/statement/ddl/connection.rs:435-441 | ASCII lower-case letters become upper case; other characters are kept |
| ConnectionPlan.ToUpper | src/sql/src/plan/statement/ddl/connection.rs:435-441 | uppercases every character and keeps the length |
| ConnectionPlan.ToUpperIdempotent | src/sql/src/plan/statement/ddl/connection.rs:435-441 | uppercasing twice is uppercasing once |
| ConnectionPlan.SecurityProtocolOf | src/sql/src/plan/statement/ddl/connection.rs:435-448 | a named protocol is accepted exactly when its upper case is one of the four names, else reported; without one, SASL_SSL if a SASL option appeared and SSL otherwise |
| ConnectionPlan.KafkaSecurity | src/sql/src/plan/statement/ddl/connection.rs:410-520 | planning succeeds exactly when the protocol is known, SSL KEY comes with SSL CERTIFICATE under TLS, the three SASL options are present under SASL, and every security option seen is one the protocol takes. The errors come in the source's order: protocol, SSL KEY, then SASL MECHANISMS, USERNAME, PASSWORD, then the outstanding options. TLS comes exactly under SSL and SASL_SSL, with the identity built from the certificate and key; SASL comes exactly under SASL_PLAINTEXT and SASL_SSL, with the mechanism uppercased and the username and password passed on |
| ConnectionPlan.CollectSeen | src/sql/src/plan/statement/ddl/connection.rs:450-453 | the outstanding set starts as exactly the security options that appeared |
| ConnectionPlan.KafkaSecurityRejectsUnused | src/sql/src/plan/statement/ddl/connection.rs:450-517 | a security option the protocol does not take makes planning fail |
| ConnectionPlan.PlanKafkaSecurity | src/sql/src/plan/statement/ddl/connection.rs:410-520 | the step-by-step removal from the outstanding set gives exactly `KafkaSecurity` |
| ConnectionPlan.ChosenBrokers | src/sql/src/plan/statement/ddl/connection.rs:319-339 | BROKER and BROKERS together or neither are errors; succeeds exactly when one is set and no address contains a comma, and then yields that list |
| ConnectionPlan.GetBrokers | src/sql/src/plan/statement/ddl/connection.rs:319-406 | the loop over the brokers gives exactly `ChosenBrokers` |
| ConnectionPlan.PairIdentity | src/sql/src/plan/statement/ddl/connection.rs:230-238 | SSL CERTIFICATE and SSL KEY must be given together, and together form the identity |
| ConnectionPlan.ParseSslMode | src/sql/src/plan/statement/ddl/connection.rs:264-276 | absent means disable; a name is accepted exactly when it is one of the listed spellings and gives that mode; anything else is reported |
| ConnectionPlan.ParseSslModeNames | src/sql/src/plan/statement/ddl/connection.rs:264-276 | every listed spelling parses to its mode |
| ConnectionPlan.Required | src/sql/src/plan/statement/ddl/connection.rs:153-176 | an option value is returned when present, and its absence is reported by name |
| ConnectionPlan.PlanAws | src/sql/src/plan/statement/ddl/connection.rs:153-176 | needs ACCESS KEY ID then SECRET ACCESS KEY; an empty ENDPOINT counts as none; the other options are copied |
| ConnectionPlan.PlanPrivatelink | src/sql/src/plan/statement/ddl/connection.rs:177-185 | needs SERVICE NAME then AVAILABILITY ZONES, and carries both |
| ConnectionPlan.PlanCsr | src/sql/src/plan/statement/ddl/connection.rs:217-253 | needs URL, then a paired certificate and key; the TLS identity is exactly that pair; HTTP auth exactly when USER is given |
| ConnectionPlan.PlanPostgres | src/sql/src/plan/statement/ddl/connection.rs:254-297 | checks the TLS pairing, then the SSL MODE, then DATABASE, HOST and USER; the TLS identity is exactly the certificate and key; the port defaults to 5432 |
| ConnectionPlan.PlanSsh | src/sql/src/plan/statement/ddl/connection.rs:298-313 | needs HOST then USER, which may not be a secret; the port defaults to 22 |
| ConnectionPlan.TryIntoConnection | src/sql/src/plan/statement/ddl/connection.rs:145-316 | rejects unsupported options first, then plans each type; Kafka plans security before brokers and fails with the first error |

## Left out

- Spine `effort`: the source sets it to 1 in `new` and never changes it, so the model makes it a constant 1.
- TraceSpine.Spine.Insert: requires that the spine holds fewer than 2^59 updates after the insertion (`LEN_BOUND`). This keeps `8 << level` and the `isize::MAX` fuel of `complete` within range. Real traces are far smaller, and 64-bit overflow beyond that is not modelled.
- TraceSpine.Spine.Exert: requires a non-negative effort unless some layer holds a merge. With a negative effort and no merge, `*effort as usize` wraps around and `next_power_of_two` overflows. The requires also excludes a negative effort on a spine that is already reduced, where the source does nothing.
- TraceSpine.Spine.IntroduceBatch: levels above 59 are only modelled on a spine without merges. The wrap-around of `8 << level` is modelled in `IntroduceFuel`, but the invariant is not proved for fuel that wraps.
- TraceSpine.Spine.TidyLayers: the shifts `1 << index` and `1 << length` are unbounded integers. A spine never has 64 layers under the length bound, so 64-bit shift overflow is not modelled.
- TraceSpine.Spine.Exert: does not state that repeated exertion eventually reduces the spine; only the invariant and the unchanged contents are proved.
- The `println!` for large batch indices and `Spine::describe` are diagnostics and do not change state; they are not modelled.
- TraceBatch.WorkMerge: `*fuel -= used as isize` is an unbounded subtraction. With a negative fuel within `used` of `isize::MIN`, the source's subtraction overflows: debug builds panic, and release builds wrap to a positive fuel that marks the merge complete. The model keeps the negative difference, so the merge stays in progress. `used as isize` would also wrap for a merge needing more than `isize::MAX` work, which no valid spine holds (`TraceLayers.RemainingBound`).
- Compaction of a finished merge's contents is not modelled: a merged batch is the concatenation of its inputs' parts with the merge's `since`.
- ConnectionPlan.KafkaSecurity: reports the whole set of outstanding options, whereas the source reports only its first element in the order of the option enum.
- ConnectionPlan.ToUpper: uppercases ASCII letters only. Rust's `to_uppercase` also maps non-ASCII characters, some of them onto ASCII letters: 'ſ' (U+017F) becomes 'S' and 'ı' (U+0131) becomes 'I'. So a SECURITY PROTOCOL such as 'ſsl' is accepted by the source as SSL and rejected by the model. A non-ASCII SASL mechanism is also uppercased differently.
- TimelyLogging.Ts: the conversion of the rounded time to the timestamp type (`expect("must fit")`) is not modelled; integers are unbounded.
- TimelyLogging.Demux.HandleMessages and TimelyLogging.Demux.HandleSchedule: the `i64` conversions with `expect` and the overflow of the `u128`/`i64` counters are not modelled; integers are unbounded.
- TimelyLogging.Demux.HandlePark and TimelyLogging.Demux.HandleSchedule: require that an unpark or stop is not earlier than its park or start. The source subtracts `u128` values there and would panic otherwise.
- TimelyLogging.Demux.HandleChannels: requires a non-empty `scope_addr`. The source indexes `scope_addr[0]` and would panic otherwise.
- TimelyLogging.Demux.HandleMessages: requires the worker index to be below `peers`. The source indexes the per-peer vector and would panic otherwise.
- The `error!` logging of unmatched park, unpark, start, stop and shutdown events is modelled as emitting nothing.
- The dataflow construction in `construct` is not modelled: operator wiring, capabilities, `Row` encoding, arrangement, consolidation and the worker-id assertions.
- Connection planning's catalog lookups are not modelled: secrets and objects are plain values.
- The broker and default tunnels (SSH, AWS PrivateLink) are not modelled.
- The feature-flag check for a Kafka SSH tunnel is not modelled.
- The PrivateLink availability-zone checks (connection.rs:187-196) are not modelled.
- ConnectionPlan.PlanCsr: the URL is not parsed, so the empty-path check is not modelled.
- The text of the error messages is not modelled; errors are a datatype.
- `src/adapter/src/catalog/error.rs` and `misc/python/materialize/checks/cloudtest_actions.py` are not part of this model.
