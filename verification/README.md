# Neige: verified models of five protocols

This project models, in Dafny, the parts of Neige where several actors change shared state and a mistake
would lose output, publish unsettled prices, forget a live key or let a cancelled operation through:

* **Terminal output** (`ByteRing.dfy`, `OutputStream.dfy`, `Reclaim.dfy`): the process supervisor's replay
  ring, the reader, exit seal and attach handlers around it, and the sweeper that reclaims ended entries.
* **Market series** (`Calendar.dfy`, `DateText.dfy`, `Grouping.dfy`, `Periods.dfy`, `Selection.dfy`,
  `Paging.dfy`, `Certification.dfy`): calendar arithmetic, paging with a shared cache, aggregation into
  candles, and the rule that a published point is final.
* **Key issuer** (`Ledger.dfy`, `Issuer.dfy`, `KeyCoverage.dfy`, `Reopening.dfy`, `Admission.dfy`,
  `LateRepeats.dfy`, `IssuerProcess.dfy`): the tailnet helper that creates short-lived keys and records them in a
  cleanup ledger, with crashes, failed saves, power loss, wall-clock changes, sleep and reboots.
* **Phone enrollment** (`Enrollment.dfy`, `EnrollmentSafety.dfy`, `Authentication.dfy`, `LateStarts.dfy`,
  `Permits.dfy`, `Targets.dfy`): permits, scans, resets and legacy confirmations that interleave between locked
  regions.
* **DNS absence** (`DnsAbsence.dfy`, `DnsZones.dfy`): the check that a response proves a name absent.

`Common.dfy` holds small shared definitions. Concurrent code is a step function over a state and an event;
a run is any sequence of events, an event that is not enabled changes nothing, and outcomes of the network,
the disk and the clocks are parameters of events. Objects and loops of the source (`ByteRing`, `ProcEntry`,
the page fetch, `aggregate`, the fence and cleanup loops of the issuer, the permits, the CNAME loop) are
classes and methods proved equal to the functions the run theorems are about.

## Findings

Four expected properties are false of the code as written. Each has a concrete run and the exact condition
under which the code meets it.

* **Every saved ledger reopens.** A wall clock before 1970 can leave a ledger that the next start refuses. At any
  such reading a create command is accepted with a deadline at or before the epoch, and its unknown record is then
  invalid: `Reopening.RefusedBefore1970`. Ten seconds earlier the admission fence alone has a non-positive expiry:
  `Ledger.FenceBeforeEpoch`, `Ledger.FenceAttemptReopens`. All runs with a clock never before `w` reopen exactly
  when `w` is not before 1970: `Reopening.ReopensExactly`.
* **A create command is POSTed at most once, and never after a successful cancel.** The fences follow the clock that
  counts sleep, the deadline is compared with the wall clock only at admission, and the command's context follows the
  monotonic clock, which stands still while the machine sleeps. Both properties fail with a wall clock that never steps
  back and catches up by a nanosecond: `LateRepeats.PostedTwice`, `LateRepeats.PostedAfterCancel`. The second also fails
  with a wall clock that shows real time, when the machine sleeps after the admission check:
  `LateRepeats.PostedAfterSleep` (all over a kept-alive connection; a new dial would also look at the wall clock). A
  repeat is always late, and means that the wall clock gained on the monotonic clock since the command was received:
  `Admission.RepeatNeedsGain`. Both properties hold in all runs whose wall clock never steps back and whose POSTs each
  gain at most `g` exactly when `g` is not positive: `LateRepeats.ClockCondition`; without a gain:
  `Admission.OnceInStep`, `Admission.CancelIsFinal`; from clock readings to gains: `Admission.StepBoundsGains`.
* **A live context has the current generation.** A scan's deferred cleanup hands back the engine's cancel function
  before its deferred cancel runs. A cancellation of everything first revokes the current permit and then reaches the
  engine; if it revoked before the scan's permit was reserved and reaches the engine in that window, the scan's context
  stays live in an old generation: `EnrollmentSafety.WindowIsReal`. No other step does that, and this one does exactly
  when the scan no longer owns the cancel function: `EnrollmentSafety.StrandedExactly`. At most one context is live in
  every state, window included: `EnrollmentSafety.OneLive`. Commits are unaffected.
* **Authentication starts only with its registration record on disk.** The node's lock is held from the look at the
  context to the start, but a scan that finds the node Running from an earlier start removes the record without that
  lock. In `LateStarts.LateStart` a first scan starts authentication and is revoked, a second scan of the same
  invitation takes the lock and is revoked, and a third sees Running and removes the record under the second one's
  start. A start is sure of its record exactly while its generation is current: `LateStarts.RecordCondition`,
  `Authentication.CurrentStartHasRecord`. No other payload's record or key gets in: `Authentication.AuthNeedsRecord`.

## Model

| member | source | states |
|---|---|---|
| Rings.AppendHolds | crates/calm-proc-supervisor/src/lib.rs:226-240 | an append keeps the ring equal to the stream's end from its head on, and holds at most the larger of the capacity and the appended chunk |
| Rings.SliceIsStream | crates/calm-proc-supervisor/src/lib.rs:242-263 | a slice is a gap exactly below the head, and otherwise the stream from the cursor to the tail, empty past it |
| Rings.RingAfterAppends | crates/calm-proc-supervisor/src/lib.rs:203-272 | after any sequence of appends the chunks are contiguous and equal to stream[head..tail), the window is bounded, and every slice is as above |
| Rings.Collect | crates/calm-proc-supervisor/src/lib.rs:249-257 | the loop over the chunks joins exactly the bytes at or past the cursor |
| Rings.ByteRing.constructor | crates/calm-proc-supervisor/src/lib.rs:204-212 | a new ring is empty and open |
| Rings.ByteRing.AppendChunk | crates/calm-proc-supervisor/src/lib.rs:226-240 | the ring's stream grows by the chunk, the returned cursors delimit it, and eviction matches the append function |
| Rings.ByteRing.SealRing | crates/calm-proc-supervisor/src/lib.rs:217-220 | sealing changes nothing else and returns the total byte count |
| Rings.ByteRing.Window | crates/calm-proc-supervisor/src/lib.rs:265-267 | the window ends at the total byte count and the chunks are the stream from its head |
| Rings.ByteRing.SliceOf | crates/calm-proc-supervisor/src/lib.rs:242-263 | a slice of the object is a gap exactly below the head and otherwise the stream's end from the cursor |
| OutputStream.ExactlyOnce | crates/calm-proc-supervisor/src/lib.rs:811-940 | in every run a finished client that never lagged received exactly the stream from its clipped cursor to the exit, then one Exited as its last reply; a lagging client's outputs are still true to their cursors and it still gets that Exited |
| OutputStream.DeliveredSoFar | crates/calm-proc-supervisor/src/lib.rs:811-940 | before the exit a client that never lagged holds a prefix of that suffix and no Exited |
| OutputStream.DrainDelivers | crates/calm-proc-supervisor/src/lib.rs:884-940 | once the exit is published a live client finishes after receiving the frames still queued, without any further change to the process |
| OutputStream.BroadcastShape | crates/calm-proc-supervisor/src/lib.rs:1686-1716 | in every run the frames are Outputs followed by at most one Exited, whose cursor is the sticky exit cursor, the ring tail and the total bytes |
| OutputStream.ExitIsFinal | crates/calm-proc-supervisor/src/lib.rs:1814-1890 | after the exit no run changes ring, frames or exit, whether the guard seals again or the reader reads on |
| OutputStream.StepKeeps | crates/calm-proc-supervisor/src/lib.rs:787-940 | every step keeps the invariant of process and clients and only extends stream and frames |
| OutputStream.ProcEntry.AppendAndBroadcast | crates/calm-proc-supervisor/src/lib.rs:1686-1716 | one read appends and broadcasts, or is discarded after the seal |
| OutputStream.ProcEntry.SealAndPublishExit | crates/calm-proc-supervisor/src/lib.rs:1814-1850 | the first call seals and publishes the exit; a later call changes nothing and returns the same exit |
| OutputStream.ProcEntry.AttachSnapshot | crates/calm-proc-supervisor/src/lib.rs:811-871 | the attach reply replays the stream from the requested cursor clipped into the window |
| Reclaim.ReclaimIsSafe | crates/calm-proc-supervisor/src/lib.rs:80-149 | in every run an entry is swept only after recorded exit, EOF and its due time, never after a read error; the pin counter counts the entries that hold their leader; each leader is reaped once, exactly when the last reference goes |
| Reclaim.RunLater | crates/calm-proc-supervisor/src/lib.rs:107-127 | over every run a due time only moves earlier and recorded facts are never lost |
| Reclaim.EndedIsReclaimable | crates/calm-proc-supervisor/src/lib.rs:439-459 | a due entry whose waiter ended and whose reader saw EOF is removed by the next sweep, still holding its leader until the doomed list is dropped |
| Reclaim.StepKeeps | crates/calm-proc-supervisor/src/lib.rs:1551-1583 | every spawn, exit, EOF, error, cleanup, respawn and sweep keeps the registry, reference and counter invariant |
| Reclaim.RetainLive | crates/calm-proc-supervisor/src/lib.rs:439-459 | the sweep's loop removes exactly the removable entries |
| Calendar.MutualInverses | plugins/market/series.rs:43-84 | the two calendar conversions are mutual inverses on every day number and every calendar-valid date |
| Calendar.CivilOfDays | plugins/market/series.rs:58-84 | every calendar-valid date survives the trip through its day number |
| Calendar.DaysOfCivil | plugins/market/series.rs:58-84 | every day number becomes a valid date and comes back |
| DateText.RoundTrip | plugins/market/series.rs:86-111 | a formatted day parses back exactly when its year is 0000 to 9999, and is refused otherwise |
| DateText.ParsedIsFormatted | plugins/market/series.rs:86-111 | a text that parses is the formatted text of its day |
| DateText.FourDigitYears | plugins/market/series.rs:108-111 | the day numbers of years 0000 to 9999 |
| Grouping.AggregateGroups | plugins/market/series.rs:756-780 | over date-ordered bars and any tiling, aggregation yields one candle per occupied period, in order, with first open, last close, extreme high and low, summed volume and least certification of its members |
| Grouping.AggregateBars | plugins/market/series.rs:756-780 | the loop that updates the last candle computes that grouping |
| Grouping.Extremes | plugins/market/series.rs:761-767 | the high, low and certification of a group are attained bounds of its members |
| Periods.PeriodsTile | plugins/market/series.rs:113-134 | days, ISO weeks and months are consecutive intervals that contain their days and never overlap |
| Periods.PeriodCandles | plugins/market/series.rs:748-780 | aggregation by calendar period is that grouping |
| Selection.EmittedIsWhole | plugins/market/series.rs:800-811 | every emitted candle covers a whole period inside [start, as_of] and summarises every fetched bar of it; a strict one ends before its certification |
| Selection.ResolveEmits | plugins/market/series.rs:840-881 | apart from its refusals a resolution returns exactly those candles, at least two |
| Selection.LaterCutoffAppends | plugins/market/series.rs:840-881 | for fixed bars a later cutoff only appends points |
| Paging.NextPage | plugins/market/series.rs:348-360 | the next page is a nonempty strict subrange of the previous one |
| Paging.FetchIsComplete | plugins/market/series.rs:672-737 | against an unchanging source the fetch collects exactly the rows of the window, when there are at most eight pages of them, whatever valid pages the cache holds |
| Paging.FetchIsCompleteWithin | plugins/market/series.rs:672-737 | the same for any page limit |
| Paging.InOrderFacts | plugins/market/series.rs:736-737 | the collected bars come out once each, in date order |
| Paging.PageFetcher.constructor | plugins/market/series.rs:631-632 | the cache starts empty |
| Paging.PageFetcher.CollectPage | plugins/market/series.rs:713-718 | the first bar seen for a date is kept with the certification it came with |
| Paging.PageFetcher.TakeTurn | plugins/market/series.rs:680-735 | one turn of the loop: cache or request, store, collect, next page |
| Paging.PageFetcher.Fetch | plugins/market/series.rs:672-737 | the loop leaves the cache, the request count and the bars of the recursive fetch |
| Certification.StrictPointsAreFinal | plugins/market/series.rs:614-648 | over every sequence of calls sharing the cache, each bar inside a point of the strict arm already had its final value when it was fetched, if the source never changes bars older than a date it has listed for the asset, under the fetched code or the probed one |
| Certification.ServeAllBacked | plugins/market/series.rs:680-718 | every served bar was listed after a probe that reached its certification |
| Certification.BackedIsFinal | plugins/market/series.rs:756-810 | a bar older than its certification never changes again |
| Certification.CompleteThroughListed | plugins/market/series.rs:580-612 | the probe's date is the newest listed one at or after the baseline |
| Ledger.FenceAttemptReopens | tailnet/enrollment_storage.go:245-249 | a ledger that reopened still does after a fence is added or refreshed exactly when the wall clock is past the last ten seconds before the epoch |
| Ledger.FenceBeforeEpoch | tailnet/enrollment_clock.go:94-102 | a wall clock ten seconds before 1970 writes a ledger that is refused |
| Ledger.AdmittedIff | tailnet/enrollment_clock.go:86-103 | a create attempt is admitted exactly when every fence of its id is over and fewer than 128 stand |
| Ledger.PrunedFacts | tailnet/enrollment_clock.go:73-85 | pruning rebases every fence to this boot and drops none that is not over |
| Ledger.PruneFences | tailnet/enrollment_clock.go:73-85 | the loop computes that pruning |
| Ledger.FindFence | tailnet/enrollment_clock.go:86-90 | the loop finds the first fence of the id |
| Ledger.TryFence | tailnet/enrollment_clock.go:68-104 | pruning, refusal, refresh and append as one attempt |
| IssuerProcess.SweepAllSurvivors | tailnet/enrollment.go:221-239 | the pass over the state machine's records keeps exactly the survivors, in order |
| IssuerProcess.KeyIssuer.constructor | tailnet/enrollment.go:45-67 | a restart demotes every active record, keeps the rest and saves, as the machine's restart |
| IssuerProcess.KeyIssuer.Save | tailnet/enrollment.go:68-74 | a failed save breaks the issuer, and the file is old, new, or new with the earlier versions still possible after a power loss |
| IssuerProcess.KeyIssuer.FenceId | tailnet/enrollment_clock.go:68-104 | an admission leaves the attempt's fences in memory and saves them only if admitted; it is the machine's step for a create and for a cancel |
| IssuerProcess.KeyIssuer.MarkRecords | tailnet/enrollment.go:203-211 | active records asked for, or overdue by the clock read for them, become cleanup records, and the ledger is saved, as the machine's step |
| IssuerProcess.SweepPass | tailnet/enrollment.go:221-238 | the cleanup loop computes the survivors |
| IssuerProcess.KeyIssuer.SweepRecords | tailnet/enrollment.go:221-247 | the survivors replace the records and are saved |
| IssuerProcess.SweepIsPass | tailnet/enrollment.go:221-247 | the machine's pass and save leave exactly that ledger, file and broken flag |
| KeyCoverage.NoKeyForgotten | tailnet/enrollment.go:76-248 | in every run, with failed saves, crashes, power loss, late keys and lost answers, a key neither deleted nor past its lifetime has a record in the file, in every version of it that a power loss may leave, and in memory |
| KeyCoverage.RetirementIsLate | tailnet/enrollment_clock.go:42-59 | whatever the wall clock and reboots do, a record is retired as expired only when the key's lifetime and five seconds have really passed since the receipt reading |
| KeyCoverage.ExpiredIsPast | tailnet/enrollment_clock.go:53-58 | evidence that says expired means that much real time has passed |
| KeyCoverage.RebasedSound | tailnet/enrollment_clock.go:53-57 | evidence from another boot is restarted, never shortened |
| KeyCoverage.PostIsAlone | tailnet/enrollment.go:86-113 | a POST is sent only when its own unknown record is in the file and in all that a power loss may leave, and no other record is unknown |
| KeyCoverage.StepKeeps | tailnet/enrollment.go:45-248 | every step keeps the books: each attempt settled or tracked, each record naming its own key, evidence never ahead of time |
| Reopening.SavedLedgersReopen | tailnet/enrollment_storage.go:242-254 | with a clock never before 1970 every ledger in every run, in the file or left by a power loss, passes the reopening checks, so a restart succeeds |
| Reopening.RefusedBefore1970 | tailnet/enrollment_storage.go:250-254 | at every wall reading before 1970 there is a run that leaves a ledger the next start refuses |
| Reopening.ReopensExactly | tailnet/enrollment_storage.go:242-254 | all runs with a clock never before w leave ledgers that reopen exactly when w is not before 1970 |
| Admission.OncePerCommand | tailnet/enrollment.go:80-113 | with a wall clock that never steps back no two POSTs of one command are both sent before its deadline, across restarts |
| Admission.RepeatNeedsGain | tailnet/protocol.go:124-128 | with such a clock a POST of a command that was POSTed or cancelled is late, and the wall clock gained on the monotonic clock since the receipt |
| Admission.OnceInStep | tailnet/enrollment.go:80-113 | if moreover no POST gains on the monotonic clock since its receipt, no command is POSTed after it was POSTed or cancelled, and each at most once, across restarts |
| Admission.CancelIsFinal | tailnet/enrollment_clock.go:68-104 | under the same clocks a create received before a cancel that succeeded is never POSTed afterwards |
| Admission.StepBoundsGains | tailnet/protocol.go:124-128 | if no command is received with the wall clock less than d ahead of the monotonic one and none is POSTed with it more than d + g ahead, no POST gains more than g |
| LateRepeats.ClockCondition | tailnet/enrollment.go:80-113 | no repeats, and no command POSTed twice, in all runs whose wall clock never steps back and whose POSTs gain at most g, exactly when g is not positive |
| LateRepeats.PostedTwice | tailnet/enrollment.go:106-156 | a run with a forward clock and a gain of one nanosecond that POSTs one command twice |
| LateRepeats.PostedAfterCancel | tailnet/protocol.go:124-141 | such a run that POSTs a command after its successful cancel |
| LateRepeats.PostedAfterSleep | tailnet/protocol.go:124-141 | a run that POSTs a cancelled command after the machine slept, with a wall clock equal to real time at receipt and at the POST |
| Admission.CancelSticks | tailnet/enrollment_clock.go:68-104 | with a forward clock, a create received before a cancel that succeeded is POSTed afterwards only late and with a gain |
| Admission.AttemptGuards | tailnet/enrollment_clock.go:73-102 | no attempt weakens the guard on a command still within its deadline |
| Admission.AdmittedIsLate | tailnet/enrollment_clock.go:86-93 | a create gets past a guard only when its deadline has passed |
| EnrollmentSafety.OneLive | mobile/p2p-native/operation_admission.go:37-52 | in every run at most one operation's context is live |
| EnrollmentSafety.LiveIsCurrent | mobile/p2p-native/enrollment.go:35-73 | in every run a live context has the current generation, except in the window between a scan's cleanup and its cancel |
| EnrollmentSafety.LiveHoldsGeneration | mobile/p2p-native/enrollment.go:17-27 | while a context is live only a cancellation past its revocation, or a restart, changes the generation |
| EnrollmentSafety.StrandedExactly | mobile/p2p-native/main.go:224-238 | a step leaves a live context in an old generation exactly when it is such a cancellation and the scan has handed back the cancel function |
| EnrollmentSafety.WindowIsReal | mobile/p2p-native/enrollment.go:78-89 | a run, with the revocation before the reservation, that ends with a live context of an old generation |
| EnrollmentSafety.ClaimedOnce | mobile/p2p-native/operation_admission.go:54-68 | in every run each token is claimed at most once |
| EnrollmentSafety.NoCommitAfterRevoke | mobile/p2p-native/operation_admission.go:22-30 | once a permit is revoked no run lets its scan, reset or confirmation commit |
| EnrollmentSafety.MoveCommits | mobile/p2p-native/enrollment.go:198-217 | only an operation with a live context of the current generation commits, and only itself |
| Authentication.AuthNeedsRecord | mobile/p2p-native/tailnet_runtime.go:45-61 | what is on disk when authentication starts: the payload's own record, or none if a scan removed it since the look at the context, and never another payload's; no other key started since the last removal |
| Authentication.CurrentStartHasRecord | mobile/p2p-native/enrollment.go:137-152 | a start whose context is live or whose generation is current has its record on disk |
| Authentication.StartsOnlyThere | mobile/p2p-native/enrollment.go:150-152 | a key reaches the node only in that step |
| LateStarts.LateStart | mobile/p2p-native/enrollment.go:171-179 | a run, after an earlier start, in which a third scan removes the record under the second one's start |
| LateStarts.RecordCondition | mobile/p2p-native/enrollment.go:137-179 | in all runs the starts of current generations have their record, and those of old ones do not all have it |
| Authentication.RecordIsHeld | mobile/p2p-native/enrollment.go:114-179 | once a key started authentication its record stays, through cancels, racing scans and restarts, until a Running status or a confirmed reset removes it |
| EnrollmentSafety.TunnelMeansNoFence | mobile/p2p-native/enrollment.go:234-252 | in every run an installed tunnel, closed ones included, means no reset fence and a saved workspace |
| EnrollmentSafety.ResetHolds | mobile/p2p-native/enrollment.go:256-339 | once a reset fence is on disk no scan, bind or confirmation succeeds, across restarts, until a reset confirms the logout and removes it |
| EnrollmentSafety.StepKeeps | mobile/p2p-native/enrollment.go:29-353 | every locked region keeps the invariant of contexts, generations, permits and files |
| Permits.OperationPermit.constructor | mobile/p2p-native/operation_admission.go:49-50 | a new permit is neither cancelled nor claimed |
| Permits.OperationPermit.Revoke | mobile/p2p-native/operation_admission.go:22-30 | revocation cancels, changes nothing else, and names the generation to stop |
| Permits.OperationAdmission.constructor | mobile/p2p-native/operation_admission.go:32-35 | an empty desk is the machine's first desk |
| Permits.OperationAdmission.Reserve | mobile/p2p-native/operation_admission.go:37-52 | the machine's steps: the previous permit is revoked and stopped, and a new one reserved only if stopping succeeded |
| Permits.OperationAdmission.Claim | mobile/p2p-native/operation_admission.go:54-68 | a token is good exactly once, while current and not revoked, and claiming it is the machine's step |
| Permits.OperationAdmission.Revoke | mobile/p2p-native/operation_admission.go:70-77 | only the current token revokes, as the machine's steps, and any other changes nothing |
| Targets.SaveTarget | mobile/p2p-native/enrollment_storage.go:221-237 | a saved binding is found under its origin, other origins keep theirs, and saving fails exactly when eight other origins are saved |
| Targets.FindTarget | mobile/p2p-native/enrollment_storage.go:238-249 | the loop returns the binding saved for the origin |
| DnsAbsence.LoopAcceptsChains | mobile/p2p-native/direct_dns_absence.go:22-54 | the answer loop accepts exactly when the records form one CNAME path of distinct names from the question using every record, and ends at its last name |
| DnsAbsence.OrderDoesNotMatter | mobile/p2p-native/direct_dns_absence.go:27-54 | the loop's result does not depend on the order of the records |
| DnsAbsence.ProvenIsDecided | mobile/p2p-native/direct_dns_absence.go:22-64 | absence is proven exactly when the loop ends and an SOA covers the final name |
| DnsAbsence.FindOwned | mobile/p2p-native/direct_dns_absence.go:29-43 | the scan succeeds exactly when all records are CNAMEs and one is owned by the name |
| DnsAbsence.FollowChain | mobile/p2p-native/direct_dns_absence.go:25-54 | the loop computes the chain function |
| DnsAbsence.FindSoa | mobile/p2p-native/direct_dns_absence.go:55-63 | the scan finds an SOA of an enclosing zone exactly when there is one |
| DnsZones.EnclosesLabels | mobile/p2p-native/direct_dns_absence.go:55-63 | for fully qualified names the zone test holds exactly when the zone's labels are the name's last labels, and the root zone encloses every name |
| DnsAbsence.ValidateAbsence | mobile/p2p-native/direct_dns_absence.go:10-65 | the whole check accepts exactly the proven absences |

## Left out

- Rings.AppendHolds: cursors are unbounded; saturation of the 64-bit cursors is not modelled.
- OutputStream: a closed broadcast channel cannot occur while the attach handler holds the entry, and is not modelled; frames on the wire, PTY and process calls are not modelled.
- Reclaim: signalling, pipe readiness and loss of a leader's pin are not modelled.
- Calendar.MutualInverses: day numbers and years are unbounded; 64-bit overflow is not modelled.
- Grouping.AggregateGroups: prices and volumes are exact numbers; floating-point rounding and NaN are not modelled.
- Certification: HTTP, JSON, request parsing and the field projection of a point are not modelled; that a US asset's bare and suffixed codes list one asset is an assumption on the source.
- KeyCoverage.NoKeyForgotten: assumes that the control plane returns a key's own id or an unusable one, states lifetimes truthfully, gives fresh ids, and confirms a DELETE under the key's own binding only when the key is gone.
- Issuer: a create command is a chain of steps rather than one method, because it interleaves with crashes, clocks and the control plane; the OAuth token request and the readiness of the node are outcomes of steps; a reboot drops every command, so the monotonic clock is not reset by it.
- Ledger: JSON encoding, the 131072-byte bound (an oversized save is a save that fails before its rename), file permissions and the version 1 migration are not modelled; texts of timestamps carry the instant they parse to.
- Enrollment: locked regions are transitions over values, so aliasing of the engine object is not captured; the polling loops against the node are outcomes of steps, so a scan may see Running at any time; digests are injective; files survive a process restart, and power loss is not modelled.
- Permits: the callback of a revoked permit is returned as a generation for the caller to stop; tokens are distinct; one revocation is taken as done before the next call.
- DnsAbsence.ValidateAbsence: case folding is ASCII; packet decoding is not modelled.
- Tailnet service and proxies, direct connections, the report document, provider tables, scripts and user interfaces are not part of this model.
