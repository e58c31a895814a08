# Videre in Dafny: the write-ahead keeper, the venue registry, the wire codecs

Videre lets a keeper submit opaque intent bodies to venues through a host registry. This project
models three parts of it and proves what they are for.

**The keeper** (`Keeper*.dfy`, `JournalProtocol.dfy`). A run first reconciles stranded reservations
within a budget, then polls commitments, reserving each body in a journal before it is POSTed and
committing, releasing or keeping the reservation by the answer. `KeeperCode` writes the two loops over
a mutable `Host` and proves each equal to a function of `KeeperSpec`. `KeeperRefinement` proves that
the trail of any history of runs is a path of the transition system `JournalProtocol`, whose
properties then hold of the code. A run's environment answers by the length of the trail, so "for all
environments" covers every placement of store faults, traps at a write, and POSTs cut off with the
body received or not. `KeeperPasses`, `KeeperVisits` and `KeeperRuns` say the same from outside: which
events each reservation and each commitment leaves on the trail, how it is counted, and what ends a run.

**The registry** (`Registry*.dfy`, `QuotaLedger.dfy`, `WatchSet.dfy`). The ledger and the watch list are
classes whose loops are proved equal to functions; `RegistryProtocol` uses the same functions for the
steps of any number of concurrent calls, one step per mutex-guarded section or adapter answer, with the
clock advancing, adapters registering, dying and reviving, and calls being dropped at any step. The
invariants hold of every sequence of steps. `RegistryLocks` takes the mutexes in steps of their own, shows
that this refines `RegistryProtocol`, and adds the lock order and deadlock freedom. `RegistryCalls` and
`RegistryServed` follow one call through any schedule, from its first step to its last.

**The codecs** (`Borsh.dfy`, `Utf8.dfy`, `StatusBody.dfy`, `IntentBody.dfy`, `Uint.dfy`, `Reference.dfy`, `WireLayout.dfy`). Borsh
layouts compose from exact codecs; the tagged status body and envelope, the version enum and the
canonical `uint` are built on them. `WireLayout` gives the published bytes as numerals, and `Utf8` the
accepted strings as the encodings of Unicode scalar values.

## What the proofs assume

- Nothing of the venue for the POST accounting, the absorbing COMMITTED mark, back-off and body identity.
- For "held exactly once" and write-ahead safety, the venue's published contract
  (`crates/videre-sdk/src/client.rs:174-178`): a body already held is not taken again, nor answered
  with signing or a terminal fault. Besides that, no POST answered with signing or a terminal fault, and no
  first POST answered with any fault, has newly taken its body (`JournalProtocol.Trustworthy`). A
  resubmission may be taken and then answered with a transient fault, as may any POST cut off unanswered.
- One keeper, hence one venue, per store. A journal write lands or faults as a whole; the pending
  listing names each RESERVED row once, in any order.
- keccak-256 is an arbitrary function to 32 bytes. Keys then identify bodies exactly as far as digests do
  (`KeysAreDigests`).

## Where the code and its own account differ

The model follows the code in each case.

- `Keeper::run` says a release follows only a known synchronous non-accept (`keeper.rs:99-106`), but the
  code releases after every `Err`, a timeout included (`keeper.rs:189-194`). `TimeoutOrphansAHeldBody` is
  one fault-free run that leaves a held body with no marker; `FreshSubmissionSafeIff` and
  `ResubmissionSafeIff` give the exact condition on the venue's answer and the store's writes.
- The reconcile pass is said never to skip a RESERVED marker (`keeper.rs:223-226`), but the budget break stops at
  the first `max_per_tick` that are ripe. Whatever is answered, faulted or gated, a pass that nothing ends early
  resubmits a ripe reservation if and only if its rank among the ripe ones is below the budget, so it skips none
  if and only if there are no more of them (`NoneSkippedIff`). Over any history the reservations ever resubmitted
  are those its passes reached (`HistoryRetries`). Two ways to skip one for ever: a venue that stalls
  (`TransientFaultsStarveTheRest`, `NoneStarvesIff`, instance `TimeoutStarvesAReservation`), and ticks that are
  each cut off at their first POST, even well within the budget (`CutOffTicksStarveTheRest`, `NoneCutOffIff`,
  instance `CutOffStarvesAReservation`).
- The gate and the charge are separate sections, so the configured budget bounds every window if and only if a
  caller has one call at a time (`BudgetHoldsIffSequential`): k calls past the gate together reach
  `max_charges + k - 1` in a schedule of the registry (`OvershootIsReached`), and that is the bound (`QuotaBound`).
- The quota gate compares `len as u32` (`registry.rs:284`). With at most k calls of a caller between gate and
  charge the comparison is the true one, and the bound holds, if and only if `max_charges + k <= 2^32`
  (`CastIsExactIff`, `QuotaBoundIff`).
- "Bare borsh with no leading tag must never decode" (`videre-status-body/src/lib.rs:257-268`) fails for
  the venue named by a single NUL byte (`NulVenueLosesItsTag`). For venue ids of at most 256 bytes and
  envelopes below 2^24 bytes that is the only such name (`DroppedTagIsCaughtIff`).

## Model

| member | source | states |
|---|---|---|
| KeeperModel.SubmissionKeyUnambiguous | crates/videre-sdk/src/keeper.rs:343-348 | a key determines its venue and its digest, whatever characters the venue id holds |
| KeeperModel.KeysAreDigests | crates/videre-sdk/src/keeper.rs:343-348 | at one venue two bodies share a key if and only if they share a digest |
| KeeperModel.KeySpellsDigest | crates/videre-sdk/src/keeper.rs:343-348 | a key is the venue id, ":0x", and the digest in 64 lower-case hex digits |
| KeeperModel.DefaultPolicyLaw | crates/videre-sdk/src/keeper.rs:399-419 | which faults are tried again, which wait for their hint in whole seconds rounded up, and that every other one drops |
| JournalProtocol.PostAccounting | crates/videre-sdk/src/keeper.rs:152-182 | along every path, acceptances that came back = commits that missed + 1 if COMMITTED + 1 while a commit is awaited |
| JournalProtocol.CommittedIsAbsorbing | crates/videre-sdk/src/keeper.rs:152-157 | once COMMITTED, a key stays so and no later POST names it |
| JournalProtocol.StaysSound | crates/videre-sdk/src/keeper.rs:165-194 | along every path at a contract-keeping venue: held bodies are marked and held once, rows are filed under their body's key, a committed row names a held body |
| JournalProtocol.ParkIsHonoured | crates/videre-sdk/src/keeper.rs:255-281 | after a landed park the key's next POST, by either path, waits for the deadline and carries the parked body: nothing clears or rewrites the row in between |
| JournalProtocol.ParkGap | crates/videre-sdk/src/keeper.rs:276-281 | the parked gap is the hint in whole seconds rounded up, unless the clock saturates |
| JournalProtocol.BodyIsStable | crates/videre-sdk/src/keeper.rs:165-170 | from a landed reservation to its release every POST of the key carries that body |
| KeeperRefinement.KeeperFollowsProtocol | crates/videre-sdk/src/keeper.rs:107-288 | every history of runs, cut off anywhere, is a path of the journal protocol ending at rest |
| KeeperRefinement.ExactPostAccounting | crates/videre-sdk/src/keeper.rs:152-182 | over any history, with no venue assumption: answered acceptances = commits that did not land + 1 if COMMITTED |
| KeeperRefinement.NoPostAfterCommit | crates/videre-sdk/src/keeper.rs:152-157 | no history of runs un-commits a key or POSTs it again |
| KeeperRefinement.WriteAheadSafety | crates/videre-sdk/src/keeper.rs:165-194 | crashes and store faults included, every held body has a RESERVED or COMMITTED mark for it and is held once |
| KeeperRefinement.BackoffIsHonoured | crates/videre-sdk/src/keeper.rs:158-163 | across any runs and crashes, the next POST of a parked key by reconcile or the fresh loop is not before its deadline and carries the parked body |
| KeeperRefinement.PostedBodyIsTheReservedOne | crates/videre-sdk/src/keeper.rs:248-263 | across any runs and crashes, the body resubmitted is byte for byte the one first reserved |
| KeeperAnswers.ResubmissionsAreSettled | crates/videre-sdk/src/keeper.rs:263-285 | over any history, the event after each answered resubmission is its commit, its release, its park for the hint, or no write of its row, by the outcome and the policy's action for its fault |
| KeeperAnswers.ReleasesFollowRefusals | crates/videre-sdk/src/keeper.rs:189-194 | over any history, each release comes right after a POST of its key answered with signing, or refused: as a first submission, or with a fault the policy drops |
| KeeperAnswers.SurvivorsStayReserved | crates/videre-sdk/src/keeper.rs:276-284 | over any history, a reservation refused with a fault that is not dropped stays reserved with its body until its next POST |
| KeeperPasses.PassUnfolds | crates/videre-sdk/src/keeper.rs:247-287 | a pass is its reservations in listing order, each gated, stopped by the budget, or POSTed and resolved with exactly the events, count and end its answer calls for |
| KeeperPasses.PassSurfaces | crates/videre-sdk/src/keeper.rs:268-271 | the transactions a pass surfaces are those its resubmissions were answered with, in order |
| KeeperVisits.VisitShows | crates/videre-sdk/src/keeper.rs:134-218 | each visit of the sweep leaves exactly the events its commitment, poll, mark and answer call for, ends as its reads and last event say, and is counted in the one bucket it showed |
| KeeperRuns.RunUnfolds | crates/videre-sdk/src/keeper.rs:107-220 | a run is its pass, then, if that ended and the commitments could be listed, one lawful visit after another until one stops it |
| KeeperRuns.RunCounts | crates/videre-sdk/src/keeper.rs:127-219 | in a completed run each counter is the number of visits that showed that disposition, and the transactions surfaced are the answered ones, resubmissions' first, in order |
| KeeperRuns.RetryActionsAreCalledFor | crates/videre-sdk/src/keeper.rs:192-203 | every retry action of a run, a drop included, was called for by a poll of a ready commitment, or by the policy for the fault of a first submission refused and released just before |
| KeeperRecovery.PassDrains | crates/videre-sdk/src/keeper.rs:247-288 | with nothing gated, no store fault and a settling venue, a pass removes exactly min(budget, size) reservations with that many POSTs and adds none |
| KeeperRecovery.SweepStrandsNothing | crates/videre-sdk/src/keeper.rs:165-194 | a fault-free fresh loop adds no reservation and loses no key |
| KeeperRecovery.ReconcileDrains | crates/videre-sdk/src/keeper.rs:234-288 | n calm runs remove exactly min(n * budget, size) reservations, so ceil(size / budget) runs empty the journal of them |
| JournalProtocol.ReservedIsNotLost | crates/videre-sdk/src/keeper.rs:263-267 | with every POST accepted, a reserved body is at any moment either held or still reserved as it was |
| KeeperRecovery.CrashRecovery | crates/videre-sdk/src/keeper.rs:1312-1355 | after any crashes, enough calm accepting runs leave every key COMMITTED, none lost, every held body held exactly once, and every body that was reserved held exactly once |
| KeeperRecovery.OfferIsCommitted | crates/videre-sdk/src/keeper.rs:150-182 | a calm accepting run that completes leaves each offered body's key COMMITTED if and only if its reconcile pass did not leave that key reserved, and holds the body exactly once if its key was unmarked when visited |
| KeeperRecovery.ReofferedIsRecovered | crates/videre-sdk/src/keeper.rs:1312-1355 | wherever the crashes struck, even before the reservation landed, a body offered in a completed recovery run ends COMMITTED and held exactly once, or another body under the same key is |
| KeeperRecovery.SteadyState | crates/videre-sdk/src/keeper.rs:1348-1353 | from there a run re-offering held bodies makes no POST and changes neither journal nor venue |
| KeeperRetries.PassRetries | crates/videre-sdk/src/keeper.rs:247-287 | whatever the venue answers and the store does, a pass resubmits a front part of the ripe reservations, one for each unit spent; if nothing ends it early exactly the first `budget`, and it reaches the end of the listing if and only if there are no more |
| KeeperRetries.NoneSkippedIff | crates/videre-sdk/src/keeper.rs:223-261 | a pass that nothing ends early resubmits a ripe reservation if and only if its rank is below the budget, and skips none if and only if there are no more than the budget |
| KeeperRetries.HistoryRetries | crates/videre-sdk/src/keeper.rs:107-288 | over any history, whatever is freshly offered, answered, faulted, gated or cut off, the reservations resubmitted are exactly those its passes reached |
| KeeperStarvation.TransientFaultsStarveTheRest | crates/videre-sdk/src/keeper.rs:259-284 | while resubmissions are answered with transient faults, the reservations retried over any number of runs are exactly the front of the listing and every marker stays as it was, whatever is freshly offered |
| KeeperStarvation.NoneStarvesIff | crates/videre-sdk/src/keeper.rs:223-261 | while the venue stalls, every reservation ripe at the start is retried if and only if there are no more than the budget |
| KeeperStarvation.TimeoutStarvesAReservation | crates/videre-sdk/src/keeper.rs:259-284 | under the default policy, a venue that only times out starves one of any budget + 1 reservations over any number of fault-free runs |
| KeeperStarvation.CutOffTicksStarveTheRest | crates/videre-sdk/src/keeper.rs:259-263 | when every tick is cut off at its first POST only the first ripe reservation is ever retried, whatever the budget |
| KeeperStarvation.NoneCutOffIff | crates/videre-sdk/src/keeper.rs:223-263 | in such ticks every ripe reservation is retried if and only if there is one |
| KeeperStarvation.CutOffStarvesAReservation | crates/videre-sdk/src/keeper.rs:259-263 | with a budget of two or more, one of two reservations is never retried over any number of ticks cut off at the POST |
| KeeperReports.ReconcileConservation | crates/videre-sdk/src/keeper.rs:247-287 | committed, unsigned, released and pending are exactly the POSTs answered with acceptance, signing, terminal and transient faults; their sum is the POSTs made, at most the budget; a full pass meets every reservation |
| KeeperReports.ReportConservation | crates/videre-sdk/src/keeper.rs:127-219 | listed = polled + gated + skipped; each polled commitment falls in one bucket; submitted and the fresh unsigned count the first POSTs accepted and answered with signing, the reconciled counters the resubmissions |
| KeeperOrphans.FreshSubmissionSafeIff | crates/videre-sdk/src/keeper.rs:170-194 | a first submission keeps every held body marked if and only if not (the reservation landed, the venue took the body while answering a non-acceptance, and the release landed) |
| KeeperOrphans.ResubmissionSafeIff | crates/videre-sdk/src/keeper.rs:263-284 | a resubmission keeps every held body marked if and only if no release lands after an answer given for a held body |
| KeeperOrphans.TimeoutOrphansAHeldBody | crates/videre-sdk/src/keeper.rs:189-194 | a venue that takes the body and times out leaves it held with no marker after one fault-free run |
| KeeperCode.Host.Put | crates/videre-sdk/src/keeper.rs:152-194 | one journal write lands, faults or traps, and changes exactly its row when it lands |
| KeeperCode.Host.Submit | crates/videre-sdk/src/keeper.rs:171-171 | one POST: the venue may take the body, the answer may be lost, the trail records both |
| KeeperCode.Host.Pending | crates/videre-sdk/src/keeper.rs:248-253 | every RESERVED row once, with its body and deadline |
| KeeperCode.Keeper.Reconcile | crates/videre-sdk/src/keeper.rs:234-288 | the loop leaves exactly the specified world, status, spent budget and report |
| KeeperCode.Keeper.ResolveAnswer | crates/videre-sdk/src/keeper.rs:263-285 | commit, release, park or leave the marker, by the answer |
| KeeperCode.Keeper.Run | crates/videre-sdk/src/keeper.rs:107-220 | reconcile, then the sweep: exactly the specified world, status and report |
| KeeperCode.Keeper.OfferBody | crates/videre-sdk/src/keeper.rs:150-171 | a marked key makes no POST; an unmarked one is reserved first |
| KeeperCode.Keeper.SettleAnswer | crates/videre-sdk/src/keeper.rs:171-195 | a first POST's answer: best-effort commit, or release and fold |
| KeeperCode.Keeper.RetryWith | crates/videre-sdk/src/keeper.rs:203-217 | a commitment is bucketed by the retry's effect, not by its action |
| RegistryModel.Build | crates/videre-host/src/registry.rs:619-650 | zero budgets and caps become one; the window and an explicit grace survive |
| RegistryModel.Directory.Register | crates/videre-host/src/registry.rs:216-238 | a live incumbent is kept, a dead one replaced by what is handed in, alive or not; no other venue resolves differently |
| QuotaLedger.PrunedIsTheWindow | crates/videre-host/src/registry.rs:575-584 | popping from the front drops only aged charges and keeps only those within the window |
| QuotaLedger.PruneTracks | crates/videre-host/src/registry.rs:575-584 | the pruned deque is the tail of the full charge log and its length is the exact count of the window |
| QuotaLedger.QuietCallerIsAdmitted | crates/videre-host/src/registry.rs:280-285 | a caller with no charge for strictly longer than the window is admitted |
| QuotaLedger.Ledger.Prune | crates/videre-host/src/registry.rs:575-584 | the caller's deque is pruned and no other touched |
| QuotaLedger.Ledger.QuotaAdmits | crates/videre-host/src/registry.rs:280-285 | prunes, charges nothing, answers by the pruned deque |
| QuotaLedger.Ledger.Charge | crates/videre-host/src/registry.rs:288-293 | prunes, then pushes one charge at now |
| RegistryQuota.AlwaysTracks | crates/videre-host/src/registry.rs:280-293 | in every reachable state each caller's deque is the sorted charge log less a front that has aged out |
| RegistryQuota.AlwaysAccounted | crates/videre-host/src/registry.rs:300-369 | in every reachable state charges = charged calls, one each, and a call at the adapter's submit or quote has been charged |
| RegistryQuota.QuotaBound | crates/videre-host/src/registry.rs:280-369 | with at most k calls of a caller between gate and charge, every window holds at most max_charges + k - 1 of its charges |
| RegistryQuota.QuietCallerPassesGate | crates/videre-host/src/registry.rs:280-313 | in every reachable state a caller quiet for longer than the window passes the gate |
| RegistryOvershoot.OvershootIsReached | crates/videre-host/src/registry.rs:306-334 | a schedule of the registry in which n submissions of a caller pass the gate, queue for one adapter slot and are served in turn ends with max_charges - 1 + n charges in the window |
| RegistryOvershoot.BudgetHoldsIffSequential | crates/videre-host/src/registry.rs:280-369 | the configured budget bounds every window of every schedule with at most k calls between gate and charge if and only if k = 1 |
| RegistryOvershoot.QuotaBoundIff | crates/videre-host/src/registry.rs:280-293 | the bound max_charges + k - 1 holds of every such schedule if and only if max_charges + k <= 2^32 |
| RegistryOvershoot.CastIsExactIff | crates/videre-host/src/registry.rs:284-284 | the gate's 32-bit comparison is the true one in every such schedule if and only if max_charges + k <= 2^32 |
| WatchSet.PruneConsistent | crates/videre-host/src/registry.rs:567-572 | eviction keeps the set consistent with its trail and never grows it |
| WatchSet.RetainedExactly | crates/videre-host/src/registry.rs:567-572 | an entry survives if and only if it is present and live |
| WatchSet.RetainedLaw | crates/videre-host/src/registry.rs:570-570 | eviction works entry by entry in order: an entry goes when its deadline is at or before now |
| WatchSet.PruneLaw | crates/videre-host/src/registry.rs:567-572 | a receipt survives a prune if and only if its last answer or insertion is less than the grace ago, or the clock cannot represent that deadline |
| WatchSet.WatchLaw | crates/videre-host/src/registry.rs:386-407 | a watch leaves the survivors and appends a fresh entry, a full grace from now, if and only if the receipt is absent and there is room |
| WatchSet.RecordLaw | crates/videre-host/src/registry.rs:497-512 | a record refreshes its one entry to the status and a full grace from now, a first terminal status takes it out, and no other entry is touched |
| WatchSet.WatchKeepsSurvivors | crates/videre-host/src/registry.rs:386-417 | after a watch the entries are exactly the live ones and, if absent and below the cap, the new one |
| WatchSet.WatchConsistent | crates/videre-host/src/registry.rs:386-417 | watching keeps the set consistent, and the receipt is in it if and only if admitted |
| WatchSet.RecordConsistent | crates/videre-host/src/registry.rs:487-530 | recording keeps the set consistent, terminal or not |
| WatchSet.RecordOfAbsent | crates/videre-host/src/registry.rs:494-496 | a status for a receipt that is not watched changes nothing and answers nothing |
| WatchSet.ReportsAreDeduped | crates/videre-host/src/registry.rs:487-512 | on any lawful trail, reported = recorded with consecutive repeats removed, in each watch lifetime |
| WatchSet.TerminalClosesLife | crates/videre-host/src/registry.rs:503-507 | the first terminal status is reported, completes the deduplicated report and ends the lifetime |
| WatchSet.UpdateIsNews | crates/videre-host/src/registry.rs:494-515 | a record call answers the status if and only if the receipt is watched and it differs from the last recorded, nothing otherwise, and the trail's flag is that answer |
| WatchSet.PublishedIsDeduped | crates/videre-host/src/registry.rs:487-530 | over any sequence of record calls, the updates answered for a receipt in one lifetime are its recorded statuses deduplicated, the first terminal one included |
| WatchSet.WatchList.Prune | crates/videre-host/src/registry.rs:567-572 | keeps the live entries in order and counts the evicted |
| WatchSet.WatchList.Find | crates/videre-host/src/registry.rs:494-496 | the first entry for the receipt |
| WatchSet.WatchList.Watch | crates/videre-host/src/registry.rs:386-417 | evicts, then inserts unless present or full, and says whether admitted |
| WatchSet.WatchList.Record | crates/videre-host/src/registry.rs:487-530 | refreshes, updates or removes the entry and answers the transition |
| RegistryWatch.WatchSetInvariant | crates/videre-host/src/registry.rs:386-530 | in every reachable state: within the cap, one entry per receipt, deadline = last answer or insertion plus grace, no terminal `last`, entries lost only to a terminal record or a due prune |
| RegistryWatch.TransitionReporting | crates/videre-host/src/registry.rs:433-530 | under any interleaving of polls, submits and observes, at every moment of every watch lifetime reports are the deduplicated records, and the first terminal record completes them and ends the lifetime |
| RegistryCalls.PollListsTheLive | crates/videre-host/src/registry.rs:435-444 | a poll sets out to ask for exactly the receipts whose watch has no deadline or one still ahead, each once |
| RegistryCalls.PollVisitsAll | crates/videre-host/src/registry.rs:449-479 | in any schedule a poll that ends uncancelled has, for each receipt it set out to ask for, asked its venue at the slot it resolved to and recorded the status, been refused one, or skipped it because the venue did not resolve |
| RegistryServed.CallsStayOnCourse | crates/videre-host/src/registry.rs:300-384 | in any schedule every other call makes exactly the steps of its course: served at the slot its venue resolved to, let through if and only if its window is not full, a quote charged and then priced, a submission charged if and only if its header derives or its body does not decode, sent only with a header, an observation watched |
| RegistryServed.WatchStopsWatch | crates/videre-host/src/registry.rs:345-417 | a call's watch step takes its receipt into the set as it then stands, and it is in it if and only if admitted |
| RegistryWatch.AcceptedReceiptIsWatched | crates/videre-host/src/registry.rs:343-349 | an accepted receipt is put under watch before its submit ends, and is in the set if admitted |
| RegistrySafety.MutualExclusion | crates/videre-host/src/registry.rs:316-369 | in every reachable state no two calls are inside one adapter slot |
| RegistrySafety.SomeCallIsReady | crates/videre-host/src/registry.rs:267-369 | in every reachable state with an unfinished call, some call can step |
| RegistryLocks.LocksRefineProtocol | crates/videre-host/src/registry.rs:267-548 | with mutexes taken and released in separate steps, every run is still a run of the protocol |
| RegistryLocks.LockOrder | crates/videre-host/src/registry.rs:267-548 | in every reachable state a call inside a mutex section owns that mutex alone and can run the section, one awaiting a slot owns none, and under a held slot only the ledger's or the watch list's is taken |
| RegistryLocks.LocksNeverDeadlock | crates/videre-host/src/registry.rs:267-548 | in every reachable state with an unfinished call, some call can enter its section, run it, or take another step |
| RegistrySafety.AlwaysSteady | crates/videre-host/src/registry.rs:433-480 | in every reachable state the watch set is consistent and a poll at an adapter has a current receipt |
| RegistrySafety.WorkIsBounded | crates/videre-host/src/registry.rs:300-480 | once no call arrives, the steps still taken by any schedule are bounded by a computable rank |
| Borsh.FromSliceExact | crates/videre-status-body/src/lib.rs:142-154 | for an exact codec, a whole buffer decodes to x if and only if it is x's encoding |
| Borsh.PrefixFree | crates/videre-status-body/src/lib.rs:142-154 | no encoding is a proper prefix of another |
| Utf8.ValidIffEncoding | crates/videre-status-body/src/lib.rs:33-35 | a byte string is accepted as a string if and only if it is the UTF-8 encoding of some sequence of Unicode scalar values |
| StatusBody.StatusBodyRoundTrip | crates/videre-status-body/src/lib.rs:131-155 | bytes decode to a body if and only if they are its encoding, which exists if and only if its lengths fit u32 |
| StatusBody.StatusBodyIsSelfDelimiting | crates/videre-status-body/src/lib.rs:131-155 | no proper prefix or extension of an encoded body decodes |
| StatusBody.EnvelopeRoundTrip | crates/videre-status-body/src/lib.rs:42-66 | the same exact inverse for the envelope |
| StatusBody.EnvelopeIsSelfDelimiting | crates/videre-status-body/src/lib.rs:42-66 | no proper prefix or extension of an encoded envelope decodes |
| StatusBody.DroppedTagIsCaught | crates/videre-status-body/src/lib.rs:257-268 | bare envelope bytes below 2^24 never decode unless the venue has 256 n + 1 bytes and starts with a zero byte |
| StatusBody.NulVenueLosesItsTag | crates/videre-status-body/src/lib.rs:54-65 | the bare bytes of venue NUL are the tagged bytes of the empty venue |
| StatusBody.DroppedTagIsCaughtIff | crates/videre-status-body/src/lib.rs:54-65 | for venues of at most 256 bytes a dropped tag is caught if and only if the venue is not one NUL |
| StatusBody.HostToKeeperFidelity | crates/videre-host/src/registry.rs:173-188 | a polled status always encodes, as tag 1, its place in the published list and two absent options, and both layers decode to the same venue, receipt and status with no proof or reason |
| WireLayout.BodyBytes | crates/videre-status-body/src/lib.rs:94-139 | an encoded body is byte 1, the state's place in the published list, then the optional proof and reason with presence bytes and little-endian lengths |
| WireLayout.BodyDecoding | crates/videre-status-body/src/lib.rs:143-154 | bytes that decode start with 1 and their state's place; no bytes, another tag, and anything no body encodes to are each refused with their own error |
| WireLayout.EnvelopeBytes | crates/videre-status-body/src/lib.rs:32-50 | an encoded envelope is byte 1, then venue, receipt and status, each with its little-endian length |
| WireLayout.EnvelopeDecoding | crates/videre-status-body/src/lib.rs:54-65 | the same errors for the envelope |
| WireLayout.V1Bytes | crates/videre-test/src/reference.rs:22-28 | an encoded version 1 is tag 0, the amount in eight little-endian bytes, the memo |
| WireLayout.V2Bytes | crates/videre-test/src/reference.rs:33-46 | an encoded version 2 is tag 1, then amount, memo, optional expiry, recipient and flag |
| StatusBody.WriteUpdate | crates/videre-status-body/src/lib.rs:44-50 | the field-by-field writer produces the envelope encoding or fails with it |
| StatusBody.WriteBody | crates/videre-status-body/src/lib.rs:133-139 | the field-by-field writer produces the body encoding or fails with it |
| IntentBody.Expand | crates/videre-macros/src/intent_body.rs:14-96 | succeeds exactly on a plain enum of 1 to 256 newtype variants, with tag i for variant i; otherwise names the first fault |
| IntentBody.BodyRoundTrip | crates/videre-macros/src/intent_body.rs:98-128 | bytes decode to a body if and only if they are its encoding, for any exact payload codecs |
| IntentBody.BodyTag | crates/videre-macros/src/intent_body.rs:70-85 | an encoding is the declaration index and the payload, and fails only where the payload does |
| IntentBody.BodyErrors | crates/videre-macros/src/intent_body.rs:113-126 | no bytes, a tag no version has, and a payload that is none of its version's are each refused with their own error |
| IntentBody.AppendOnlyEvolution | crates/videre-macros/src/intent_body.rs:46-128 | appending versions changes no old encoding and no answer for an old tag; the old decoder refuses each new tag by name |
| Uint.EncodeThenDecode | crates/videre-sdk/src/value_flow.rs:25-45 | every value below 2^256 encodes to a canonical string that decodes to it |
| Uint.DecodeThenEncode | crates/videre-sdk/src/value_flow.rs:36-45 | exactly the canonical strings decode, and re-encode to themselves; width is checked before padding |
| Uint.OrderIsShortlex | docs/adr/0001-minimal-length-canonical-uint.md:18-29 | integer order is length-then-lexicographic byte order, and equality is byte equality |
| Uint.EncodersAgree | crates/echo-venue/src/lib.rs:185-189 | the venue's own encoder agrees with `encode_uint` on every u64 |
| Reference.ReferenceSchemaExact | crates/videre-test/src/reference.rs:20-55 | both published versions have exact Borsh codecs, so the version-enum theorems apply |
| Reference.HeaderCarriesTheAmount | crates/videre-test/src/reference.rs:60-88 | the derived header's amounts read back canonically as the submitted amount, on the side and asset each version says |
| Reference.HeaderErrors | crates/videre-test/src/reference.rs:60-61 | what does not decode derives no header and fails with the decoder's own error |

## Left out

- Commitment set, gates, poller and retrier: their answers are arbitrary inputs of a run (`Visit`), and their
  writes are two operations outside the journal; their own storage is not part of this model.
- Journal paging and row encoding: the `nexum_sdk` source is not part of this model.
- The report of a run that ends in a fault or is cut off: the code discards it, the model returns it beside the status.
- Mutex poisoning; and the release of a mutex apart from its section's effect: both are one step.
- The second clock read inside one guarded section: both reads are the step's one instant.
- Fairness of the async mutex: any waiter may enter a free slot, which covers first-come order.
- The egress guard (advisory), tracing and error text.
- The update vector a poll collects, and its loss when the poll is dropped: each record call's answer is proved instead, and reports are audited on the trail as they are recorded.
- The results the registry's calls return to their callers, with the throttle hint: the model says what a call does and where it ends.
- `DroppedTagIsCaught`: one direction only for venue ids longer than 256 bytes; there a zero first byte and a
  length of 256 n + 1 leave the verdict to how the remaining bytes happen to parse.
- Body-version sets and the keeper handshake, venue-id trimming, the receipt guard, and policy constants: single branches.
- Host glue of `client.rs`, WIT bindings, linking, channels, manifests, and the world-synthesis macros: plumbing.
- `AssetAmount::value`, JSON fixtures and mock transports: each adds only a call of what is proved.
- Digest collisions are not excluded: two bodies with one digest share a key, and while one is marked the other is a duplicate.
