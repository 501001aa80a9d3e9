# PingWatch, verified core

A Dafny model of the stateful protocols of PingWatch: the remote agent's
scheduler, result pipeline and disk spool; the supervisor that updates an agent
without leaving its probe dark; three stores shared between threads (API tokens,
site bindings, RADIUS challenges); the alert-event table; the bulk device
importer; the backup scheduler; SNMP counter rates; and LDAP escaping and group
matching. `dafny verify dfyconfig.toml` checks everything.

## How it is built

Each component has up to three layers.

1. A state (a datatype) with one function per atomic region of the program: a
   locked block, one file operation, one database statement, one exchange with a
   server. These functions are the specification.
2. A class whose fields and loops are those of the source, every method proved
   to compute exactly such a function of the old state.
3. Theorems over every run: sequences of events in any interleaving the program
   allows, with an inductive invariant kept step by step.

| module | component |
|---|---|
| `DiskSpool`, `ResultPipeline`, `ProbeScheduler`, `AgentOrder` | the agent: spool file, check-ins, scheduling, and all of them together |
| `SupervisorState`, `SupervisorRuns`, `SupervisorCrashLoop`, `SupervisorLimits` | the supervisor's files and functions; supervisor, agent process and staging with a crash anywhere; crash loops; runs that show what its conditions are for |
| `TokenCache`, `SiteCache`, `RadiusChallenge` | stores shared between threads, as interleaving machines |
| `AlertEvents` | the alert-event table |
| `Text`, `ImportSensors`, `DeviceImporter`, `ImportModes`, `ImportRun` | the bulk importer: strings, sensors, matching and idempotence, modes, the loops |
| `BackupScheduler`, `CounterRate`, `LdapFilter` | the smaller cores |
| `Options`, `Results`, `Turns` | shared datatypes; what a turn of the agent's main loop makes of its check-ins |

## Where the code differs from its promises

Each of these is a theorem that says exactly when the promise holds, or, where a
list of conditions is assumed instead, runs that show what they are for.

- **Reconnect loop.** It empties the spool of an answering server if and only if
  the file's last line parses. Otherwise the loop re-posts for ever: an
  acknowledgement removes as many *lines* as *records* were sent
  (`DiskSpool.BacklogDrainsIffLastLineParses`, `DiskSpool.AckIsExactIffPrefixClean`).
- **Order and accounts of the spool.** Throughout a run, what was measured is what
  was acknowledged or dropped, then what is spooled, in flight and buffered, if and
  only if no acknowledgement deletes a line that does not parse. Otherwise results
  stay behind and are sent again: two such lines before three results of one sensor
  make the server get the last two twice and out of order
  (`ResultPipeline.ConservedIffCleanAcks`, `ResultPipeline.SpoolAckKeepsHistoryIff`,
  `ResultPipeline.TornLinesResend`). A spool whose lines all parse at start-up never
  meets this (`AgentOrder.ReadableSpoolAcksCleanly`).
- **Flush during a check-in.** Moving the live buffer to the spool while a live
  batch is being posted keeps order and accounts if and only if batch or buffer
  is empty, or the batch does not come back and the buffer fits in the spool.
  While a spool batch is being posted: if and only if the batch is not accepted or
  is empty, or the overflow drops only lines that do not parse and the lines then
  deleted all parse; over a readable file that means no overflow
  (`ResultPipeline.FlushDuringLivePost`, `ResultPipeline.FlushDuringSpoolPost`).
- **Sensor removed and brought back.** It has at most one heap entry or probe at
  all times if and only if no sync brings it back while one is left. A run from
  start-up in which it comes back while its probe runs shows it probed twice per
  interval, half a second apart (`ProbeScheduler.OnePlaceIffNeverDoubled`,
  `ProbeScheduler.RevivedSensorProbesTwicePerInterval`).
- **Good turns.** The supervisor's beacon is meant to count turns that end in an
  acknowledged check-in. A turn called good began with one, and ended with one if
  and only if its last check-in did not raise (`Turns.GoodTurn`,
  `ResultPipeline.GoodTurnIsAcknowledged`, `Turns.RaisingTurnIsCalledGood`).
- **Commit soundness.** It fails after one particular crash: between saving a
  switch and removing a health file that already names the new build. The
  restarted supervisor then commits a build that has not run. For that the old
  agent must have been killed before it wrote a health file of its own
  (`SupervisorLimits.TornSwitchCommitsBlind`, `SupervisorLimits.BlindCommitReachable`).
- **Switch during a probation.** It makes the unproven build the rollback target
  (`SupervisorLimits.NestedSwitchReachable`,
  `SupervisorLimits.NestedSwitchForgetsGoodRelease`, `SupervisorState.RollbackReturnsToLastGood`).
- **Staging at the wrong moment.** Staging the old release again in a probation
  removes what a rollback would return to; staging while old releases are being
  deleted, or again while a request is pending, can end in a switch to an
  incomplete or another package (`SupervisorLimits.RestagingRemovesRollbackTarget`,
  `SupervisorLimits.SpoiledReleaseReachable`, `SupervisorLimits.ReplacedReleaseReachable`).
- **Acknowledging a resolved alert by id.** It reopens the row and can leave two
  open rows; the route does not check the state (`AlertEvents.OneOpenIffSafe`).
- **Long sensor names.** A name whose first 255 characters end in white space is
  added once more by every import (`ImportSensors.MergeTwiceAddsNothingIff`).
- **Imported DNS and HTTP sensors.** A sensor is added if and only if the file
  fills in neither a DNS sensor's query, record type or server, nor an HTTP
  sensor's expected status: the allow-list has these fields, the sensor
  constructor does not (`core/state.py:1173`), so the add raises
  (`ImportSensors.AddableIff`, `ImportSensors.MergeAppends`).
- **Hosts over 253 characters.** The host is stored cut and matched uncut. An
  entry is created again by the second import if and only if its host was cut, its
  device does not carry its external id, and no device left alone has its whole
  host (`DeviceImporter.CreatedAgainIff`; for a first import: cut and no external
  id). With distinct stored hosts the import is idempotent if and only if every
  usable entry has an uncut host or its external id on its device
  (`DeviceImporter.ImportTwiceIff`). Where stored hosts collide, an entry may go to
  the other's device (`DeviceImporter.RematchIff`). A device with a cut host can
  also be deleted by the very run that wrote it; `ImportModes.LastTouchedIsOrphanIff`
  says when, under any duplicates.
- **Defaults over existing values.** Merging a sensor resets every field the file
  leaves out for which its type has a default: an SNMP sensor imported without a
  community gets "public" over the one it had, although never blanking existing
  values is promised (`ImportSensors.MergeStoresTheFile`).
- **Preview.** If no two entries match the same device, the preview of an entry
  shows exactly what the run then does to its device, values and set of sensor
  names, if and only if: for a new entry, it is usable; for a usable matched one,
  no name, host or group is over-long, a blank group's fallback changes nothing,
  no external id is set, every name listed is the shortened name of an addable
  sensor, and every sensor appended under a shortened name has that name listed;
  for a matched one that is rejected, it shows nothing. So a blank group silently
  moves the device to the fallback group, although "never blanks existing values"
  is promised (`ImportModes.PreviewIsHonestIff`; shared matches mislead it:
  `ImportModes.SharedMatchMisleads`).
- **Replace mode.** The importer calls `delete_device`, which the state class
  does not have (it has `remove_device`, `core/state.py:1157`), so every deletion
  raises and is reported as crashed; replace then equals `add_update`
  (`ImportModes.ReplaceDeletesOnlyOrphans`).
- **Database backups.** They run on exactly the polls whose device part does not
  raise. An enabled daily device schedule at, say, 25:00 stops them altogether,
  and an exception after a device backup has fired costs them that poll
  (`BackupScheduler.DatabaseJobSees`).
- **Second clock reading.** A backup started so late that its second reading is
  past the next day's slot costs that day its backup, and nothing else does
  (`BackupScheduler.FiresExactly`, `BackupScheduler.MidnightReadingLosesDay`).

## Assumptions

- Clocks do not go back, except in `CounterRate` and `SupervisorState`.
- Network, LDAP and RADIUS servers, probes, the disk and the database are
  nondeterministic answers: accepted, refused, unreachable, failed and so on.
- Supervisor: file replacements are atomic; a supervisor crash takes the agent
  with it. Commit soundness, the end of a probation at its deadline, and that a
  probation is of the active release, hold of every such run. The other theorems
  assume careful runs: no switch is taken while a probation is open, and the
  release a rollback would return to is not staged again
  (`SupervisorRuns.CarefulStep`). Only `SwitchesOnlyToWholeReleases` assumes quiet
  ones: an update is taken up only while the supervisor watches the agent with no
  probation open, no request pending and no deletion of old releases going on
  (`SupervisorRuns.QuietStaging`); quiet runs are careful.
- Scheduler order: the flush of an update hand-off comes between check-ins.
- RADIUS: challenge ids are never reused and the configuration does not change
  during a conversation.
- Tokens: the token hash is a function, and a row's expiry does not change.
- Strings: lower-casing and white space are ASCII.

## Model

| member | source | states |
|---|---|---|
| DiskSpool.Spool.constructor | agent/agent.py:286-297 | the limit is at least 1000 and 50000 by default; the count is the number of lines found |
| DiskSpool.Spool.Append | agent/agent.py:299-322 | the file becomes the newest `cap` lines of old and new, or all of them if they fit, in order; `count` stays exact |
| DiskSpool.Spool.TrimOldest | agent/agent.py:310-322 | rewriting drops exactly the n oldest lines and re-counts |
| DiskSpool.Spool.Peek | agent/agent.py:324-342 | the n oldest readable records in order, skipping unreadable lines, file unchanged |
| DiskSpool.Spool.RemoveOldest | agent/agent.py:344-369 | drops the n oldest lines, or nothing but a recount when the disk fails |
| DiskSpool.AppendedRecords | agent/agent.py:299-322 | over any file: after an append at most `cap` lines remain, old and new records are exactly those of the dropped oldest lines followed by the kept, and no unreadable line is added |
| DiskSpool.AppendKeepsNewest | agent/agent.py:299-322 | exactly what an append keeps and drops: all, or the newest `cap` lines and the rest |
| DiskSpool.DroppedRecords | agent/agent.py:299-322 | on a readable file the dropped records are the oldest, exactly as many as old and new exceed the cap by |
| DiskSpool.AckIsExactIffPrefixClean | agent/agent.py:883-884 | deleting as many lines as records sent removes exactly the sent records if and only if no unreadable line precedes the last of them |
| DiskSpool.AckRoundProgress | agent/agent.py:956-965 | the termination measure of the reconnect loop: each acknowledged round shortens a file whose last line parses, and keeps that property |
| DiskSpool.JunkTailNeverDrains | agent/agent.py:956-965 | with an unreadable last line no number of acknowledged rounds empties the spool |
| DiskSpool.BacklogDrainsIffLastLineParses | agent/agent.py:956-965 | the reconnect loop can finish against an answering server if and only if the last line parses |
| ResultPipeline.Shipper.StoreResult | agent/agent.py:618-619 | a finished probe's result goes to the young end of the live buffer |
| ResultPipeline.Shipper.DrainBatch | agent/agent.py:744-753 | up to 4000 oldest results, from the spool whenever it holds a line, and only then from the live buffer, which loses exactly those |
| ResultPipeline.Shipper.OverflowToSpool | agent/agent.py:755-764 | from 2000 buffered results on, all go behind the spool's, else nothing changes |
| ResultPipeline.Shipper.FlushBufferToSpool | agent/agent.py:766-774 | the whole buffer goes behind the spool's results |
| ResultPipeline.Shipper.SettleBatch | agent/agent.py:851-893 | only an accepted spool batch is deleted from the file; an unaccepted live batch is spooled, unless an exception loses it; overflow only when the server was unreachable |
| ResultPipeline.Shipper.CheckinOnce | agent/agent.py:824-893 | a check-in is one drain and one settlement, or nothing at all if enrolment fails; status 401 costs the token; how it ends, exceptions included |
| ResultPipeline.Shipper.DrainBacklog | agent/agent.py:956-965 | the reconnect loop, over any spool: it stops only for a check-in that is not good, an empty spool or the order to stop, and with a readable last line within as many rounds as the spool has lines |
| ResultPipeline.Shipper.MainIteration | agent/agent.py:950-972 | one loop turn refines such a sequence of check-ins, its verdict is the one `Turns` defines, and the streak grows by one or falls to zero |
| ResultPipeline.GoodTurnIsAcknowledged | agent/agent.py:950-972 | a turn called good had its first batch accepted, and ended in an acknowledgement exactly if its last check-in did not raise |
| Turns.GoodTurn | agent/agent.py:956-971 | the same of any turn, as the supervisor's model uses it |
| Turns.CalledGoodIff | agent/agent.py:950-971 | a turn is called good if and only if its first check-in was good and its last did not plainly fail |
| Turns.RaisingTurnIsCalledGood | agent/agent.py:960-965 | a concrete turn that is called good although its last check-in raised |
| ResultPipeline.ConservedIffCleanAcks | agent/agent.py:744-774 | throughout every run, over any spool file: measured = settled, then spooled, then in flight, then buffered, in measuring order, if and only if no acknowledgement deletes a line that does not parse; a live batch is only ever taken over an empty spool |
| ResultPipeline.SpoolAckKeepsHistoryIff | agent/agent.py:883-884 | one accepted spool batch: the accounts stay right if and only if the lines deleted for it all parse |
| ResultPipeline.TornLinesResend | agent/agent.py:324-349 | a concrete run: two lines that do not parse make the server get results twice and out of order |
| ResultPipeline.ReadableSpoolAcksCleanly | agent/agent.py:299-369 | a spool whose lines all parse stays so and never meets such an acknowledgement |
| ResultPipeline.SettleKeepsHistory | agent/agent.py:851-893 | every outcome of a check-in keeps that history and order, but for such an acknowledgement, which never does |
| ResultPipeline.SpoolStaysBounded | agent/agent.py:299-322 | no run makes the spool exceed its cap |
| ResultPipeline.NothingGivenUpEarly | agent/agent.py:299-322 | in every run a result is given up only in the hands of an exception, or for the cap when the file then holds exactly `cap` lines |
| ResultPipeline.SettleAcknowledges | agent/agent.py:851-893 | a settled batch counts as acknowledged if and only if it was accepted |
| ResultPipeline.FailureBoundsBuffer | agent/agent.py:755-764 | after a check-in that did not reach the server fewer than 2000 results stay in memory |
| ResultPipeline.AckedInOrder | agent/agent.py:281-284 | over every run of the pipeline without such an acknowledgement the acknowledged results are in per-sensor order without duplicates if the measured ones are |
| ResultPipeline.FlushDuringLivePost | agent/agent.py:766-774 | for every outcome of the post: a flush during it leaves order and accounts as they were if and only if batch or buffer is empty, or the batch does not come back and the buffer fits |
| ResultPipeline.FlushDuringSpoolPost | agent/agent.py:344-369 | the same for a spool batch, over any file: if and only if it is not accepted or is empty, or the flush drops only unreadable lines and the lines deleted for the batch all parse |
| ResultPipeline.FlushDuringReadableSpoolPost | agent/agent.py:344-369 | over a readable file: if and only if it is not accepted, batch or buffer is empty, or nothing overflows |
| ProbeScheduler.Scheduler.Schedule | agent/agent.py:569-574 | one entry at now + delay, numbered after all earlier ones |
| ProbeScheduler.Scheduler.Pass | agent/agent.py:576-597 | one pass takes exactly the due entries, starts each idle assigned sensor among them once, marks those in flight, and sleeps 0.05 to 1 s |
| ProbeScheduler.Scheduler.FinishCycle | agent/agent.py:626-631 | the sensor leaves the in-flight set, and an assigned one is queued again after its interval (default 5 s, at least 1 s) |
| ProbeScheduler.Scheduler.SyncConfig | agent/agent.py:713-736 | the table is replaced, each new sensor is queued half a second out, nothing else is |
| ProbeScheduler.NeverTwoInFlight | agent/agent.py:576-631 | in every interleaving no sensor has two probes running |
| ProbeScheduler.NoSensorForgotten | agent/agent.py:569-631 | in every interleaving each assigned sensor is queued, held, running or about to be queued |
| ProbeScheduler.ExactlyOneToken | agent/agent.py:569-631 | a sensor no sync ever removed has exactly one such place |
| ProbeScheduler.StartsKeepInterval | agent/agent.py:626-631 | such a sensor starts no sooner than its interval (at least 1 s) after its previous finish |
| ProbeScheduler.RequeuesAfterInterval | agent/agent.py:626-631 | a finished probe is queued exactly its sensor's interval ahead: 5 s if none is given, at least 1 s |
| ProbeScheduler.OutputInOrder | agent/agent.py:599-622 | results enter the buffer in time-stamp order per sensor although threads stamp and append separately |
| ProbeScheduler.SecondPlaceIffDoubles | agent/agent.py:713-736 | one event gives a sensor with at most one place a second one if and only if it is a sync that brings it back while the place is left |
| ProbeScheduler.OnePlaceIffNeverDoubled | agent/agent.py:569-631 | over every run, removed and re-added sensors included: at most one place at all times if and only if no such sync occurs |
| ProbeScheduler.RevivedSensorProbesTwicePerInterval | agent/agent.py:713-736 | a run from start-up, for any interval: removed and re-added while its probe runs, the sensor is then probed twice per interval, 0.5 s apart |
| AgentOrder.AcknowledgedInOrder | agent/agent.py:281-284 | the spool's documented contract, end to end and from any spool file: scheduler, probes, syncs, check-ins, failures, overflows, flushes and restarts in any order, each sensor's results are acknowledged in non-decreasing time, as long as no acknowledgement deletes a line that does not parse |
| AgentOrder.StoredAsMeasured | agent/agent.py:599-619 | a probe's sensor, stamp and verdict enter history and buffer as measured |
| AgentOrder.ReadableSpoolAcksCleanly | agent/agent.py:299-369 | from a spool whose lines all parse, that never happens |
| SupervisorState.Supervisor.DiscoverFallbackRelease | agent/supervisor.py:154-166 | a runnable release no runnable one is newer than, or none if none is runnable |
| SupervisorState.Supervisor.PruneReleases | agent/supervisor.py:168-179 | exactly the named releases remain, besides what failing deletions leave |
| SupervisorState.Supervisor.BeginSwitch | agent/supervisor.py:256-283 | the target becomes active on probation with the active release as rollback target, deadline 30 to 900 s ahead; what is on disk after each of its two file operations, the save first |
| SupervisorState.Supervisor.Commit | agent/supervisor.py:286-295 | the probation ends, the old release becomes previous, others are deleted |
| SupervisorState.Supervisor.Rollback | agent/supervisor.py:298-308 | the old release becomes active again, or a fallback if it cannot run; `previous_release` is untouched |
| SupervisorState.Supervisor.Monitor | agent/supervisor.py:350-369 | the monitoring loop commits at the first healthy look and rolls back at the first late one, whichever comes first, and stops at the child's exit |
| SupervisorState.RollbackReturnsToLastGood | agent/supervisor.py:262-271 | switch then rollback returns to the last good release if and only if no probation was open (or it had nowhere else to return) |
| SupervisorRuns.ProbationIsOfActive | agent/supervisor.py:256-308 | in every run, with a crash between any two file operations, a persisted probation is of the persisted active release |
| SupervisorRuns.ProbeNeverDark | agent/supervisor.py:29-33 | in every careful run, with crashes anywhere, the active release can run, and during a probation so can its predecessor |
| SupervisorRuns.SwitchesOnlyToWholeReleases | agent/agent.py:1228-1281 | in every quiet run every accepted target is the unpacking, file by file, of bytes whose checksum is the pinned one (name note aside, and no other file unless the scratch directory could not be emptied), can run, and no probation is open |
| SupervisorRuns.QuietIsCareful | agent/supervisor.py:312-423 | quiet runs are careful, so all of these theorems hold of them |
| SupervisorRuns.EverySwitchResolvedOnce | agent/supervisor.py:312-423 | in every careful run switches = commits + rollbacks + the one still open |
| SupervisorRuns.RollbackRestoresState | agent/supervisor.py:298-308 | in every careful run a rollback restores exactly the state persisted before its switch, and the restored release can run |
| SupervisorRuns.ProbationEndsAtFirstLateLook | agent/supervisor.py:352-368 | in every run the first look after the clamped deadline leads to a save that ends the probation |
| SupervisorRuns.AgentExitEndsProbation | agent/supervisor.py:393-398 | in every careful run an agent that exits during its probation is rolled back to the pre-switch state |
| SupervisorRuns.HealthyLookCommits | agent/supervisor.py:286-295 | in every careful run a look that finds two good turns of the active build commits it, with the release before the switch as the previous one, however late |
| SupervisorRuns.WindowMeans | agent/supervisor.py:259-261 | the window is 120 s by default and between 30 and 900 s |
| SupervisorRuns.LeftoverRequestIsTaken | agent/supervisor.py:333-339 | a request left from before a start is taken before anything is spawned |
| SupervisorRuns.BootRecovers | agent/supervisor.py:312-322 | at start an active release that cannot run gives way to the newest one that can, and to none if none can |
| SupervisorRuns.CommitIsEarned | agent/supervisor.py:356-361 | in every run a commit rests on a process of that build, spawned after the switch, whose last two main-loop turns each began with an acknowledged check-in and ended with one unless their last check-in raised; unless the crash below happened |
| SupervisorRuns.LoopRollbacksBoundedByCommits | agent/supervisor.py:403-421 | in every careful run crash-loop rollbacks never outnumber commits |
| SupervisorCrashLoop.ThirdFastExitRollsBack | agent/supervisor.py:400-423 | in every run, of an exit outside a probation: the third in a row less than 60 s after its spawn, if another release was the previous one and can run, makes that one active; every other exit changes nothing |
| SupervisorCrashLoop.LoopRollbackIsThird | agent/supervisor.py:403-417 | in every run a crash-loop rollback is saved only after three such exits in a row |
| SupervisorCrashLoop.CrashLoopRollbackReachable | agent/supervisor.py:400-423 | a run from installation: an update, its commit, three crashes, and the installed release is active again |
| SupervisorLimits.TornSwitchCommitsBlind | agent/supervisor.py:271-281 | after a crash between a switch's save and its health-file removal the restart commits at its first look if and only if the old file names the target with two good check-ins |
| SupervisorLimits.BlindCommitReachable | agent/supervisor.py:271-281 | a whole run from installation to such a commit, the old agent killed before it wrote a health file |
| SupervisorLimits.NestedSwitchForgetsGoodRelease | agent/supervisor.py:262-271 | a switch inside a probation, rolled back, lands on the unproven build and forgets the good one |
| SupervisorLimits.NestedSwitchReachable | agent/supervisor.py:262-271 | a whole run from installation to such a switch: nothing committed, the unproven build is the rollback target, the installed release named nowhere |
| SupervisorLimits.RestagingRemovesRollbackTarget | agent/agent.py:1262-1281 | a run in which staging during a probation removes the rollback target |
| SupervisorLimits.SpoiledReleaseReachable | agent/supervisor.py:168-179 | a run in which a deletion half-way through a freshly staged release leads to a switch to what is left |
| SupervisorLimits.ReplacedReleaseReachable | agent/agent.py:1228-1281 | a run in which a second staging before the switch puts another package under the first request |
| TokenCache.StaleAcceptsAreBounded | core/auth.py:963-1012 | in every interleaving no request starting 300 s or more after its token's revocation is accepted |
| TokenCache.ExpiryIsExact | core/auth.py:975-985 | no request starting after the expiry is accepted, cached or not |
| TokenCache.EvictionIsFinal | core/auth.py:1015-1025 | after revocation and eviction, with no lookup holding an answer, no later request is ever accepted |
| TokenCache.HeldAnswerRevives | core/auth.py:954-1012 | the proviso and the 300 s are tight: a lookup holding an old answer revives it for the rest of its 300 s |
| TokenCache.SoloVerdict | core/auth.py:963-1012 | a lookup on its own accepts exactly on a fresh unexpired entry or a valid row, and what becomes of the cache |
| TokenCache.RevokesAndEvicts | db/api_tokens.py:113-123 | a revocation takes effect at its time and once, an eviction takes exactly the entries of its hash |
| TokenCache.TokenAuth.CheckApiToken | core/auth.py:963-1012 | accepted if and only if the token is well formed and has a cached answer younger than 300 s and not expired, or none and a valid row; no other entry is touched, and the id is that of the entry or row |
| TokenCache.TokenAuth.RevokeToken | db/api_tokens.py:113-123 | a token not yet revoked is, and nothing happens to any other or when the update fails |
| TokenCache.TokenAuth.EvictHash | core/auth.py:1015-1025 | every cached entry of the hash goes, no other |
| SiteCache.InvalidationIsExact | core/probe_assign.py:27-73 | for every interleaving of readers, loaders, writers and invalidations, a call of `effective_probe` that starts after an invalidation returned gives the uncached cascade over the site table as of that write or newer |
| SiteCache.InstalledIsServed | core/probe_assign.py:27-40 | a loaded table is kept and serves the next call without a lock |
| SiteCache.TiersInOrder | core/probe_assign.py:50-73 | sensor, else device, else site, "central" standing for none at each tier |
| SiteCache.ProbeAssign.GetSiteMap | core/probe_assign.py:27-40 | served from the cache, else loaded and kept, else empty and not kept when the load fails |
| SiteCache.ProbeAssign.EffectiveProbe | core/probe_assign.py:58-73 | the code computes the documented cascade over the table it was served |
| RadiusChallenge.OneRequestPerChallenge | core/radius_auth.py:402-461 | however many phase-2 calls race, one challenge id causes at most one request, by a call that took it within 120 s of issue |
| RadiusChallenge.StateReturnsToItsServer | core/radius_auth.py:413-447 | every continuation carries the State unmodified to its issuer, in the originator's realm name, along the whole chain (RFC 2865, sections 4.4 and 5.24) |
| RadiusChallenge.AcceptIsForTheOriginator | core/auth.py:611-649 | a phase-2 grant goes to the user whose phase-1 call began the chain, and a server accepted that name for that challenge |
| RadiusChallenge.GrantNeedsAServer | core/radius_auth.py:340-461 | in every run a thread is granted a login only after a server accepted in that very thread, in phase 1 as in phase 2 |
| RadiusChallenge.FirstAnswerDecides | core/radius_auth.py:340-399 | phase 1 comes to what the first configured server with a secret that answers says: accepted, rejected or challenged if and only if it does, rejected if none answers |
| RadiusChallenge.AnswerVerdict | core/auth.py:611-649 | phase 2 comes to the server's reply, in the name of the stored login, if login and challenge are at most 120 s old and the server is configured, else to a rejection; a further challenge carries the login on |
| RadiusChallenge.ConversationCompletesIff | core/auth.py:580-649 | a challenged phase 1 and an accepted phase 2 log in the phase-1 user if and only if at most 120 s lie between |
| RadiusChallenge.AnswerUsesUpTheChallenge | core/auth.py:611-649 | a phase-2 call on a live id removes it from both maps whatever the reply; on any other id it sends nothing |
| RadiusChallenge.RadiusStore.Authenticate | core/radius_auth.py:340-399 | failover: the verdict is that of the first configured server with a secret that does not fail, said of replies and configuration |
| RadiusChallenge.RadiusStore.LoginUser | core/auth.py:580-608 | the whole phase-1 call: the same verdict, and a challenged login remembered with user and time |
| RadiusChallenge.RadiusStore.ContinueChallenge | core/radius_auth.py:402-461 | prune, take, send to the issuing server, and store a further challenge under a new id |
| RadiusChallenge.RadiusStore.AnswerChallenge | core/auth.py:611-649 | the whole phase-2 call refines the machine's steps in order |
| AlertEvents.EventTable.LogEvent | db/alert_events.py:74-219 | an active fire bumps the sensor's newest open row or opens one, inheriting the flap's acknowledgement |
| AlertEvents.EventTable.Update | db/alert_events.py:317-494 | each acknowledge or resolve statement changes exactly the rows it selects and reports how many |
| AlertEvents.EventTable.CleanEvents | db/alert_events.py:565-602 | retention deletes exactly the resolved rows past their age |
| AlertEvents.EventTable.HasActiveEvent | db/alert_events.py:499-531 | true exactly when the sensor has an open row |
| AlertEvents.OneOpenIffSafe | db/alert_events.py:96-219 | an operation keeps "at most one open row per sensor" if and only if it is not a row born acknowledged, nor an acknowledgement by id of a closed row, beside an open one |
| AlertEvents.OneOpenThroughoutIff | db/alert_events.py:96-219 | over every run each sensor has at most one open row at all times if and only if every operation is safe where it is applied |
| AlertEvents.OneOpenAlways | db/alert_events.py:96-219 | which every run of proper operations is |
| AlertEvents.ClosedStaysClosed | db/alert_events.py:317-494 | over every run of proper operations a closed or deleted session never reopens |
| AlertEvents.SessionStep | db/alert_events.py:96-219 | what one operation does to an open row: an active fire writes severity, event type, stage, profile and detail, except over "critical"; every other operation leaves all of these, and who acknowledged, alone |
| AlertEvents.SessionOverRun | db/alert_events.py:96-219 | between any two moments of a session: start fixed, repeats grew by exactly the active fires, acknowledged stayed so; critical exactly if it was or a fire was, with the first such type; else severity, and always profile, stage and detail, are the last fire's |
| AlertEvents.SessionEndsOnlyByResolving | db/alert_events.py:317-602 | an open row is still open after any run of proper operations if and only if no resolve statement selected it; no fire, acknowledgement or cleaning ends it |
| AlertEvents.SessionFromFirstFire | db/alert_events.py:45-219 | from its first fire on, a session still open has that start, one repeat for it and each later active fire, is critical exactly if one of them was, and is acknowledged if the flap already was |
| AlertEvents.LogOpens | db/alert_events.py:96-219 | a fire on an open session opens no row; any other logged event opens exactly one, with these fields, and changes no other |
| AlertEvents.EachStatement | db/alert_events.py:317-602 | what each statement does to each row, as its SQL says |
| AlertEvents.RetentionIsExact | db/alert_events.py:346-602 | over any run from the moment it is resolved, a row stays exactly as resolved until a cleaning finds it older than the retention, never under a day |
| AlertEvents.SensorWideIsComplete | db/alert_events.py:408-463 | sensor-wide acknowledge and resolve reach every open row of the sensor and no other sensor's |
| AlertEvents.RecoveryCloses | db/alert_events.py:375-494 | recovery under a profile leaves the sensor open exactly if another profile's row is open; resolve-all leaves nothing open |
| ImportSensors.AddableIff | core/device_importer.py:43-104 | an imported sensor carries only fields of its type's allow-list, and can be added if and only if the file fills in none of the fields the constructor does not take |
| ImportSensors.FilePrevails | core/device_importer.py:74-104 | a listed field the file fills has the file's value; any other is there exactly if the type has a default, with that |
| ImportSensors.StypeIsTheFiles | core/device_importer.py:80-82 | the type is the file's, stripped and lower-cased, if it is one of the thirteen, else ping |
| ImportSensors.DefaultValues | core/device_importer.py:88-103 | the defaults of each type |
| ImportSensors.MergeStoresTheFile | core/device_importer.py:554-598 | for distinct findable names, each sensor of the file that was there or can be added ends, field by field, with the file's value, else the type's default, else what it had |
| ImportSensors.MergeAppends | core/device_importer.py:554-598 | a merge appends exactly the named, unmatched, addable sensors, in file order |
| ImportSensors.CreateCounts | core/device_importer.py:258-279 | a new device gets as many sensors as the file has addable ones, unnamed ones included |
| ImportSensors.CreateMakesThese | core/device_importer.py:258-279 | a new device gets exactly the addable sensors, in file order, with type and fields, unnamed ones called "Sensor" |
| ImportSensors.KnownAfterIffFindable | core/device_importer.py:554-590 | after a merge a file sensor is found by name again if and only if its shortened name has no white space at its ends |
| ImportSensors.MergeTwiceAddsNothingIff | core/device_importer.py:554-598 | merging the same sensors again adds none if and only if all names are findable |
| ImportSensors.CreateThenMergeAddsNothingIff | core/device_importer.py:258-279 | the same for sensors first made with their device |
| ImportSensors.MergeTwiceIsOnce | core/device_importer.py:554-598 | with distinct findable names the second merge changes nothing at all |
| ImportSensors.LongNameIsLost | core/device_importer.py:569-572 | a 254-character word, a blank and anything more is such an unfindable name, for every addable sensor |
| DeviceImporter.KeyOfOther | core/device_importer.py:293-353 | after an import with distinct hosts, ids and matches another device carries an entry's external id only if it did before, and its host only then or as another entry's cut host |
| DeviceImporter.HostRules | core/validation.py:48-62 | which hosts are accepted |
| DeviceImporter.RematchIff | core/device_importer.py:293-353 | the second run matches an entry to the very device the first run gave it if and only if that carries its external id, or its host is uncut and no earlier device got it as a cut one |
| DeviceImporter.CreatedAgainIff | core/device_importer.py:420-475 | the second run creates a device for an entry if and only if its host was cut, it is not known by external id, and no device left alone has the whole host |
| DeviceImporter.FirstImportCreatedAgainIff | core/device_importer.py:420-475 | after a first import: if and only if its host was cut and it has no external id |
| DeviceImporter.OneEntryTwice | core/device_importer.py:420-475 | one entry imported twice into an empty inventory makes two devices if and only if its host is cut and it has no external id, else one |
| DeviceImporter.RunCreates | core/device_importer.py:420-475 | a run adds exactly one device for each usable entry without a match |
| DeviceImporter.SecondRunCreatesNoneIff | core/device_importer.py:380-492 | for a whole batch with distinct hosts, ids and matches: the second run creates nothing if and only if every usable entry is known by its external id, has an uncut host, or its whole host is that of a device left alone |
| DeviceImporter.ImportTwice | core/device_importer.py:380-492 | import idempotence, for distinct hosts, ids and matches and entries that rematch: the second run creates no device and changes no device field; it adds no sensor if and only if all names are findable; with distinct names it changes nothing |
| DeviceImporter.ImportTwiceIff | core/device_importer.py:380-492 | for distinct stored hosts besides: no device created and no field changed if and only if every usable entry has an uncut host or its external id on its device |
| ImportModes.ReplaceKeepsWhatItTouched | core/device_importer.py:356-507 | replace safety: no device created or updated is deleted by the same run, under any duplicates and cross matches, for hosts within 253 characters |
| ImportModes.LastTouchedIsOrphanIff | core/device_importer.py:356-377 | without the cap assumption, under any duplicates and cross matches: a touched device is an orphan of its own batch if and only if the stored host of the last entry to touch it is no host of the file and the external id left on it none of the file's |
| ImportModes.TouchedIsOrphanIff | core/device_importer.py:356-377 | where no other entry matches the device: in terms of that entry alone, and only for a cut host |
| ImportModes.FirstImportOrphansIff | core/device_importer.py:356-377 | for a first import: if and only if it has no external id and its cut host is no host of the file |
| ImportModes.ReplaceDeletesOnlyOrphans | core/device_importer.py:494-507 | a device disappears if and only if it is an orphan and its deletion succeeded; if deletions raise, replace is the plain import |
| ImportModes.OrphanIff | core/device_importer.py:356-377 | a device is an orphan if and only if no entry has its external id or its host |
| ImportModes.MonitoredIff | core/device_importer.py:139-152 | a host counts as monitored if and only if it is some device's own or secondary one |
| ImportModes.CreateOnlyIsExact | core/device_importer.py:157-255 | add-only leaves existing devices alone, monitors every usable host afterwards, and creates no two devices with one host and none with a monitored host |
| ImportModes.CreateOnlyTwice | core/device_importer.py:157-255 | adding any file twice to any inventory creates nothing the second time |
| ImportModes.PreviewIsHonestIff | core/device_importer.py:318-346 | for every entry of a file without shared matches: what the preview shows (values, set of sensor names, a new device) is what the run does when it comes to the entry, if and only if the conditions above hold, rejected entries included |
| ImportModes.SharedMatchMisleads | core/device_importer.py:415-418 | with a shared match an entry shown to change nothing renames its device back |
| ImportRun.Importer.PreviewMatch | core/device_importer.py:293-316 | each entry's first device by external id, else by host |
| ImportRun.Importer.UpdateInPlace | core/device_importer.py:514-551 | file values overwrite unless empty, an external id only if none is set, and the report names the changed fields |
| ImportRun.Importer.MergeSensors | core/device_importer.py:554-598 | the loop over the by-name map refines the merge, and the count of added sensors is right |
| ImportRun.Importer.CreateSensors | core/device_importer.py:258-279 | a new device gets the addable sensors in file order, unnamed ones called "Sensor" |
| ImportRun.Importer.Reconcile | core/device_importer.py:380-492 | the loop refines match-then-apply; every entry is reported under its heading, and there are as many reports as entries |
| ImportRun.Importer.FindOrphans | core/device_importer.py:356-377 | exactly the devices no entry refers to |
| ImportRun.Importer.ReplaceBatch | core/device_importer.py:494-511 | exactly the orphans whose deletion succeeds are gone, and every orphan is reported |
| ImportRun.Importer.CreateBatch | core/device_importer.py:157-255 | the loop with its running set of hosts refines add-only, and every entry is counted once |
| BackupScheduler.TruncationKeepsComparisons | backup/scheduler.py:58-85 | saving to the second keeps every comparison with a slot, and saving what was loaded saves the same |
| BackupScheduler.ScheduledMeans | backup/scheduler.py:36-45 | the weekly list names Monday 1 to Sunday 7; a daily schedule has every day |
| BackupScheduler.SlotMeans | backup/scheduler.py:47-49 | the slot is that hour and minute after midnight |
| BackupScheduler.FiresExactly | backup/scheduler.py:23-55 | over any polls, restarts and clock readings: a day is backed up once if scheduled, polled at or after its slot, not already served and not overtaken by a late backup of an earlier day; otherwise never |
| BackupScheduler.FiresOncePerDueDay | backup/scheduler.py:23-55 | hence, while no second reading passes the next slot, a valid schedule fires exactly once on each scheduled day with a poll at or after the slot |
| BackupScheduler.MidnightReadingLosesDay | backup/scheduler.py:136-140 | a concrete run in which a due day is never backed up |
| BackupScheduler.CanFireIff | backup/scheduler.py:29-50 | settings can ever fire if and only if enabled, a time of day is given and a weekly list names a weekday |
| BackupScheduler.DatabaseJobSees | backup/scheduler.py:109-185 | the database job runs as if alone on exactly the polls whose device part does not raise; an out-of-range daily device time leaves it none |
| BackupScheduler.Scheduler.OneTurn | backup/scheduler.py:135-180 | one poll's effect on memory and saved settings, and which backups start, an exception after the device firing included |
| CounterRate.Counters.CounterRate | agent/agent.py:633-661 | the code computes the specified rate and what is remembered, and touches no other sensor |
| CounterRate.Counters.Forget | agent/agent.py:732-734 | removed sensors start afresh, others keep their counters |
| CounterRate.RateRange | agent/agent.py:651-661 | a reported rate is at most 1.25e11, and negative only for a fall of more than a whole wrap |
| CounterRate.RateIsExactIff | agent/agent.py:649-661 | rate times elapsed is the true increase if and only if the count grew by less than its modulus (RFC 2578, section 7.1.6) |
| CounterRate.Counter32Reported | agent/agent.py:650-661 | a 32-bit counter is reported if and only if a second has passed; the ceiling never hides it |
| CounterRate.ReportedIff | agent/agent.py:649-661 | for every type: reported if and only if a second passed, the value did not fall (or is 32-bit), and the rate is at most 1.25e11; then it is the increase per second |
| CounterRate.RememberMeans | agent/agent.py:637-648 | what is remembered of each kind of value |
| CounterRate.ReportsAddUp | agent/agent.py:633-661 | over any run the reports add up to the true increase less what unreported readings saw, and never exceed it |
| LdapFilter.Escape | core/ldap_auth.py:115-121 | the five passes equal one simultaneous escape, and decoding gives the input back |
| LdapFilter.PassesAreAtOnce | core/ldap_auth.py:115-121 | passes none of which rewrites an earlier one's output equal one simultaneous escape, on every string |
| LdapFilter.BackslashFirstIff | core/ldap_auth.py:117-119 | of all orders of the five passes exactly those starting with the backslash are right on every string |
| LdapFilter.EscapeMeansItsInput | core/ldap_auth.py:115-121 | the output has no raw special character and no stray backslash, and means exactly the input (RFC 4515, section 3) |
| LdapFilter.MatchUserToGroups | core/ldap_auth.py:544-583 | the first of the highest-ranked direct groups; only if there is none, nested groups are on and the user DN is known, the first of the highest-ranked nested ones |
| LdapFilter.DirectIgnoresCase | core/ldap_auth.py:553-563 | a group matches directly if and only if its DN is one of the user's, letter for letter but for case |
| LdapFilter.RolesRank | core/ldap_auth.py:551 | admin above operator above everything else |
| LdapFilter.BestIsUnique | core/ldap_auth.py:561-575 | that description leaves exactly one possible answer |

## Left out

- DiskSpool.Spool.Append: a torn last line glued to the next appended record, and the drift of `count` it causes, are not modelled, since lines are separate here; a write that fails is in the pipeline as a lost batch.
- ResultPipeline.Shipper.SettleBatch: the rewrite after an acknowledgement succeeds; when it fails the batch is sent again, as `DiskSpool.Spool.RemoveOldest` shows.
- ResultPipeline.Shipper.CheckinOnce: an exception leaves the pipe as the outcome before it did, or loses the live batch in hand; a batch half written to a full disk is counted as lost.
- Growth of the live buffer while the server answers but refuses: the buffer is unbounded here as in the code.
- ProbeScheduler.Scheduler.Pass: the heap is a set with its least entry taken, so the array layout of `heapq` is not modelled; malformed interval values are not either.
- vCenter prewarming (and its 12 s first delay), probes, discovery and device scans, task polling.
- SupervisorRuns.AgentExitEndsProbation: a release that can never be spawned is retried without end by the code, so no bound on that loop is claimed.
- A supervisor killed alone, leaving its agent running; failing file operations; update reports, which are written apart from the state.
- SupervisorRuns.SwitchesOnlyToWholeReleases: checksum and unzipping are two functions of the bytes; that different bytes have different checksums is not claimed, and the supervisor's own note of the build's name is not modelled.
- TokenCache.TokenAuth.RevokeToken: two revocations racing between the read and the unguarded update, the second of which overwrites the first one's time.
- API tokens: the last-used stamp, the user lookup after acceptance and the shape of the returned record.
- SiteCache.InvalidationIsExact: database loads succeed; the failing load is in `SiteCache.ProbeAssign.GetSiteMap` only.
- RADIUS packets, attributes and roles, dead-server status, random challenge ids (numbered here) and configuration changes in mid-conversation.
- Alert events on PostgreSQL: two first fires there are not serialised and can open two rows; the SQLite write lock is what is modelled. Listing, counting and paging are left out.
- AgentOrder.AcknowledgedInOrder: what the agent saw acknowledged; a reply lost with a dying process makes it send those spooled results again.
- AlertEvents.EventTable.Update: the row count is that of the statement; some of the functions report only success.
- ImportRun.Importer.Reconcile: sensor restarts, IPAM synchronisation, saving, site and discovery fields, non-dictionary sensor specs, and devices removed by somebody else during the run.
- ImportRun.Importer.CreateBatch: an `add_device` that returns nothing, which the state class never does.
- Unicode lower-casing and white space in the importer and LDAP matching.
- BackupScheduler.FiresOncePerDueDay: saving succeeds, settings do not change, no daylight-saving jumps; parsing of the time and day strings is taken as done.
- CounterRate.ReportsAddUp: exact arithmetic instead of floating point.
- LdapFilter.MatchUserToGroups: the directory's recursive membership answer is a function of the group's DN.
- TLS, HTTP, enrolment, SAML, OIDC, password hashing, TOTP, the user interface and set-up, configuration loading, server-side ingest and its deduplication, the alert engine, backup transport and retention, subnet extraction.
