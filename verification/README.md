# Verified model of the remote-control back end

This project models the parts of the system where state is shared between processes or rebuilt from messages, and
proves what they promise: the ingest handler with its capability cache, the session lock and row life cycle, the relay,
the dump protocol, the canonical serialisation the cache key rests on, the live hash, the fleet and rollout reports, and
the Annex B splitter. `dafny verify dfyconfig.toml` checks all of it.

How the source is rendered:

- Handlers and services that change state step by step are classes or methods with loops, each proved against a function
  of the old state (`ingest_service.dfy`, `sessions_service.dfy`, `relay_server.dfy`, `dump.dfy`, `ratelimit.dfy`,
  `fleet_pass.dfy`, `rollout.dfy`, `annexb.dfy`, ...).
- Where calls interleave, every await or callback is one step of a machine (`ingest_run.dfy`, `ingest_faults.dfy`,
  `session_lock.dfy`, `session_ends.dfy`, `session_rows.dfy`, `relay.dfy`, `factory_reset.dfy`), and results are about
  every run. `IngestCache.SoloRun` and `SessionsServices.SoloStart` tie the steps of one undisturbed call to the method.
  The relay's methods are proved to do to all objects together exactly what the machine's callback does to its state.
- Postgres, Redis, sockets and timers are maps, sequences and outboxes; SQL statements and Redis commands are atomic.
- Every lemma switches automatic induction off, so each proof is the one that is written.

What the proofs brought to light about the code:

- The cached handler is not the same as one that always writes. For a record with properties the columns cannot hold,
  the naive handler logs a change on every message. `IngestCache.HitRefinesIffPlain` gives the exact condition.
- The double subscription is harmless except for one message: a reset message that carries an acceptable record writes
  the record over the blanked columns on its second delivery (`IngestCache.DoubleDelivery`).
- A handler that fails between the two writes of metrics leaves a stale one in the live hash; in every other run the hash
  holds exactly the metrics of the last message (`IngestLive.MetricsIff`).
- The event log replays the stored capabilities exactly as long as every reset finds the columns as it would leave them
  (`IngestLog.LogReplaysIff`); after any other reset (`IngestReset.ResetRun`) the next record makes the log right again
  if and only if each column is what it was before the reset or differs from what the reset wrote
  (`IngestLog.RecordRepairs`).
- Three points at which a throw leaves a wrong cache behind (`IngestCache.CrashWindows`), and the Headwind sync as a
  fourth way (`IngestFaults.SyncRun`). The cache stays right through a run if and only if every throw and every sync
  meets a condition on the state it finds (`IngestFaults.CoherentIff`).
- Once a reset is flagged, the `start` calls that can still insert a session are exactly those that had read a row without
  any blocker before (`FactoryReset.BarredIff`).
- The unguarded updates of `start` can reopen a row that was closed meanwhile (`SessionRows.CloseDuringStart`).
- `close`, the relay and the removal of a device delete the device lock without asking whose it is. The lock is exclusive
  throughout a run if and only if each deletion finds it free or its own (`SessionEnds.ExclusiveIff`); the second end of a
  session, API close and then relay teardown, need not (`SessionEnds.SecondEnd`).
- The relay's teardown works by id, so a late grace timer can unlist a newer session (`RelaySurprises.LateTimer`). Only a
  grace timer or an agent close can, and each does if and only if its own session has been superseded
  (`RelayListing.CallbackHits`).
- A viewer that is no longer current misses newer config frames (`RelaySurprises.StaleViewer`).
- The pre-image of the cache key is ambiguous only for two numbers, which capability records are not
  (`Canonical.PreimageUnique`).
- The rate limiter lets up to `2 * max - 1` calls into one window, or `max` if the window is a single unit of its clock;
  that is the best bound for every `max` and window (`RateLimit.WindowBound`, `RateLimit.WindowBoundReached`).
- The comparator of the rollout's version table never answers that two versions are equal, so it is inconsistent exactly
  when two different texts are the same version (`Rollout.ConsistentIff`).
- `buildFrames` emits pending config before the slice it has held back, that is one slice earlier than the config stands
  in the stream (`AnnexB.BuildFrames`).

## Model

| member | source | states |
|---|---|---|
| JsonText.ReadPrinted | packages/shared/src/hash.ts:5-9 | an independent reader of JSON text, run on a printed value followed by anything, returns exactly that value and exactly what followed (a number must not be continued) |
| JsonText.PrintInjective | packages/shared/src/hash.ts:23-25 | equal `JSON.stringify` texts come from equal values, property order included; so the text comparison of `capsDiff` compares values |
| Canonical.SortProperties | packages/shared/src/hash.ts:8 | sorting keys gives a strictly increasing list with the same keys, each once |
| Canonical.IncreasingUnique | packages/shared/src/hash.ts:8 | two strictly increasing key lists with the same keys are the same list |
| Canonical.StringifyPrintsCanon | packages/shared/src/hash.ts:4-10 | `stableStringify` prints the value whose objects are rewritten in key order |
| Canonical.SameIffCanonEqual | packages/shared/src/hash.ts:4-10 | rewriting in key order identifies exactly the values that are equal up to property order |
| Canonical.StringifyCanonical | packages/shared/src/hash.ts:4-10 | two values have equal texts if and only if they are equal up to object key order |
| Canonical.PreimageReads | packages/shared/src/hash.ts:12-16 | from the text followed by any version string the reader recovers one value and the whole version |
| Canonical.PreimageUnique | packages/shared/src/hash.ts:12-16 | equal pre-images mean equal values and versions for all versions if and only if the values are not two numbers one of which continues the other |
| Canonical.SamePreimage | packages/shared/src/hash.ts:12-16 | unless both values are numbers one of which continues the other, equal pre-images mean the same value up to key order and the same version |
| Capabilities.CapsDiff | packages/shared/src/hash.ts:18-28 | the loop over the keys of both records finds exactly the properties on which they differ, with old and new value; a first record is logged whole |
| Capabilities.DiffPatches | packages/shared/src/hash.ts:18-28 | applying the difference to the old record gives the new one, and its inverse gives the old one back |
| Capabilities.DiffEmpty | packages/shared/src/hash.ts:18-28 | the difference is empty if and only if the records have the same properties |
| Capabilities.ReadBackIsPlain | apps/rc-ingest/src/ingest.service.ts:408-428 | a stored record read back shows no difference to the reported one if and only if the reported one has exactly the shape the columns can hold |
| Capabilities.ReadBackFields | apps/rc-ingest/src/ingest.service.ts:408-428 | each property read back is the column it was stored in |
| Capabilities.EveryColumnsWritten | apps/rc-ingest/src/ingest.service.ts:430-460 | every choice of columns is written by some record, up to an encoder without a name |
| Capabilities.SameColumns | apps/rc-ingest/src/ingest.service.ts:430-460 | records equal up to key order are stored in the same columns |
| LiveHash.CleanStable | packages/shared/src/hw.ts:66-68 | a cleaned text has at most 128 units, no NUL, and is unchanged by cleaning again |
| LiveHash.CleanMeans | packages/shared/src/hw.ts:66-68 | a cleaned text is the text without its NULs, cut to 128 units; a short text without NUL stays as it is |
| DeviceStates.LiveReadsBack | packages/shared/src/live-hash.ts:3-15 | the state read right after a message, whatever the hash was before: screen and charger are the truth of the values sent, battery and signal the numbers of the texts sent (missing: `0`), the network its text, and `online` what the message says, or as before |
| DeviceReadings.HandlerReads | apps/rc-api/src/devices/devices.service.ts:208-233 | after the handler of an accepted record, in any coherent state, every property read for `start` and the version are those of the record |
| DeviceReadings.HandlerStores | apps/rc-ingest/src/ingest.service.ts:141-183 | after a handler the capability row is that of an accepted record, the old one blanked after a reset, and else unchanged |
| DeviceReadings.HandlerEnds | apps/rc-ingest/src/ingest.service.ts:160-182 | in every run with removals at every await, when the handler of an accepted record ends, by writing it or on a cache hit, the row and the reading are those of the record if the device is there |
| DeviceReadings.ReportInRuns | apps/rc-api/src/devices/devices.service.ts:208-233 | in every state of every run the device is read as the last accepted record since the row was deleted says, blanked if a reset came since; without one as blocked with version 0.0.0 |
| DeviceReadings.DeviceStep | apps/rc-ingest/src/ingest.service.ts:370-406 | what every step does to the device row: created empty, deleted, or given the Android id of the message, with the flag in a reset only |
| DeviceReadings.FlaggedIff | apps/rc-ingest/src/ingest.service.ts:387-391 | in every run the row is flagged if and only if some reset has flagged it and it has not been deleted since |
| DeviceReadings.RemovalLeavesNothing | apps/rc-api/src/devices/devices.service.ts:150-165 | the steps of one undisturbed removal leave no row, no log, no cache and no live hash |
| LiveHash.HwLivePatch | packages/shared/src/hw.ts:126-144 | without metrics the patch is empty; otherwise it writes exactly the usable metrics and deletes every other metric field |
| LiveHash.SanitisedMeans | packages/shared/src/hw.ts:130-138 | which numbers of a message survive: as sent, but not the -1 with which four metrics say unknown, nor a display state of 0 |
| LiveHash.PackageMeans | packages/shared/src/hw.ts:139-141 | the foreground package survives, cleaned, if something is left of it |
| LiveHash.StringOfArray | packages/shared/src/live-hash.ts:9-11 | the text of a value that should be a number or a name but is an array: its elements joined with commas |
| LiveHash.HwFromHash | packages/shared/src/hw.ts:147-157 | for any `Number`, the metrics read are exactly those whose text is there, not empty and finite; nothing if there are none |
| LiveHash.WrittenReads | packages/shared/src/hw.ts:133-153 | for any `Number` that inverts `String`, a metric that is written reads back as its sanitised value |
| LiveHash.PatchedMetrics | apps/rc-ingest/src/ingest.service.ts:185-190 | one message replaces all metrics by its own sanitised ones, or changes none if it carries none |
| LiveHash.PatchedOnline | apps/rc-api/src/devices/devices.service.ts:225-225 | after one message the device reads online as the message says, or as before if it says nothing |
| LiveHash.MetricsOverRuns | packages/shared/src/hw.ts:126-157 | from any earlier hash and over any messages and expiries: the sanitised metrics of the last message that carried any since the last expiry; no stale field survives |
| LiveHash.OnlineOverRuns | packages/shared/src/live-hash.ts:13-13 | over any messages and expiries the device reads online exactly when the last boolean `online` since expiry was true |
| IngestLive.HandlerLeaves | apps/rc-ingest/src/ingest.service.ts:185-190 | after the handler of any message, in any state, the metrics in the live hash are the sanitised ones of the message if it has any metric property, else the old ones, and `online` reads as the message says, or as before |
| IngestLive.MetricsIff | apps/rc-ingest/src/ingest.service.ts:185-190 | in every run with removals, expiries and throws at every await the metrics are throughout those of the last message whose metrics were written since the hash was lost, if and only if no handler fails between writing its metrics and deleting a readable one it does not carry |
| IngestLive.MetricsInRuns | packages/shared/src/hw.ts:126-157 | in such a run the hash holds exactly these metrics whenever no handler is between the two writes |
| IngestLive.OnlineInRuns | packages/shared/src/live-hash.ts:13-13 | in every state of every run the device reads online exactly as the last boolean since the hash was lost says |
| HwSample.NormalizeHwSample | packages/shared/src/hw.ts:76-97 | the loop over the known fields yields the normalised sample; nothing without a positive time stamp |
| HwSample.FieldsSurvive | packages/shared/src/hw.ts:84-94 | every known field that is null or of its own kind survives, numbers and booleans unchanged, strings cleaned, of a list the first sixteen strings cleaned; anything else is dropped |
| HwSample.PositiveMeans | packages/shared/src/hw.ts:79-79 | which time stamps count as positive |
| HwSample.FittingStable | packages/shared/src/hw.ts:84-94 | a value that fits its kind still fits after cleaning, unchanged |
| HwSample.NormalizedStable | packages/shared/src/hw.ts:76-97 | normalising a normalised sample changes nothing; it has a time stamp and only known fields |
| IngestServices.IngestService.constructor | apps/rc-ingest/src/ingest.service.ts:141-183 | the stores of one device, empty |
| IngestServices.IngestService.OnState | apps/rc-ingest/src/ingest.service.ts:141-183 | the handler with its awaits in order leaves the new row, capability row, event log, cache and live hash of the specification, and the heartbeat sample, for every message |
| IngestServices.IngestService.EnsureDevice | apps/rc-ingest/src/ingest.service.ts:370-380 | a row created now drops the cache; an existing one changes nothing |
| IngestServices.IngestService.CheckFactoryReset | apps/rc-ingest/src/ingest.service.ts:382-406 | on another stored Android id: new id, flag, blanked columns, cache dropped; otherwise only the id is stored |
| IngestServices.IngestService.WriteLive | apps/rc-ingest/src/ingest.service.ts:185-196 | the live hash gets the base patch, the metrics and the deletions, the sample table its sample, nothing else changes |
| IngestServices.IngestService.StoreHeartbeatSample | apps/rc-ingest/src/ingest.service.ts:198-212 | the sample table and the key that holds back further samples change as the specification of one heartbeat says |
| Heartbeats.PassesIff | apps/rc-ingest/src/ingest.service.ts:198-212 | in every timed sequence of heartbeats one passes if and only if it can be stored and all that passed before lie at least the pause back; so samples keep their distance and none that can be stored is left out beyond it |
| Heartbeats.RowsAre | apps/rc-ingest/src/ingest.service.ts:205-210 | the rows are exactly the samples of the heartbeats that passed, under each time stamp the first one |
| Heartbeats.SampleUnder | apps/rc-ingest/src/ingest.service.ts:202-204 | under a positive time stamp the sample of an object is never refused, carries that time stamp, and is already normalised |
| Heartbeats.SampleCarries | apps/rc-ingest/src/ingest.service.ts:202-204 | the sample holds the numbers, booleans and texts of the message and nothing the message does not have |
| IngestCache.SoloRun | apps/rc-ingest/src/ingest.service.ts:141-183 | stepping through all awaits of one handler with nothing in between computes the whole-handler specification |
| IngestRun.CacheInvKept | apps/rc-ingest/src/ingest.service.ts:141-183 | each await and each step of a removal keeps the invariant of the handler under way |
| IngestRun.CacheCoherentInRuns | apps/rc-ingest/src/ingest.service.ts:141-183 | in every run with removals interleaved at every await, whenever no handler is at work a cached hash is that of the stored record and version |
| IngestRun.IdleCache | apps/rc-ingest/src/ingest.service.ts:141-183 | between handlers the invariant says exactly coherence |
| IngestCache.OnStateCoherent | apps/rc-ingest/src/ingest.service.ts:141-183 | a whole handler keeps coherence |
| IngestCache.HitMeansStored | apps/rc-ingest/src/ingest.service.ts:160-162 | on a cache hit the stored row is the one the message would write |
| IngestCache.HitRefinesIffPlain | apps/rc-ingest/src/ingest.service.ts:160-182 | on a cache hit the handler does what a handler that always writes would do if and only if the record has exactly the shape of the columns; they differ at most in the log |
| IngestCache.CachedRefinesNaive | apps/rc-ingest/src/ingest.service.ts:158-183 | over any messages with such records the cached handler leaves the same device row, capability row, event log and live hash as one that re-reads and upserts each time |
| IngestCache.NotPlainDiverges | apps/rc-ingest/src/ingest.service.ts:158-183 | any other accepted record sent twice is logged again by the naive handler and not by the cached one |
| IngestCache.DoubleDelivery | apps/rc-ingest/src/ingest.service.ts:70-80 | delivering a message twice equals delivering it once if and only if it is not a reset message carrying an acceptable record |
| IngestCache.CrashWindows | apps/rc-ingest/src/ingest.service.ts:141-183 | for a throw after the row insert, inside the reset path, or between upsert and cache write: exactly when the store is still coherent |
| IngestCache.DescribesOnce | packages/shared/src/hash.ts:12-16 | one hash describes at most one stored record and version |
| IngestCache.SyncBreaksCoherence | apps/rc-api/src/hmdm/hmdm.sync.ts:29-48 | a message handled inside a removal followed by the Headwind sync leaves a cache for a record that is not stored, and the same message is then skipped; when a sync is harmless is said by `IngestFaults.CoherentIff` |
| IngestFaults.CleanKeeps | apps/rc-ingest/src/ingest.service.ts:141-183 | with the sync and with throws at every await added, one step keeps the cache invariant if and only if it is clean: a throw finds no row or no cached hash, or does not come between a change of the row and the cache write that belongs to it, except that nothing is lost if the cached hash already fits; a sync finds the row there, or the cache about to be dropped, or nothing cached and nothing about to be |
| IngestFaults.CoherentIff | apps/rc-api/src/hmdm/hmdm.sync.ts:29-48 | in every such run the cache invariant, which between handlers is coherence, holds throughout if and only if every throw and every sync is clean |
| IngestFaults.BlankedDescribed | apps/rc-ingest/src/ingest.service.ts:394-404 | a row whose columns were blanked still fits its cached hash if and only if that is the hash of a record stored as blank columns |
| IngestFaults.SyncRun | apps/rc-api/src/hmdm/hmdm.sync.ts:29-48 | from any coherent state with the row there, a whole run of a removal, a message inside it and the sync that ends with a wrong cache |
| IngestLog.RecordShowsColumns | apps/rc-ingest/src/ingest.service.ts:408-428 | a record, written to the columns and read back, shows itself |
| IngestLog.EntryTells | packages/shared/src/hash.ts:18-28 | a stored entry names exactly the properties that differ, with old and new value; the entry of a first record holds it whole |
| IngestLog.DiffReplays | packages/shared/src/hash.ts:18-28 | a log that shows the stored columns shows the new ones after the entry of their difference |
| IngestLog.DiffMerges | packages/shared/src/hash.ts:18-28 | a log that shows any other columns shows, after an entry, the new value of each column that the entry mentions and its own value of the others |
| IngestLog.ShowsIff | apps/rc-ingest/src/ingest.service.ts:408-428 | a log that shows some columns shows others with the same encoder if and only if the five plain columns agree |
| IngestLog.LogInvKept | apps/rc-ingest/src/ingest.service.ts:164-172 | each step of a handler, a reset or a removal keeps the log a replay of the columns it has noticed, or known to be lost |
| IngestLog.LogShowsInRuns | apps/rc-ingest/src/ingest.service.ts:141-183 | in every run without failed handlers, resets included, and while no removal stands between log and device, the folded log shows for each column the last value that the log noticed, and the stored columns if and only if these agree |
| IngestLog.LogReplaysIff | apps/rc-ingest/src/ingest.service.ts:164-172 | in every run without failed handlers the folded log shows the stored columns throughout, except while a removal has deleted the log and not yet the device, if and only if every reset outside such a removal finds the columns as it would leave them |
| IngestLog.LogReplaysInRuns | apps/rc-ingest/src/ingest.service.ts:164-172 | in every run without failed handlers whose resets all find blank columns, whenever no handler is at work and no removal stands between log and device, folding the event log (an `initial` entry restarts it) reproduces the stored capabilities |
| IngestLog.ResetBreaksReplay | apps/rc-ingest/src/ingest.service.ts:394-400 | right after a reset a log that was right is right if and only if the reset changed no column |
| IngestLog.RecordRepairs | apps/rc-ingest/src/ingest.service.ts:164-172 | the first record after a reset makes the log right again if and only if each of the five columns is what it was before the reset or differs from what the reset wrote |
| IngestReset.ResetRun | apps/rc-ingest/src/ingest.service.ts:382-406 | for any first message with a record that is not stored as blank columns and any reset message, a run from empty stores that ends with a wrong log |
| RateLimit.Limiter.constructor | apps/rc-ingest/src/ingest.service.ts:215-219 | a counter key that does not exist yet |
| RateLimit.Limiter.Allow | apps/rc-ingest/src/ingest.service.ts:215-219 | each call extends a run in which the n-th hit of a key lifetime is allowed if and only if n is at most `max`, and a lifetime starts with its first hit and lasts `windowSec` |
| RateLimit.LifetimeBound | apps/rc-ingest/src/ingest.service.ts:215-219 | each key lifetime allows as many calls as it has hits, at most `max` |
| RateLimit.WindowBound | apps/rc-ingest/src/ingest.service.ts:215-219 | in every timed run any half-open interval of length `windowSec` contains at most `2 * max - 1` allowed calls, at most `max` for a window of one time unit, and none for `max` 0 |
| RateLimit.WindowBoundReached | apps/rc-ingest/src/ingest.service.ts:215-219 | for every `max` and every window some run reaches that bound |
| HwDump.DumpHandler.constructor | apps/rc-ingest/src/ingest.service.ts:295-336 | no registered nonce, no reply, no sample |
| HwDump.DumpHandler.OnHwDump | apps/rc-ingest/src/ingest.service.ts:295-336 | the handler consumes the registration, stores what its exit path stores and replies if it consumed one, for every fault |
| HwDump.DumpHandler.StoreSamples | apps/rc-ingest/src/ingest.service.ts:301-327 | what is counted, inserted and kept on each exit path |
| HwDump.StoresExactly | apps/rc-ingest/src/ingest.service.ts:301-327 | a handler run inserts exactly the time stamps of the valid samples among the last 200 that are not there yet, and counts the valid ones; nothing if it fails or is refused before |
| HwDump.StoredTsMeans | apps/rc-ingest/src/ingest.service.ts:309-318 | a raw sample is valid exactly if it is an object with a positive and sane time stamp |
| HwDump.OthersUnanswered | apps/rc-ingest/src/ingest.service.ts:296-298 | a dump without a nonce, with one longer than 64 or an automatic one consumes no registration and gets no reply |
| HwDump.RepliesOnce | apps/rc-api/src/devices/hw.service.ts:62-84 | in every run with duplicate deliveries, limits and storage faults each registered nonce gets at most one reply, others none, and the reported insertions add up to the growth of the sample table |
| HwDump.ReplyExactly | apps/rc-ingest/src/ingest.service.ts:328-335 | a handler run replies if and only if it consumed a registration, on every exit path, with the counts of what it stored |
| Semver.SemverLt | packages/shared/src/semver.ts:1-9 | true if and only if at the first of the three components that differ the left one is smaller |
| Semver.LessByComponents | packages/shared/src/semver.ts:1-14 | the order is the lexicographic one on the three numbers that `Semver.ParseReads` describes |
| Semver.ParseReads | packages/shared/src/semver.ts:11-14 | a version of any number of dotted components, each a decimal number followed by any other text, with or without a leading v, parses to the numbers of its first three components, 0 for missing ones |
| Semver.ParseIntReads | packages/shared/src/semver.ts:12-12 | a component is read after white space and a sign, and up to the first character that is no digit |
| Semver.LessOnNumbers | packages/shared/src/semver.ts:1-14 | on the dotted decimal texts of two triples the order is the lexicographic order of the numbers |
| Semver.LessIsWeakOrder | packages/shared/src/semver.ts:1-14 | irreflexive, transitive, and incomparable exactly for equal triples |
| DeviceReadiness.ComputeReadiness | packages/shared/src/readiness.ts:4-34 | the tier with its blockers and warnings, which are the ones that apply, in a fixed order |
| DeviceReadiness.TierMeaning | packages/shared/src/readiness.ts:4-34 | OFFLINE, NOT_READY, DEGRADED and READY each if and only if: not online; some blocker; no blocker but a warning; neither |
| DeviceReadiness.TierExplicit | packages/shared/src/readiness.ts:4-34 | the tiers in terms of what is reported: without accessibility both projection and a Knox licence are needed, and so on for every condition with its limits |
| DeviceReadiness.FlaggedIsBlocked | packages/shared/src/readiness.ts:21-24 | a device flagged for re-provisioning is never better than NOT_READY |
| DeviceReadiness.ReadinessMonotone | packages/shared/src/readiness.ts:4-34 | a device that is at least as good in every respect has at least as good a tier |
| FactoryReset.ResetFlags | apps/rc-ingest/src/ingest.service.ts:387-402 | a recognised reset sets the flag |
| FactoryReset.FlagKept | apps/rc-ingest/src/ingest.service.ts:382-406 | every later step keeps the flag while the device row exists |
| FactoryReset.ResetSticks | packages/shared/src/readiness.ts:4-24 | in every run from a flagged state while the row exists, readiness is NOT_READY or OFFLINE whatever is reported, and a `start` that has not read the row yet, or has read it with any blocker, never inserts a session |
| FactoryReset.EarlyReaderInserts | apps/rc-api/src/sessions/sessions.service.ts:42-55 | from every state with the row there, a `start` that has read a row without blockers inserts its session in some run: the handler at work ends, the device reports online, and the `start` decides |
| FactoryReset.BarredIff | apps/rc-api/src/sessions/sessions.service.ts:42-55 | once the flag is set, a `start` inserts in no run that keeps the row if and only if it has not read the row, has read it with a blocker, or was refused |
| FactoryReset.TierFromRow | packages/shared/src/readiness.ts:4-24 | with a given row a device is past NOT_READY exactly if it is online and the row has no blocker, whatever else the live hash says |
| FactoryReset.RowBlockedIff | apps/rc-api/src/devices/devices.service.ts:209-233 | a row is blocked if and only if there is no capability row, or the flag is set, or the version is below 1.2.0, or accessibility is off and projection or licence is missing |
| FactoryReset.SlipsPast | apps/rc-ingest/src/ingest.service.ts:387-402 | during any reset of a row without blockers, a `start` that reads the row just before the flag is set inserts after it in some run |
| SessionLock.OneHolder | apps/rc-api/src/sessions/sessions.service.ts:26-39 | for any number of interleaved `start` calls at most one is between winning the lock and giving it back; a started or reissued token is for the holder, reissued ones for the same operator |
| SessionLock.OnlyHolderReleases | apps/rc-api/src/sessions/sessions.service.ts:113-116 | the lock is only ever deleted by the call that holds it, on its way out |
| SessionLock.ReplyWhileHeld | apps/rc-api/src/sessions/sessions.service.ts:142-158 | every reply given while the lock is held is the holder's session or DEVICE_BUSY |
| SessionLock.ReissuedIff | apps/rc-api/src/sessions/sessions.service.ts:142-158 | in every run a call that found the lock taken gets a token if and only if the session it found has written its hash and belongs to the same operator, and DEVICE_BUSY otherwise |
| SessionLock.ClaimIff | apps/rc-api/src/sessions/sessions.service.ts:30-39 | a call wins the lock if and only if it is free |
| SessionEnds.CleanKeeps | apps/rc-api/src/sessions/sessions.service.ts:119-140 | with closes, relay teardowns, removals of the device and lock expiry added, one step keeps that every live call holds the lock if and only if the step, should it delete the lock, finds it free or held by the call it deletes it for |
| SessionEnds.ExclusiveIff | apps/rc-api/src/sessions/sessions.service.ts:119-140 | in every such run every live call holds the lock throughout if and only if every deletion finds the lock free or held by its own call |
| SessionEnds.AtMostOne | apps/rc-api/src/sessions/sessions.service.ts:26-39 | then at most one call is live |
| SessionEnds.NextGetsIn | apps/rc-api/src/sessions/sessions.service.ts:26-39 | a live call without the lock lets the next `start` in beside it |
| SessionEnds.SecondEnd | apps/rc-relay/src/relay.server.ts:246-248 | a run from the initial state: a session is closed, a second one starts, the late relay teardown of the first frees the lock of the second, and a third call gets in |
| SessionLock.PickLeastLoaded | apps/rc-api/src/sessions/sessions.service.ts:181-197 | the first node with the smallest load; the first node if no load can be read |
| SessionsServices.SessionsService.constructor | apps/rc-api/src/sessions/sessions.service.ts:16-24 | no lock, no session hash, no row |
| SessionsServices.SessionsService.Start | apps/rc-api/src/sessions/sessions.service.ts:26-117 | lock, session hash, row and reply after an undisturbed call, on each of its exits |
| SessionsServices.OutcomeMeans | apps/rc-api/src/sessions/sessions.service.ts:26-117 | an undisturbed call starts exactly on a free lock with a ready device that answers; what lock, hash and row are then, and in each other case |
| SessionsServices.SessionsService.ReissueViewer | apps/rc-api/src/sessions/sessions.service.ts:142-158 | a token for the locked session exactly for its own operator, DEVICE_BUSY otherwise |
| SessionsServices.SessionsService.Fail | apps/rc-api/src/sessions/sessions.service.ts:199-206 | the row is failed with its end time and the lock is gone |
| SessionsServices.SessionsService.Close | apps/rc-api/src/sessions/sessions.service.ts:119-140 | an allowed close of a known session closes its row if it is not closed yet and drops lock and session hash; a refused one changes nothing |
| SessionsServices.SoloStart | apps/rc-api/src/sessions/sessions.service.ts:26-117 | stepping one call of the interleaved machine through to its end gives the outcome of the undisturbed call |
| SessionRows.RowsMoveForward | apps/rc-relay/src/relay.server.ts:226-255 | once `start` has returned, in every interleaving of joins, repeated teardowns and closes a row only moves forward and a closed row is frozen |
| SessionRows.ConnectedOnce | apps/rc-relay/src/relay.server.ts:228-235 | `connected_at`, once written, never changes, in any interleaving |
| SessionRows.ConnectedIff | apps/rc-relay/src/relay.server.ts:228-235 | in every run the row has a connection time if and only if some join found it probing or starting, and it is the time of the first such join |
| SessionRows.JoinActivates | apps/rc-relay/src/relay.server.ts:226-235 | a join that finds the row probing or starting leaves it active; any other changes nothing |
| SessionRows.EndedIff | apps/rc-relay/src/relay.server.ts:248-255 | in every run the end time is that of the last failure, teardown or close that ended the row, and missing without one |
| SessionRows.CountersIff | apps/rc-relay/src/relay.server.ts:248-255 | in every run the counters are those of the last teardown that found the row open, 0 without one |
| SessionRows.StepStates | apps/rc-api/src/sessions/sessions.service.ts:82-85 | the state, reason and node after each step |
| SessionRows.ClosedChangesOnlyByStart | apps/rc-api/src/sessions/sessions.service.ts:82-85 | a closed row changes if and only if one of the two unguarded updates of `start` runs |
| SessionRows.CloseDuringStart | apps/rc-api/src/sessions/sessions.service.ts:82-85 | a close that overtakes `start` is undone |
| RelayServers.Socket.Send | apps/rc-relay/src/relay.server.ts:194-196 | an open socket's outbox grows by the message; otherwise it is lost |
| RelayServers.Socket.Close | apps/rc-relay/src/relay.server.ts:243-244 | an open socket starts closing; others stay |
| RelayServers.RelayServer.constructor | apps/rc-relay/src/relay.server.ts:30-43 | a relay without sessions |
| RelayServers.RelayServer.GetOrCreate | apps/rc-relay/src/relay.server.ts:133-146 | the listed session of that id, or a new listed one; everything else stays |
| RelayServers.RelayServer.OnConnection | apps/rc-relay/src/relay.server.ts:118-127 | join and replay of the stash leave the whole relay in the state of the machine |
| RelayServers.RelayServer.OnAgentJoin | apps/rc-relay/src/relay.server.ts:148-159 | new agent, notice if a viewer is open, row marked active if both are |
| RelayServers.RelayServer.OnViewerJoin | apps/rc-relay/src/relay.server.ts:161-181 | timer cleared, new viewer, cached config sent, agent told, row marked active if both are open |
| RelayServers.RelayServer.OnAgentMessage | apps/rc-relay/src/relay.server.ts:183-198 | config cache, byte counter, activity and the current open viewer's outbox change as the machine says, nothing else |
| RelayServers.RelayServer.OnViewerMessage | apps/rc-relay/src/relay.server.ts:200-206 | input counter, activity and the current open agent's outbox change as the machine says, nothing else |
| RelayServers.RelayServer.OnAgentClose | apps/rc-relay/src/relay.server.ts:152-154 | tears the session down exactly for the current agent |
| RelayServers.RelayServer.OnViewerClose | apps/rc-relay/src/relay.server.ts:172-179 | only the current viewer's close unseats it and starts the grace timer |
| RelayServers.RelayServer.OnTimeout | apps/rc-relay/src/relay.server.ts:176-178 | the timer is no longer pending and the session is torn down |
| RelayServers.RelayServer.Sweep | apps/rc-relay/src/relay.server.ts:208-218 | a loop over all session objects in the order of their creation, which skips those not listed and deletes while it goes on, is the sweep of the machine |
| RelayServers.RelayServer.Teardown | apps/rc-relay/src/relay.server.ts:238-255 | timer cleared, both sockets hung up, unlisted, row and keys given up |
| RelayRuns.StepKeeps | apps/rc-relay/src/relay.server.ts:133-255 | every callback keeps the invariants of the relay and gives each joined viewer exactly the messages it is due |
| RelayRuns.OnTimerKeeps | apps/rc-relay/src/relay.server.ts:176-178 | a grace timer that goes off always finds its session without a viewer, so the check in the callback never fails |
| RelayRuns.InvInRuns | apps/rc-relay/src/relay.server.ts:133-255 | the invariants hold in every reachable state |
| RelayRuns.RelayedMeans | apps/rc-relay/src/relay.server.ts:183-196 | an agent message is passed on byte by byte, marked binary if it was sent so or starts like a frame |
| RelayRuns.NewestMeans | apps/rc-relay/src/relay.server.ts:183-187 | the newest config is the last message whose first byte is 1 |
| RelayStreams.HandledExactly | apps/rc-relay/src/relay.server.ts:54-61 | in every run a session has handled exactly what its sockets said, stash first, without loss or reordering |
| RelayStreams.CountersExact | apps/rc-relay/src/relay.server.ts:183-206 | in every run `bytesOut` and `inputEvents` are the sums over everything said, and the cached config is the newest one |
| RelayStreams.ViewerStream | apps/rc-relay/src/relay.server.ts:161-198 | in every run a viewer's outbox is the config cached at its join and then exactly the agent messages of the time it was the current open viewer, each once and in order |
| RelayStreams.NewestConfig | apps/rc-relay/src/relay.server.ts:186-186 | the last config a viewer got is the newest of its session while it is current; after that if and only if the newest one has not changed |
| RelayStreams.AgentTold | apps/rc-relay/src/relay.server.ts:155-170 | whenever agent and viewer are both open the agent has been told |
| RelayAgents.AgentStream | apps/rc-relay/src/relay.server.ts:155-206 | in every run the outbox of an agent is the notice of an open viewer at its join and then, step by step while it is the current open agent, the notices of the relay and exactly what the viewers of its session said, each message once, in order and with its own binary flag |
| RelayAgents.AgentInput | apps/rc-relay/src/relay.server.ts:200-206 | the notices left out, it is exactly the input handled while it was the current open agent |
| RelayAgents.StepGets | apps/rc-relay/src/relay.server.ts:200-218 | what each step sends an agent: a notice when a viewer joins its session or is jammed at a sweep, the input of its viewers, nothing once it no longer serves |
| RelayAgents.SweepNotice | apps/rc-relay/src/relay.server.ts:208-215 | a sweep tells an agent to send less exactly if more than a million bytes wait for its viewer |
| RelaySessions.StepMoves | apps/rc-relay/src/relay.server.ts:133-206 | the id, device, seats and activity of every session object after any step |
| RelaySessions.JoinMeans | apps/rc-relay/src/relay.server.ts:118-146 | a join finds the listed session of its token or lists a new one, takes its seat, and asks to mark the row active exactly if both sides are open then |
| RelaySessions.StepLog | apps/rc-relay/src/relay.server.ts:226-255 | what each callback asks of Redis and Postgres, with the counters of the session, and that an ended session has no entry, no open socket and no timer |
| RelaySessions.SweptIff | apps/rc-relay/src/relay.server.ts:208-218 | in every run a sweep takes a listed session out of the table if and only if it was created, and heard each of its messages, more than ten minutes before |
| RelaySessions.WaitsOnTimer | apps/rc-relay/src/relay.server.ts:172-179 | in every run a session that has lost its viewer has a grace timer pending until a viewer joins again or it is torn down |
| RelaySessions.RefusedStaysShut | apps/rc-relay/src/relay.server.ts:129-131 | in every run a socket that was refused is never open |
| RelayTimers.TimerSince | apps/rc-relay/src/relay.server.ts:172-179 | every pending timer was set by the close of the viewer its session has lacked ever since |
| RelayTimers.GraceKept | apps/rc-relay/src/relay.server.ts:172-179 | in every run a session torn down for want of a viewer had none for at least the whole 1500 ms |
| RelayTimers.OneTimer | apps/rc-relay/src/relay.server.ts:161-181 | in every reachable state a pending timer means no viewer, and no session has two timers |
| RelayTimers.SweepExact | apps/rc-relay/src/relay.server.ts:208-218 | one sweep leaves exactly the listed sessions not idle beyond 600 s, hangs up the others, closes their rows with their counters, and asks the agents of jammed viewers for less |
| RelayListing.UnlistedInRuns | apps/rc-relay/src/relay.server.ts:208-218 | in every run a listed session leaves the table in a step if and only if a teardown of a session with its id happens, or it is idle when swept |
| RelayListing.TeardownHits | apps/rc-relay/src/relay.server.ts:238-245 | a teardown takes another session out of the table if and only if its own has been superseded by a newer one of the same id |
| RelayListing.CallbackHits | apps/rc-relay/src/relay.server.ts:172-179 | in every run a grace timer or an agent close takes out another session if and only if its own has been superseded; a sweep takes out only idle sessions; no other callback takes out any |
| RelaySurprises.LateTimer | apps/rc-relay/src/relay.server.ts:238-245 | a run in which a late timer unlists a newer session of the same id while its viewer is connected |
| RelaySurprises.StaleViewer | apps/rc-relay/src/relay.server.ts:183-198 | a run in which a viewer that stopped being open lacks the newest config |
| AnnexB.IndexOf | tools/fake-agent/annexb.js:1-8 | the first start code from a position on, or none |
| AnnexB.SplitNals | tools/fake-agent/annexb.js:3-12 | the pieces joined are the buffer from its first start code, and each has exactly one start code, at its beginning |
| AnnexB.SplitUnique | tools/fake-agent/annexb.js:3-12 | a buffer has one such split, and splitting joined units gives the units back |
| AnnexB.UnitsUnique | tools/fake-agent/annexb.js:3-12 | two lists of units with the same bytes are equal |
| AnnexB.BuildFrames | tools/fake-agent/annexb.js:15-39 | every type 1 or 5 unit is emitted once, unchanged and in order; when it is, exactly the config before the following slice has been emitted; only config after the last slice and other units are lost |
| AnnexB.FrameMeans | tools/fake-agent/annexb.js:26-33 | a slice becomes a key frame exactly if its unit type is 5, with its bytes unchanged |
| AnnexB.Pack | tools/fake-agent/annexb.js:41-46 | fails exactly outside 0 <= pts < 2^64; otherwise the viewer's header read gives kind and pts back and the payload follows |
| Rollout.HealthProblems | packages/shared/src/rollout.ts:63-77 | the problems of a device in a fixed order |
| Rollout.HealthyIsEmpty | packages/shared/src/rollout.ts:63-77 | the list holds exactly the problems the device has; it is empty if and only if it is healthy |
| Rollout.BucketMeaning | packages/shared/src/rollout.ts:91-103 | a device is in a bucket if and only if it fits the bucket's own meaning |
| Rollout.SummarizeRollout | packages/shared/src/rollout.ts:79-120 | each bucket is the filter of the rows by that bucket, counts are lengths, the suggested target is run by some device and exceeded by none, and versions is a rearrangement of the tally of the running versions, the sorted one unless versions tie |
| Rollout.Partition | packages/shared/src/rollout.ts:10-12 | the six buckets add up to the fleet |
| Rollout.CompleteMeans | packages/shared/src/rollout.ts:114-115 | complete if and only if every row is on target, online and free of problems; 100 percent exactly then |
| Rollout.RaisingTarget | packages/shared/src/rollout.ts:41-43 | a higher target only moves a device from an updated bucket to the pending one of the same connectivity |
| Rollout.RaisingNeverFinishes | packages/shared/src/rollout.ts:41-43 | a higher target never has more devices done |
| Rollout.RecordedMeans | packages/shared/src/rollout.ts:95-100 | with distinct ids the recorded reasons are those of exactly the unhealthy devices |
| Rollout.VersionTable | packages/shared/src/rollout.ts:116 | a table with this property has each running version once with the number of its devices, and if no two of them tie it falls strictly from the highest to the lowest |
| Rollout.ConsistentIff | packages/shared/src/rollout.ts:116 | the comparator is consistent on the running versions if and only if no two different ones tie |
| Dashboard.ScoreMeans | packages/shared/src/dashboard.ts:199-200 | a device scores if and only if some reason applies to it |
| Fleet.TierOfRowMeans | packages/shared/src/dashboard.ts:84-99 | the tier of a row in terms of its fields; missing capabilities and versions count as the worst |
| Fleet.ReadyRowMeans | packages/shared/src/dashboard.ts:84-99 | a row is ready exactly with everything in place |
| Dashboard.PassesAgree | packages/shared/src/dashboard.ts:114-213 | for an offline device the second pass finds a permutation of the reasons the first pass found and dropped, so the scores agree |
| FleetSummary.Connectivity | packages/shared/src/dashboard.ts:121-138 | this part of the pass adds the device to exactly those of its lists it belongs to, and collects exactly the reasons that apply |
| FleetSummary.Permissions | packages/shared/src/dashboard.ts:141-149 | the same for the permission lists |
| FleetSummary.Stability | packages/shared/src/dashboard.ts:152-163 | the same for version, stability and session lists |
| FleetSummary.Network | packages/shared/src/dashboard.ts:168-180 | the same for network and battery lists of an online device |
| FleetSummary.Hardware | packages/shared/src/dashboard.ts:183-197 | the same for the hardware lists of an online device |
| FleetPass.Visit | packages/shared/src/dashboard.ts:114-201 | one row keeps every list, counter, tally and the attention list what the rows so far say |
| FleetPass.CountEvents | packages/shared/src/dashboard.ts:160-160 | each code counts once per device however often it was reported |
| FleetPass.SecondPass | packages/shared/src/dashboard.ts:204-213 | adds the offline devices with a score that the first pass did not list |
| FleetPass.SummarizeFleet | packages/shared/src/dashboard.ts:101-250 | one pass equals many filters: every list is the in-order filter of the rows by its own predicate, every count its length, the version and event tables are the ranked tallies of what the rows report, and attention is the ranking of all candidates cut to the limit |
| Attention.Partitions | packages/shared/src/dashboard.ts:221-233 | tiers, online and offline, and permission classes each add up to the fleet; the network lists fit into the online devices |
| Attention.SameLists | packages/shared/src/dashboard.ts:121-138 | the tier lists for OFFLINE and NOT_READY are the lists `offline` and `notReady` |
| Attention.CandidatesExact | packages/shared/src/dashboard.ts:199-213 | with distinct ids both passes list exactly the devices with a positive score, each once, with its score and reasons |
| Attention.AttentionRanking | packages/shared/src/dashboard.ts:214-248 | the ranking holds exactly those devices, sorted by score then id, and nothing cut belongs before anything shown |
| Attention.VersionTable | packages/shared/src/dashboard.ts:243-243 | each running version once with the length of its list, most frequent first, ties by first appearance, adding up to the fleet |
| Attention.EventTable | packages/shared/src/dashboard.ts:246-246 | each reported code once with its number of devices, most frequent first, ties by first appearance |
| Sorting.SortSorted | packages/shared/src/dashboard.ts:214-214 | sorting by a strict weak order sorts |
| Sorting.SortPermutes | packages/shared/src/dashboard.ts:214-214 | sorting loses and adds nothing |
| Sorting.SortStable | packages/shared/src/dashboard.ts:243-246 | entries that compare equal keep their order |
| Tally.RankedMeans | packages/shared/src/dashboard.ts:243-246 | a ranked tally has exactly the counted entries, by falling count |
| Tally.TallyOrder | packages/shared/src/dashboard.ts:243-246 | a tally lists the names in the order in which they first appear, each once |
| Tally.TallyCounts | packages/shared/src/dashboard.ts:243-246 | a tally counts each name as often as it appears |
| Tally.TiesByFirstAppearance | packages/shared/src/dashboard.ts:243-246 | in a ranked tally names with equal counts stand in the order of their first appearance |

## Left out

- Transport and drivers: MQTT, WebSocket framing, Redis and Postgres protocols, JWT checks, bcrypt, Docker, nginx and the simulators other than `annexb.js`.
- The React pages, SSO, the Headwind client, group access queries and the SQL listing and reporting endpoints.
- SHA-1: a digest is identified with its pre-image, so collisions of the hash function are not modelled.
- Numbers: a JSON number is the text it prints as; values beyond double range, and the digits `String()` writes are not modelled. `Number()` is a parameter wherever a text of the hash is read; results that need it to invert `String()` say so. `percentDone` and the limits are exact rationals.
- Database coercions: a value whose JSON type differs from its column is refused; `__proto__` and inherited property names in `capsDiff` are not special.
- Ingest: a failed write of metrics ends the handler here, while the source logs it and goes on; what the live hash holds is the same.
- One device: the ingest machine follows one device, since all keys and rows are per device. `last_seen` and `updated_at` are not part of the stores.
- A live hash that expires between two writes of one `writeLive`, and a limiter that stops between INCR and EXPIRE.
- The order of the properties of `changed`: a difference is a map.
- Heartbeat samples belong to the class and to sequences of heartbeats; the interleaved machine, which never reads them, leaves them out, and so are the deletion of old samples and of those of a removed device.
- Sample time stamps are compared as texts, and the sane time stamp of a message is an input; rounding to database precision, the agent's connection log and automatic dumps are left out.
- Probe, wake-up and infrastructure errors inside `start`: a probe answers or does not, which is one parameter. Token contents other than session and operator are left out; lock expiry is a step of `session_ends.dfy` only.
- Relay: one clock reading per callback, load reports, log lines and event-loop lag; `bufferedAmount` is an input of the sweep; a failed audience, node or replay check is one rejection step. The history of handled messages is kept in the model only.
- Dashboard: lists are keyed by a datatype instead of their names (`tier:`, `ver:` and fixed names, which differ in text). Counts that are just the length of a list are read off the list. `maxAttention` is not negative. `localeCompare` is a parameter, any strict weak order.
- Dashboard, attention: the exactness of the candidates is stated for distinct device ids, which is what the primary key gives.
- Rollout: while two different texts are the same version the comparator is inconsistent, and the order of the version table is left to the engine's sort; no contract speaks about it then. `isValidVersion` and `isRolloutBucket` would only be easy members.
- `briefOf`, `deepMerge` and the field whitelists of `conn.ts` would only be easy members.
- IngestCache.CachedRefinesNaive: for records of the shape the columns hold, because the statement is false for every other accepted record (IngestCache.NotPlainDiverges).
- IngestLog.LogReplaysIff: for runs without failed handlers and without records that have a property named `initial`; a handler that fails between upsert and log insert loses its entry.
- Capabilities.Writable: accepts a text with NUL or a lone surrogate, which Postgres refuses in text and jsonb columns; a record with one is not stored.
- FactoryReset.ResetSticks: not for starts that have read a row without blockers before the flag was set, because each of these inserts in some run (FactoryReset.BarredIff).
- SessionLock.OneHolder: for concurrent `start` calls alone; with closes, teardowns and expiry it holds under the condition of SessionEnds.ExclusiveIff.
- RelayServers.RelayServer.Sweep: loops over the list of all session objects and skips the unlisted ones, where the source iterates its map while deleting from it; the map keeps the order of insertion, which is that of creation.
- SessionRows.RowsMoveForward: from the return of `start` on, because a close before that can be undone (SessionRows.CloseDuringStart); the removal of a device, which deletes its session rows, is no step there.
