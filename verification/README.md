# Verification of the vote pipeline

A Dafny model of the path a consensus vote takes through cmt-top, with proofs of what that path keeps.
`dafny verify dfyconfig.toml` checks all of it.

Votes enter a bounded evidence archive and a threshold detector; reports built from the archive are cached;
patches and snapshots reach the browser over an ordered stream; the browser folds them into a page. The
model has five parts:

- **Archive and detector** (`internal/divergence`). `TrackerTypes` holds the records, `Archive`, `Detector`
  and `Tracker` give every locked entry point as a step on the tracker's value, and `TrackerMachine` is the
  tracker as an object whose methods, with the source's loops, take exactly those steps. `Evidence`,
  `Incidents` and `Provenance` say what each call changes; `TrackerRuns`, `Oracle`, `Truncation`, `Redelivery`,
  `Conservation`, `Coverage`, `Admission`, `Advanced` and `Rosters` prove laws of whole runs: any sequence of calls
  at any clock readings. `Snapshot`, `SnapshotLaws`, `ReportLaws` and `HeaderLaws` do the same for the report built
  from the archive.
- **Report cache** (`internal/web/rounds_cache.go`, `rounds_compact.go`). `RoundsCache` models the locked
  sections, `CacheViews` what a record shows for a version of the archive and how variant keys are spelled,
  `CacheRuns` every interleaving of callers with each other and with the tracker, `Coalescing` one of them in
  which a cached answer is ahead of its version, `Freshness` how old a hit may be and how long a record stays,
  `CompactLaws` what a compact report selects and sums up.
- **Stream** (`ws_queue.go`, `ws_wire.go`, `ws.go`, `ws.ts`). `WsQueue` and `WsWire` are the server's side,
  `WsBrowser` the client's, `QueueLaws` and `BrowserLaws` what each of them does with one frame, `StreamRuns` both
  ends and a channel between them, `ResyncHub` the gathering of repair requests.
- **Consensus context and its browser twin** (`transitions.go`, `orchestrator.go`, `stores.ts`). `Consensus`
  and `ConsensusMachine` are the server, `Cells` what each input does to its votes and its context, `Simulation` the browser's reducer and its agreement with the
  server, `Replay` the absorption of events a snapshot already reflects.
- **Poller** (`poll.ts`), in `Poller` and `PollerLaws`.

`Common` and `Decimal` are shared vocabulary.

How to read it: a class method's contract equates the object's new value with a step function of its old
value; the laws are lemmas about those step functions, for all inputs, all runs or all reachable states. A
locked section is one step; time is a number handed to each step; iteration over a map picks any remaining
key. Hypotheses are stated where they are used: voting powers are nonnegative (`Conservation.Weighted`), a
simulated run has a fixed roster of distinct addresses, known voters and recognised steps
(`Simulation.Recognised`), and `Replay.OneProposerEach` marks the laws that need one proposer per height and round.

Some promises do not hold as they are usually put. In each case the code is kept as it is, a lemma shows an
input, and the exact condition is proved:

- A vote delivered again can be recorded after all: a vote left out while 64 unknown voters filled its round is
  taken once a roster lists its validator (`Redelivery.RedeliveryCanBeRecorded`). It changes nothing exactly when
  the round is gone or accounts for it, and always while the round is not marked truncated
  (`Redelivery.DuplicateVoteChangesNothing`, `Redelivery.DuplicateIngestChangesNothing`).
- Marking a round as advanced does not keep later votes from triggering when none of its votes was counted before
  (`Advanced.MarkedRoundTriggers`); `Advanced.MarkIsLostExactly` says when a trigger is still possible.
- `missingRounds` is not always the number of rounds never observed: a round first noticed after the commit,
  or at or below the eviction watermark, counts as missing (`Coverage.MissingIsNotAlwaysExact`,
  `Coverage.MissingIsExactUnlessRefused`).
- A compact report calls a round evicted that nobody ever observed, if it lies below the first retained round of a
  height that evicted some (`CacheViews.UnseenRoundIsCalledEvicted`, `CacheViews.SelectionIsHonest`).
- A coalesced cache answer may show a round the version beside it does not have, because the version is read
  before the cache lock (`Coalescing.CoalescedHitMayBeNewer`, `CacheRuns.HitMatchesTracker`).
- A request for a repair snapshot is forgotten when the snapshot cannot be prepared
  (`ResyncHub.RequestCanBeLost`, `ResyncHub.RequestIsLostExactly`); the browser's own timeout is what is left then.
- The browser does not follow the server for a voter it does not list, for a block at a committed height that
  is missing from the history, or after an unrecognised step (`Simulation.UnknownVoterIsNotFollowed` and its
  neighbours, `Simulation.StepFollowsExactly`).
- With two proposers announced for one round, a replay is not absorbed (`Replay.SecondProposerIsNotAbsorbed`);
  `Replay.ReplayIsAbsorbedExactly` decides it for any replay.
- An invalidation of the poller is not always followed by a refresh: one that aborts a request begun between the
  release of the slot and the resumption of polling is forgotten (`PollerLaws.RefreshCanBeForgotten`,
  `PollerLaws.RefreshIsOwedExactly`).
- The exported `cancel` of the poller can stop polling for good (`Poller.CancelCanStall`,
  `Poller.CancelStallsExactly`, `Poller.StallLasts`).

## Model

| member | source | states |
|---|---|---|
| `TrackerMachine.LiveTracker.constructor` | internal/divergence/tracker.go:78-87 | A new tracker is empty, replaces a nonpositive history size by 32, and satisfies the archive invariant. |
| `TrackerMachine.LiveTracker.CreateArchiveHeightLocked` | internal/divergence/archive.go:239-266 | Creates a height above the eviction watermark, evicts the lowest retained one when the history is full, and prunes the detector with it. |
| `TrackerMachine.LiveTracker.ArchiveHeightLocked` | internal/divergence/archive.go:224-237 | Finds a height or creates it, except at or below the committed height. |
| `TrackerMachine.LiveTracker.ArchiveRoundLocked` | internal/divergence/archive.go:268-306 | Finds a round or creates it with the default roster; a committed block creates none; the 129th round evicts the lowest (`Rosters.RoundKeepsFirstRoster`, `Admission.RoundLimitExactly`). |
| `TrackerMachine.LiveTracker.PruneDetectorRoundsLocked` | internal/divergence/archive.go:467-474 | Keeps exactly the detector records whose round is still archived. |
| `TrackerMachine.LiveTracker.ObserveRound` | internal/divergence/archive.go:130-150 | Observing a round retains it without votes; a new nonempty proposer is stored and moves the revision. |
| `TrackerMachine.LiveTracker.RecordLocked` | internal/divergence/archive.go:174-221 | One vote in one round: the cap of 64 unknown voters, the search for the hash, the limit of four hashes, and when the revision moves. |
| `TrackerMachine.LiveTracker.ObserveVoteLocked` | internal/divergence/archive.go:161-222 | A vote observation takes the tracker to the value of the step function and keeps the archive invariant. |
| `TrackerMachine.LiveTracker.ArchiveCommitLocked` | internal/divergence/archive.go:308-321 | A commit is recorded once; an empty canonical hash may still be filled in. |
| `TrackerMachine.LiveTracker.SetValidators` | internal/divergence/tracker.go:91-135 | Replaces the default roster, reweighs open records without one, and backfills archived rounds without one. |
| `TrackerMachine.LiveTracker.IngestVote` | internal/divergence/tracker.go:140-209 | Archives the vote, rejects what the archive refused or what is committed, counts a first vote, and decides on the trigger (`Incidents.TriggersExactly`, `Incidents.IngestCountsFirstVotes`). |
| `TrackerMachine.LiveTracker.MarkRoundAdvanced` | internal/divergence/tracker.go:214-222 | Marks both phases' records of a round, where they exist. |
| `TrackerMachine.LiveTracker.ResolveCommit` | internal/divergence/tracker.go:229-275 | Archives the commit, advances the committed height, closes and reports the open records of the height in order, closes older ones silently, trims history and records (`Incidents.CommitResolves`). |
| `TrackerMachine.LiveTracker.CurrentReport` | internal/divergence/tracker.go:278-308 | Lists exactly the unresolved records in height, round and phase order, and the last divergent reports of the history. |
| `TrackerMachine.Report` | internal/divergence/tracker.go:312-365 | The loop over groups, the sort and the scan compute the report function. |
| `TrackerMachine.Scan` | internal/divergence/tracker.go:338-352 | The scan with its leader flag finds a heavy named group behind another named one. |
| `TrackerMachine.ReseedRecord` | internal/divergence/tracker.go:103-119 | The late-roster loop over groups and members computes the reweighed record. |
| `TrackerMachine.BackfillBlock` | internal/divergence/tracker.go:121-133 | The roster loop over archived rounds fills those without a roster and counts one revision each. |
| `TrackerMachine.LiveViewIsAboveCommitted` | internal/divergence/tracker.go:239-256 | In every reachable state the live view shows only rounds above the committed height. |
| `TrackerMachine.LiveListsOpenRecords` | internal/divergence/tracker.go:278-295 | The live listing has one report for each open record, by height, round and phase, with a row per group, heaviest first, and none marked canonical. |
| `TrackerMachine.DivergentPicks` | internal/divergence/tracker.go:297-306 | The divergent view picks exactly the divergent reports of the history, in order. |
| `Incidents.TriggersExactly` | internal/divergence/tracker.go:195-208 | A call triggers an incident if and only if it counts a first vote of a phase that may trigger, the record is neither advanced nor detected, more than two thirds of a positive total precommitted or, with prevotes included, the whole total voted, and two named hashes are over the threshold. |
| `Incidents.IngestCountsFirstVotes` | internal/divergence/tracker.go:140-193 | An admitted first vote joins the record of its key with its roster power and name, a voter counted before changes no record, a refused vote gets no report, and the report handed out is that of the record as it is left. |
| `Incidents.MarksBothPhases` | internal/divergence/tracker.go:214-222 | Marking a round marks the records of both its phases, where they exist, and touches nothing else. |
| `Incidents.CommitResolves` | internal/divergence/tracker.go:229-275 | A commit reports exactly the open records of its height, in order, each resolved with its hash and with exactly the row of that hash canonical; open records below are resolved without a hash, records below the cutoff or without their round are forgotten, others stay; the history keeps its newest 4 times HistorySize reports. |
| `Rosters.RosterListsLast` | internal/divergence/tracker.go:91-97 | The roster knows exactly the listed addresses, each as it was listed last. |
| `Rosters.TotalIsRosterPower` | internal/divergence/tracker.go:93-97 | Listed without repetition, the powers of the roster add up to the total. |
| `Rosters.SomeCallStarted` | internal/divergence/archive.go:268-292 | Every retained round was started by a call of the run. |
| `Rosters.RoundKeepsFirstRoster` | internal/divergence/archive.go:278-282 | In every run a retained round has the roster of the last SetValidators before the call that started it or, if that was empty or missing, the first nonempty one after; it was first seen at the clock of that call. |
| `Rosters.RosterStays` | internal/divergence/tracker.go:121-133 | A round that has a roster keeps it as long as it is retained. |
| `Rosters.RecordKeepsFirstWeights` | internal/divergence/tracker.go:101-120 | In every run a tracked record weighs votes by the last roster before the call that started it or, if its total was 0, by the first one with another total after. |
| `Rosters.GroupsListCountedVotes` | internal/divergence/tracker.go:172-193 | In every run the group of a hash lists exactly the validators of which some call counted a first vote for that hash. |
| `Rosters.GroupsShowFirstNames` | internal/divergence/tracker.go:107-116 | In every reachable state a group shows the first five names of its voters that have one, in voting order. |
| `Tracker.StepEvolves` | internal/divergence/archive.go:130-321 | Every entry point keeps the archive invariant, never revives a dead context, and moves evidence and catalogue revisions exactly with what they stand for. |
| `TrackerRuns.RunIsLater` | internal/divergence/archive.go:224-306 | Along any run, watermarks and revisions only grow and equal revisions mean equal contents. |
| `TrackerRuns.NoResurrection` | internal/divergence/archive.go:224-306 | A height or round that was retained and is gone is not retained at any later moment of the run. |
| `TrackerRuns.WatermarksGrow` | internal/divergence/archive.go:259-303 | Both kinds of eviction watermark and the committed height never decrease. |
| `TrackerRuns.JointBounds` | internal/divergence/archive.go:467-474 | In every reachable state: at most HistorySize heights above their watermark, at most 128 rounds above theirs, every detector key archived, at most 256 times HistorySize records. |
| `TrackerRuns.StepRevisesExactly` | internal/divergence/archive.go:161-321 | While a height stays retained, one step moves its evidence revision if and only if it changes its evidence; likewise the catalogue. |
| `Redelivery.DuplicateVoteChangesNothing` | internal/divergence/archive.go:152-221 | A vote delivered anywhere in the run and delivered again later, with anything in between, changes nothing if and only if its round is no longer retained, holds its hash, caps its voter, or marked its full list truncated; a round not marked truncated always accounts for it. |
| `Redelivery.DuplicateIngestChangesNothing` | internal/divergence/tracker.go:140-175 | Ingesting an ingested vote again leaves the whole tracker as it is and triggers nothing if and only if the archive accounts for it and, where it could still be counted, its validator was; so always while the round is gone or not marked truncated. |
| `Redelivery.RedeliveryCanBeRecorded` | internal/divergence/archive.go:174-190 | A concrete run: 64 unknown voters fill a round, the 65th is left out, the roster arrives and lists it, and the same vote delivered again moves the evidence. |
| `TrackerRuns.OneIncidentPerKey` | internal/divergence/tracker.go:195-208 | Over a whole run, across pruning, eviction and cutoff, a height, round and phase triggers at most one incident. |
| `TrackerRuns.TriggerSpends` | internal/divergence/tracker.go:140-209 | A trigger comes with a divergent report, above the committed height, for a key not spent before and spent now. |
| `TrackerRuns.AdvancedRecordStaysSilent` | internal/divergence/tracker.go:211-222 | A record marked as advanced never triggers again in any continuation of the run. |
| `Advanced.MarkIsLostExactly` | internal/divergence/tracker.go:211-222 | After MarkRoundAdvanced some continuation still triggers for a phase of the round if and only if nothing of it was counted before, the height is not committed, the archive still has room for the round, and the configuration lets the phase trigger at a threshold of at most one half. |
| `Advanced.MarkedRoundTriggers` | internal/divergence/tracker.go:217-221 | A concrete run: two validators of equal power, the round marked before any vote, then two different precommits, the second of which triggers. |
| `Admission.RoomExactly` | internal/divergence/archive.go:224-306 | A round is retained at the end of some continuation of a run if and only if it is retained now, or is admissible and would not itself be the least of a full height or archive. |
| `Admission.VoteIsTakenExactly` | internal/divergence/archive.go:161-173 | Where there is room for its round, a vote has it retained exactly when its height is positive, its round fits 32 bits, its phase is known, and its identities have at most 128 characters and name a validator. |
| `Admission.RoundIsTakenExactly` | internal/divergence/archive.go:130-144 | Likewise an announced round, whose proposer may have 128 characters. |
| `Admission.LeftOutExactly` | internal/divergence/archive.go:175-212 | A vote's hash is missing from its round afterwards exactly when it was missing before and its validator is a stranger to a round with 64 of them, or has four hashes in this phase. |
| `Admission.RoundLimitExactly` | internal/divergence/archive.go:283-304 | A height keeps up to 128 rounds; the next one sends the least of them away and moves the watermark to it. |
| `Oracle.ArchiveRefinesOracle` | internal/testutil/replay/oracle.go:35-86 | In every reachable state a retained round not marked truncated holds exactly the hashes ever observed, a truncated one at most four of them; conflict means two held hashes; proposer, commit flag and canonical hash are those of the history. |
| `Oracle.StepRefinesRounds` | internal/divergence/archive.go:161-222 | Every step keeps each retained round equal to the unbounded history, or below it when truncated. |
| `Truncation.TruncatedExactly` | internal/divergence/archive.go:174-211 | A retained round is marked truncated if and only if some call of the run observed a vote for it and left its hash out. |
| `Oracle.StepRefinesCommits` | internal/divergence/archive.go:308-321 | Every step keeps commit flag and canonical hash those of the history of commits. |
| `Evidence.RecordRevises` | internal/divergence/archive.go:174-221 | Recording a vote moves the revision exactly when it changes the block. |
| `Evidence.RecordInRoundOk` | internal/divergence/archive.go:174-221 | Recording keeps a round's votes distinct, at most four per phase, the conflict flag exact and unknown voters capped. |
| `Provenance.StepFollows` | internal/divergence/archive.go:161-221 | Every call takes each retained round from what it was, or from a blank one with the default roster: a listing grows only by the observed vote, stamped with the clock of the call and the time it was signed; an empty roster takes the one of a SetValidators; the round is last seen now exactly when a listing or the proposer changed. |
| `Provenance.StepStampsBlocks` | internal/divergence/archive.go:246-321 | A block is first seen when it is created and last seen exactly when a round was added or a listing, a proposer or the commit changed. |
| `Provenance.HashesAreStamped` | internal/divergence/archive.go:199-218 | In every run a retained round lists the hashes of a validator and phase in the order of the calls that delivered them, each with the clock and the signing time of its call; unless the round is marked truncated these calls are the first that observed each hash. |
| `Detector.AddVoteKeepsOk` | internal/divergence/tracker.go:172-193 | Counting a first vote keeps the groups a partition of the voters and every power equal to the summed weights. |
| `Detector.ReweighKeepsOk` | internal/divergence/tracker.go:101-120 | Late roster seeding re-establishes the same conservation. |
| `Conservation.VotedPowerIsConserved` | internal/divergence/tracker.go:159-193 | In every reachable state groups partition the voters, group powers and voter weights both add up to the voted power, and it never exceeds the total. |
| `Detector.HeavyMeans` | internal/divergence/tracker.go:315-348 | The percentage test is the cross-multiplied comparison, over the reals. |
| `Detector.VerdictIsSplit` | internal/divergence/tracker.go:336-352 | A report is divergent if and only if two different named groups each have positive power over the threshold. |
| `Detector.VerdictIsSecondLargest` | internal/divergence/tracker.go:329-352 | Equivalently, the second-largest named group has. |
| `Detector.VerdictFromFirstVotes` | internal/divergence/tracker.go:172-195 | The verdict is a function of each voter's first vote and the roster. |
| `Detector.VerdictIsOrderFree` | internal/divergence/tracker.go:172-195 | Two streams in which every voter's first vote is the same reach the same verdict. |
| `Detector.VerdictIsMonotone` | internal/divergence/tracker.go:172-195 | A further vote never withdraws a divergent verdict. |
| `Detector.SeedingKeepsVerdict` | internal/divergence/tracker.go:101-120 | A divergent record already has its roster, so late seeding leaves it alone. |
| `Conservation.DivergenceIsForever` | internal/divergence/tracker.go:140-256 | Over whole runs, once a tracked key is divergent every later report on it is. |
| `Coverage.CoverageCountsAdmitted` | internal/divergence/archive.go:285-304 | roundsObserved counts the rounds admitted in the run and equals retained plus evicted; the retained are those above the watermark; MissingRounds counts the rest of 0..lastRound and is never negative. |
| `Coverage.MissingIsExactUnlessRefused` | internal/divergence/archive.go:355-364 | MissingRounds is the number of rounds never observed plus those observed only when refused; it is exact if and only if no round up to lastRound was refused. |
| `Coverage.MissingIsNotAlwaysExact` | internal/divergence/archive.go:275-277 | A concrete run, a late round after the commit, in which MissingRounds counts an observed round. |
| `Coverage.LateRoundIsRefused` | internal/divergence/archive.go:275-277 | Any round first noticed after the commit of its height is observed and yet refused. |
| `Snapshot.Header` | internal/divergence/archive.go:329-366 | The header loop and branches compute status, coverage and the ascending catalogue of heights. |
| `Snapshot.SnapshotRound` | internal/divergence/archive.go:368-396 | The loop over roster and voters computes the sorted rows, the total power and roster completeness. |
| `Snapshot.SnapshotPhase` | internal/divergence/archive.go:415-463 | The phase loop and sort compute the phase function. |
| `Snapshot.Build` | internal/divergence/archive_snapshot.go:68-83 | Building from captured evidence computes the full report of that state. |
| `SnapshotLaws.PhasePowerIsTotal` | internal/divergence/archive.go:419-450 | Observed plus not-observed power equals the round's total voting power; observed power is that of the voters. |
| `SnapshotLaws.GroupPowerIsObservedPlusConflicts` | internal/divergence/archive.go:439-452 | Group powers add up to the observed power plus, for each conflicting voter, its power once per further hash. |
| `SnapshotLaws.GroupsListTheirHolders` | internal/divergence/archive.go:439-462 | A listed group names exactly the holders of its hash in address order, with their summed power, and is canonical exactly as committed. |
| `SnapshotLaws.EveryHashHasAGroup` | internal/divergence/archive.go:439-454 | Every hash a validator signed has a listed group that names it. |
| `SnapshotLaws.AbsentAndConflictingAreListed` | internal/divergence/archive.go:429-438 | The absent and the conflicting validators are listed exactly, in address order. |
| `ReportLaws.ReportConservesPower` | internal/divergence/archive.go:368-463 | In every report of a reachable tracker, for each round and phase: observed and not-observed power add up to the total, and the listed groups add up to the observed power plus each conflicting power once per further hash. |
| `ReportLaws.ReportListsVoters` | internal/divergence/archive.go:419-462 | In every report of a reachable tracker: each group lists exactly the holders of its hash with their summed power, every signed hash has a group, and absent and conflicting validators are listed exactly, all in address order. |
| `HeaderLaws.StatusExactly` | internal/divergence/archive.go:342-352 | In every reachable state a height is committed exactly if its commit was seen, else passed exactly if a greater height is retained or one at least as great was committed, else live; without evidence it is evicted exactly up to the watermark, else not observed. |
| `HeaderLaws.LostIsEvicted` | internal/divergence/archive.go:343-347 | A height that was retained and is not any more is reported as evicted from then on. |
| `HeaderLaws.ReportShowsBlock` | internal/divergence/archive.go:329-396 | In every reachable state the full report of a retained height shows its block: commit, coverage, timestamps, retained heights, and every retained round in order with its proposer, marks, roster power and one row per validator in address order. |
| `HeaderLaws.GroupsHeaviestFirst` | internal/divergence/archive.go:455-461 | The groups of a phase are listed heaviest first, equal ones by hash. |
| `HeaderLaws.ConfigStays` | internal/divergence/tracker.go:78-87 | Every reachable tracker has the configuration it was made with; a history size below 1 counts as 32. |
| `SnapshotLaws.EqualRevisionsEqualReports` | internal/divergence/archive_snapshot.go:8-27 | At two moments of a run, equal evidence and catalogue revisions of a height mean equal full reports. |
| `RoundsCache.ReportCache.LookupLocked` | internal/web/rounds_cache.go:96-128 | The first locked section of get: drop what is not found, serve what is current or may coalesce, join a flight or open one (`Freshness.LookupExactly`, `Freshness.HitsExactly`). |
| `RoundsCache.ReportCache.PublishLocked` | internal/web/rounds_cache.go:134-146 | The second locked section of get: list a built record that fits, trim, end the flight. |
| `RoundsCache.ReportCache.RemoveLocked` | internal/web/rounds_cache.go:156-163 | Removal takes the record's charge back. |
| `RoundsCache.ReportCache.TrimLocked` | internal/web/rounds_cache.go:164-175 | Trimming ends within all bounds, removes least recently used records only, and stops as soon as it may. |
| `RoundsCache.ReportCache.VariantLookupLocked` | internal/web/rounds_compact.go:159-175 | The first locked section of encoded: serve a stored variant, join its flight or open one. |
| `RoundsCache.ReportCache.EncodedLocked` | internal/web/rounds_compact.go:187-206 | The second locked section of encoded: store under the variant limit in a record still cached, charge it, trim, end the flight. |
| `RoundsCache.OverBudgetHasEntries` | internal/web/rounds_cache.go:164-175 | Over budget there is a cached record: without exact accounting the trim loop would turn forever on an empty cache. |
| `RoundsCache.PublishKeepsOk` | internal/web/rounds_cache.go:134-146 | Publication keeps the accounting and all bounds. |
| `RoundsCache.EncodeKeepsOk` | internal/web/rounds_compact.go:187-206 | Storing a variant keeps the accounting, the disjointness of variants and flights, and all bounds. |
| `CacheRuns.OneBuildPerHeight` | internal/web/rounds_cache.go:117-146 | In every history at most one caller builds a height at a time. |
| `CacheRuns.CacheStaysBounded` | internal/web/rounds_cache.go:134-175 | In every history the charges add up exactly and the 64 MiB, 32-entry and 8-variant bounds hold after each locked section. |
| `CacheRuns.HitMatchesTracker` | internal/web/rounds_cache.go:107-116 | A hit with equal revision shows what a fresh build shows at the version's moment; a coalesced one agrees on commit and canonical hash, and shows only retained rounds if and only if it observed no more rounds than the version. |
| `Freshness.LookupExactly` | internal/web/rounds_cache.go:86-127 | A lookup unlists a height that was not found, hits exactly when the listed record has the version's evidence or, where coalescing is allowed, the same boundary and an age under 250 ms, and otherwise joins the open flight or opens one. |
| `Freshness.HitsExactly` | internal/web/rounds_cache.go:86-117 | In every history a listed record is handed out exactly when the version found the height with its evidence or, where coalescing is allowed, with the same boundary and less than 250 ms after the clock of the get that built the record. |
| `Freshness.RecordsRemember` | internal/web/rounds_cache.go:78-117 | In every history each record was built by one get, which it remembers with its clock, its capture and a charge of three bytes per encoded byte, and its last use is the clock of the last get that built it or handed it out. |
| `Freshness.PublishExactly` | internal/web/rounds_cache.go:132-175 | A fit record takes the place of the one listed for its height, stays listed if it was used last, and sends nothing away if everything fits 64 MiB and 32 records; any other outcome leaves the listing alone; the flight ends. |
| `Freshness.VariantsExactly` | internal/web/rounds_compact.go:160-178 | A variant is answered from the store exactly when it is stored under its key, joins the encoding of that key if one is under way, and begins it if not. |
| `Freshness.EncodeExactly` | internal/web/rounds_compact.go:190-211 | A finished encoding is stored in a cached record beside its other variants, or alone if there were eight; a failed one, or one for a record that left the cache, is not; the flight ends. |
| `CacheViews.EqualEvidenceIsFresh` | internal/web/rounds_cache.go:177-184 | withCatalogue on a record of equal evidence revision equals a fresh capture and build in the version's state, whichever was read first. |
| `CacheViews.CoalescedRounds` | internal/web/rounds_cache.go:86-90 | With equally many evicted rounds, a record captured no later than the version shows only retained rounds, and one captured later shows all of them and perhaps newer ones. |
| `Coalescing.CoalescedHitMayBeNewer` | internal/web/rounds_cache.go:96-116 | A concrete history of five acts in which a get hits: it is given a record of another evidence revision that shows a round the version beside it does not have. |
| `CacheViews.BuiltAnswerShowsRetained` | internal/web/rounds_cache.go:130-153 | What get returns after building shows only rounds retained at the version beside it. |
| `CacheViews.LostHeightStaysLost` | internal/web/rounds_cache.go:133-152 | If the capture of a found height finds nothing, the later version finds nothing either, so get never returns a missing report for a found version. |
| `CacheViews.SameKeySameBody` | internal/web/rounds_compact.go:146-156 | Two requests on one record with the same variant key have the same body. |
| `CacheRuns.StoredVariantIsFresh` | internal/web/rounds_compact.go:157-162 | In every history a stored variant is the body the request would be encoded to afresh. |
| `CacheViews.CompactKeysDiffer` | internal/web/rounds_compact.go:146-153 | Compact keys of one record are equal only for the same catalogue and selection. |
| `CacheViews.CompactIsNotFull` | internal/web/rounds_compact.go:146-156 | A compact key is never a full key, whatever the epoch. |
| `CacheViews.SelectionIsHonest` | internal/web/rounds_compact.go:115-131 | A compact report says available exactly for retained rounds; evicted exactly for admitted rounds that are gone and for rounds below the first retained one of a height that evicted some; not observed for the rest; `CompactLaws.CompactShowsRetained` says what the whole report selects and details. |
| `CompactLaws.CompactExactly` | internal/web/rounds_compact.go:111-144 | For any report with its rounds in order a compact report sums up every round, selects the newest shown round or the requested one if it is shown, likewise compares, details exactly those without repetition, and gives a reason for what it does not show. |
| `CompactLaws.CompactShowsRetained` | internal/web/rounds_compact.go:111-144 | For a record and a version of a run it selects the greatest round retained at the capture, or the requested one exactly if it was retained; of the others it says what the selection law decides. |
| `CompactLaws.RoundsSummedUp` | internal/web/rounds_compact.go:43-56 | Each summary carries its round's number, proposer, timestamps, power and marks, and per phase its groups with their numbers of validators and its own counts. |
| `CacheViews.UnseenRoundIsCalledEvicted` | internal/web/rounds_compact.go:127-129 | A concrete run of 129 rounds after which a round nobody observed is called evicted. |
| `WsQueue.WsClient.QueueLocked` | internal/web/ws_queue.go:28-81 | Early rejection, supersession of an adjacent snapshot at its own number, numbering, the drop loop, the append and the wake-up. |
| `WsQueue.WsClient.DropLocked` | internal/web/ws_queue.go:56-72 | The drop loop ends, never looks at an empty queue, and counts each frame it drops. |
| `WsQueue.WsClient.DequeueLocked` | internal/web/ws_queue.go:90-101 | The oldest frame leaves and a calm queue forgets its overload. |
| `WsQueue.WsClient.SignalClose` | internal/web/ws.go:414-426 | Closing empties the queue once. |
| `WsQueue.OfferKeepsOk` | internal/web/ws_queue.go:28-81 | Every offer keeps the byte accounting, the 4 MiB and length bounds and strictly increasing numbers. |
| `WsQueue.EmptyFits` | internal/web/ws_queue.go:56-60 | With nothing pending any admissible frame fits, so indexing the first pending frame is safe. |
| `QueueLaws.OfferExactly` | internal/web/ws_queue.go:28-81 | A frame is rejected exactly when the queue is closed, the frame is over 4 MiB or the oldest one has waited over two seconds; takes the place of an adjacent snapshot of its kind that is not the first frame; else takes the next number and is appended exactly when it fits, at once or after dropping as few of the oldest frames as possible, which the baseline in front or two seconds of overload forbid. |
| `QueueLaws.DropExactly` | internal/web/ws_queue.go:56-72 | The drop loop succeeds exactly when the frame fits at once or frames may be dropped, and then has dropped as few as needed. |
| `QueueLaws.TakeExactly` | internal/web/ws_queue.go:90-101 | The oldest frame leaves an open queue, and the mark of overload once fewer than 128 frames and less than 2 MiB are left. |
| `WsWire.WriteTo` | internal/web/ws_wire.go:42-59 | Against any writer the bytes emitted are a prefix of the frame, success means all of it, and they never exceed the charge. |
| `WsWire.ChargeCoversFrame` | internal/web/ws_wire.go:15-41 | The charge covers the frame for every uint64 sequence number, with four bytes to spare. |
| `WsWire.FrameTellsSequence` | internal/web/ws_wire.go:42-49 | Two frames of one prepared message are equal only when their sequence numbers are. |
| `WsBrowser.StreamClient.HandleMessage` | web/src/lib/ws.ts:127-193 | The message handler: malformed numbers, baselines, stale frames, gaps, foreign epochs, pongs and delivery. |
| `WsBrowser.StreamClient.RequestRepairNow` | web/src/lib/ws.ts:63-70 | A repair is requested once, on an open socket only, and arms the baseline timeout. |
| `WsBrowser.StreamClient.ApplyProfileNow` | web/src/lib/ws.ts:71-90 | Switching profiles sends the commands of the target; returning to the dashboard asks for a repair. |
| `WsBrowser.StreamClient.ChangeProfile` | web/src/lib/ws.ts:222-247 | Changing the profile hides, restores or renegotiates the stream. |
| `WsBrowser.OnMessageKeepsOk` | web/src/lib/ws.ts:127-193 | Every message keeps the consumed frames contiguous from a valid baseline whenever the browser is in sync. |
| `BrowserLaws.MessagesExactly` | web/src/lib/ws.ts:127-193 | The next patch is consumed, and shown unless it is a pong, the page is hidden or the barrier is up; a valid baseline starts the log over; everything else leaves the log alone, and an impossible number, a gap or a context of another server asks for a repair. |
| `BrowserLaws.LogHasOneEpoch` | web/src/lib/ws.ts:141-189 | In every run a browser in sync has the epoch and the capabilities of the baseline its log starts with, and its log has no other baseline and no context snapshot of another epoch. |
| `BrowserLaws.ProfileIsNegotiated` | web/src/lib/ws.ts:71-90 | An open browser in sync whose profile is not the wanted one sends exactly the commands of the switch, raises the barrier for the context, and has a repair outstanding for the dashboard; any other sends nothing. |
| `BrowserLaws.SwitchSubscribes` | web/src/lib/ws.ts:76-88 | The commands of a switch take the server from one profile's channels to the other's, never through none at all. |
| `BrowserLaws.ServerListensToProfile` | web/src/lib/ws.ts:71-90 | In every run the commands a connection has sent take a server that starts it on the dashboard to exactly the channels of the applied profile. |
| `BrowserLaws.ProfileChangesExactly` | web/src/lib/ws.ts:222-247 | A change of profile keeps the log, applies what is wanted on an open socket in sync, and asks for a repair when an open page is shown again. |
| `BrowserLaws.RefreshAsksRepair` | web/src/lib/ws.ts:248-262 | A refresh of a visible, open browser has a repair outstanding; any other changes nothing. |
| `StreamRuns.StreamConverges` | web/src/lib/ws.ts:141-193 | In every run of queue, channel and browser, whenever the browser is in sync it consumed one frame per number since its baseline, in order, each the last message the server put under that number. |
| `StreamRuns.DashboardSeesEverything` | web/src/lib/ws.ts:187-193 | An open, synced dashboard connection has handed its handlers all of these but the pongs, through every change of profile. |
| `StreamRuns.QuietStreamIsCurrent` | internal/web/ws_queue.go:53-80 | When queue and channel are empty and nothing failed, a synced browser has reached the server's own sequence. |
| `StreamRuns.FirstFrameIsBaseline` | internal/web/ws.go:144-173 | The first frame of every connection is the state snapshot numbered 1. |
| `StreamRuns.OutOfSyncIsBeingRepaired` | web/src/lib/ws.ts:56-70 | An open browser out of sync waits for its first frame or has a repair outstanding, and a timer bounds the wait. |
| `StreamRuns.NoLostWakeup` | internal/web/ws_queue.go:76-79 | The writer never waits on a nonempty queue without a wake-up pending. |
| `StreamRuns.QueueStaysBounded` | internal/web/ws_queue.go:28-101 | In every run the queue's accounting is exact and its bounds hold. |
| `ResyncHub.ResyncQueue.Ask` | internal/web/ws.go:342-361 | A repair request joins the pending set and arms the timer if none is armed. |
| `ResyncHub.ResyncQueue.TimerFires` | internal/web/ws.go:362-391 | A flush takes all requests first and then answers each of them once, or nobody when the snapshot cannot be prepared. |
| `ResyncHub.RequestIsBounded` | internal/web/ws.go:342-361 | Every pending request has a timer armed, due within the coalescing period of its request. |
| `ResyncHub.TimerIsArmedOnce` | internal/web/ws.go:349-360 | The timer is armed for ten milliseconds later or a quarter of a second after the last flush, whichever is later; an armed timer is not moved and a repeated request keeps its place. |
| `ResyncHub.FlushTakesAll` | internal/web/ws.go:362-391 | A timer that fires takes all requests and notes the time; they are answered exactly if the snapshot is prepared. |
| `ResyncHub.RequestIsLostExactly` | internal/web/ws.go:362-391 | A request ends unanswered if and only if its client leaves, the hub shuts down, or the timer fires and the snapshot cannot be prepared. |
| `ResyncHub.RequestCanBeLost` | internal/web/ws.go:381-387 | A concrete pair of events after which a client has asked, nobody was answered, and no timer is left. |
| `ResyncHub.RequestIsAnswered` | internal/web/ws.go:342-391 | A request pending for a period is answered by the timer, provided the snapshot can be prepared. |
| `ResyncHub.FlushesKeepTheirDistance` | internal/web/ws.go:356-372 | Repair snapshots are at least one period apart. |
| `ConsensusMachine.ConsensusState.AdvanceRound` | internal/core/transitions.go:13-31 | Refuses stale contexts, clears votes in a new context, raises the step in the current one. |
| `ConsensusMachine.ConsensusState.Validators` | internal/core/transitions.go:34-51 | A validator merge keeps observations by address when the view is of the current round (`Cells.MergeKeepsObservations`). |
| `ConsensusMachine.ConsensusState.StoreBlock` | internal/core/transitions.go:53-68 | A newer block is appended, timed if it follows directly, and the history cut to 120. |
| `ConsensusMachine.ConsensusState.NewBlock` | internal/core/orchestrator.go:285-326 | A new block commits, is stored, opens the next height, and is published once. |
| `ConsensusMachine.ConsensusState.NewRound` | internal/core/orchestrator.go:328-352 | An accepted round marks its proposer and is published. |
| `ConsensusMachine.ConsensusState.Vote` | internal/core/orchestrator.go:378-444 | An accepted first vote fills its cell and is published; a filled cell suppresses the event. |
| `ConsensusMachine.ConsensusState.Status` | internal/core/orchestrator.go:470-485 | A status ahead of the current height resets the context and clears the votes. |
| `ConsensusMachine.ConsensusState.HttpConsensus` | internal/core/orchestrator.go:655-678 | An HTTP context is accepted only outside streaming and clears votes it cannot vouch for. |
| `ConsensusMachine.ConsensusState.ClearRoundVotes` | internal/core/orchestrator.go:356-365 | All cells and proposer flags are cleared. |
| `ConsensusMachine.ConsensusState.MarkProposer` | internal/core/orchestrator.go:369-376 | Exactly the rows of the address are marked. |
| `Cells.MergeKeepsObservations` | internal/core/transitions.go:34-51 | A validator refresh lists the given addresses in order; each keeps its last row of the current round with votes and proposer mark, every other row is blank, nothing else changes, and an older refresh changes nothing. |
| `Cells.CellsExactly` | internal/core/orchestrator.go:328-444 | After any input a cell is empty if the context changed or the input wiped it, else it stays, and an empty cell of a listed address takes the first accepted vote; proposer marks likewise; a vote is published exactly when it is accepted and finds its cell empty. |
| `Cells.ContextExactly` | internal/core/transitions.go:13-31 | Exactly the contexts above the committed height, in range and not before the current one are accepted; they become current with their step, which only grows within a context; only a status that passes the current height ends it. |
| `Cells.HistoryExactly` | internal/core/transitions.go:53-68 | The block history takes what streamed blocks and polled samples offer if it is newer, and nothing else. |
| `Cells.ShownVoteStays` | internal/core/transitions.go:34-51 | In every run a shown vote stays shown, unchanged, through any inputs that keep the context and list its validator. |
| `Consensus.AcceptedContextsNeverGoBack` | internal/core/transitions.go:13-31 | Over every interleaving of events, HTTP fallback, status resets and merges, accepted contexts are lexicographically nondecreasing. |
| `Consensus.CurrentContextIsSound` | internal/core/orchestrator.go:285-485 | The height is 0 or above the committed height, the view is of the current round, and a filled cell implies its step. |
| `Consensus.ShownVotesWereCast` | internal/core/orchestrator.go:378-444 | Every shown vote was cast by that validator in exactly the current height and round. |
| `Consensus.AppendBlockFacts` | internal/core/transitions.go:53-68 | The block history stays ascending and bounded and takes exactly the newer samples. |
| `Consensus.HistoryExtends` | internal/core/transitions.go:53-68 | A newer sample goes behind the newest 119 blocks; if it directly follows the last one and is later it carries the whole milliseconds between them. |
| `Simulation.StepFollowsExactly` | web/src/lib/stores.ts:205-283 | From a page equal to the server, folding what one streamed input publishes gives the server's next state if and only if a guard on the state before holds. |
| `Simulation.BrowserFollowsServer` | web/src/lib/stores.ts:205-283 | Along any run with a fixed roster, known voters and recognised steps, the folded page equals the server cell by cell. |
| `Simulation.UnknownVoterIsNotFollowed` | web/src/lib/stores.ts:235-236 | A vote of an unlisted validator moves the server's context and not the page's. |
| `Simulation.CommittedBlockIsNotFollowed` | web/src/lib/stores.ts:273-275 | After a status reset, the block at the committed height moves the server and not the page. |
| `Simulation.UnknownStepIsNotFollowed` | internal/core/orchestrator.go:714-734 | After a round with an unrecognised step, the next block's step reaches only the server. |
| `Replay.ReplayIsAbsorbed` | web/src/lib/stores.ts:226-283 | With one proposer per height and round, replaying any folded events in any order leaves the page unchanged. |
| `Replay.VotesAndBlocksAreAbsorbed` | web/src/lib/stores.ts:226-283 | A replayed vote or block is absorbed, however many proposers were announced. |
| `Replay.RoundIsAbsorbedExactly` | web/src/lib/stores.ts:253-272 | A replayed round is absorbed if and only if its context is past, it names no proposer, or it marks the same rows as the proposer announced last. |
| `Replay.ReplayIsAbsorbedExactly` | web/src/lib/stores.ts:226-283 | Without any hypothesis on proposers, replaying any sequence of folded events leaves the page unchanged if and only if the last proposer it names for the page's own context, if any, marks the same rows as the one announced last before. |
| `Replay.SecondProposerIsNotAbsorbed` | web/src/lib/stores.ts:261-263 | A concrete pair of proposers for one round whose replay is not absorbed. |
| `Replay.SnapshotThenStaleEvents` | web/src/lib/stores.ts:205-283 | A snapshot, then any events published before it, then those after it, leave the page equal to the server. |
| `Poller.PollerObject.RefreshNow` | web/src/lib/poll.ts:36-44 | A refresh begins only when nothing is active, and takes a new generation. |
| `Poller.PollerObject.Settled` | web/src/lib/poll.ts:46-61 | An outcome reaches its callback only for the current generation of an undisposed poller, data only if not aborted. |
| `Poller.PollerObject.Finally` | web/src/lib/poll.ts:62-70 | The slot is released, then a wanted refresh or the schedule follows. |
| `Poller.PollerObject.ScheduleNext` | web/src/lib/poll.ts:26-35 | The next poll is armed with the longest of interval, retry delay and backoff. |
| `Poller.PollerObject.CancelNow` | web/src/lib/poll.ts:72-77 | Cancel ends the generation, aborts the active request and clears the timer. |
| `Poller.PollerObject.InvalidateNow` | web/src/lib/poll.ts:78-84 | Invalidate refreshes now or as soon as the aborted request returns. |
| `Poller.PollerObject.ChangePaused` | web/src/lib/poll.ts:85-93 | Pausing cancels; resuming refreshes or schedules. |
| `Poller.PollerObject.ChangeHidden` | web/src/lib/poll.ts:94-99 | Hiding cancels; showing refreshes. |
| `Poller.PollerObject.DisposeNow` | web/src/lib/poll.ts:100-103 | Disposing is final and cancels. |
| `Poller.OneRequestAtATime` | web/src/lib/poll.ts:36-42 | A request begins only when none is active. |
| `Poller.DeliveredDataIsUndisturbed` | web/src/lib/poll.ts:46-50 | In every run the data of the active request is delivered if and only if no call since it began stopped it: no cancel, dispose, effective pause, hide or invalidate, no resume or show that refreshes, and no timeout. |
| `Poller.StoppingDisturbs` | web/src/lib/poll.ts:72-103 | A call that leaves the request active disturbs it exactly when it is one of those, and no later call undoes that. |
| `Poller.NothingAfterDispose` | web/src/lib/poll.ts:46-61 | After dispose no outcome of any kind is delivered, whatever is called later. |
| `Poller.PollingContinues` | web/src/lib/poll.ts:62-99 | Without the exported cancel, a visible, unpaused, undisposed poller always has a request, a timer or a result about to resume it. |
| `Poller.CancelStallsExactly` | web/src/lib/poll.ts:72-77 | With cancels, a poller polls at every moment of a run if and only if each cancel finds a request active or about to resume polling, or a poller that is disposed, paused or hidden. |
| `Poller.StallLasts` | web/src/lib/poll.ts:26-77 | A stalled poller stays exactly as it is, through timers, timeouts and settling requests, until someone calls it again. |
| `Poller.CancelCanStall` | web/src/lib/poll.ts:72-77 | A concrete run after which cancel leaves nothing active and no timer. |
| `Poller.BackoffIsBounded` | web/src/lib/poll.ts:29-33 | Failures back off from one second to thirty and never less after more failures. |
| `PollerLaws.TimerIsLongest` | web/src/lib/poll.ts:26-35 | In every run a pending timer was armed for the longest of the interval read then, the retry delay and the backoff of 1, 2, 4, 8, 16 or 30 seconds that the poller still remembers. |
| `PollerLaws.RemembersFailures` | web/src/lib/poll.ts:46-61 | In every run a poller remembers exactly the failures delivered since the last data and the delay the last of them asked for. |
| `PollerLaws.BeginsExactly` | web/src/lib/poll.ts:36-45 | A call begins a request exactly when none is active and it is a refresh the poller is not too paused, hidden or disposed for, an invalidation, a timer that fires, or the end of a request during which a refresh was asked for. |
| `PollerLaws.EndingStopsEverything` | web/src/lib/poll.ts:72-103 | Cancelling, disposing, pausing and hiding take the timer away, abort the active request and leave its generation behind. |
| `PollerLaws.RefreshIsOwedExactly` | web/src/lib/poll.ts:62-84 | In every run a refresh is owed exactly when one was asked for while a request was active and since then none has begun, nor has polling resumed beside a request begun after the slot was released. |
| `PollerLaws.RefreshCanBeForgotten` | web/src/lib/poll.ts:62-70 | A concrete run that ends with an aborted second request and no refresh owed for it. |

## Left out

- TrackerMachine.LiveTracker.SetValidators: blocks, rounds and votes are values inside the tracker's maps, not objects of their own, so aliasing between a report and the archive cannot be expressed; the deep copies of `archive_snapshot.go` are the identity here.
- RoundsCache.ReportCache.PublishLocked: records are rows of a table under an identity instead of heap objects, and the identity of a new record is a parameter.
- WsWire.WriteTo: `json.Marshal` and the clock are not modelled; prefix and payload are given texts.
- CacheViews.SameKeySameBody: JSON encoding is an arbitrary function of the report, SHA-256 and entity tags are left out.
- Detector.HeavyMeans: percentages are reals, so rounding of float64 at the threshold is not modelled; int64 overflow of powers and uint64 overflow of revisions and sequence numbers are not either.
- Oracle.ArchiveRefinesOracle: the history is unbounded, without the 256-height window the replay oracle keeps for its own memory.
- StreamRuns.QuietStreamIsCurrent: progress is stated for a stream that has come to rest; that timers fire and sockets deliver is not modelled.
- Poller.PollingContinues: jitter and real time are left out; a settled request, the release of its slot and the resumption of polling are three steps with arbitrary calls in between.
- An identity longer than 128 bytes is rejected by the archive; `IngestVote` still counts such a vote when the same validator and phase already hold evidence. The model keeps this branch (`Tracker.HasVote`) and states nothing more about it.
- Voting powers as decimal text, the case folding of addresses and hashes, wall-clock fields of the consensus state and vote timestamps in its cells.
- The divergence, validator, status and upgrade patches of `reduceEvent`, `normalizeSnapshot` and the other coercions of `stores.ts`: snapshots repair them, and the model starts from typed values.
- Subscriptions and the fan-out of `broadcastLocked` over clients: each client's queue is offered arbitrary messages.
- Admission lanes, builder limits and contexts of the report cache, and the HTTP handlers above it.
- RPC and LCD clients, the comparison poller, metrics, terminal and Svelte views, configuration and test tooling.
