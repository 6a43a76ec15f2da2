# Bridge verification

A Dafny 4.11 model of the protocol and state-machine code of the C++ bridge, with proofs. Calls into the original game,
into Windows and into other modules appear as parameters: flags and values that an operation may observe, or trees of
further calls that original code may make. `dafny verify dfyconfig.toml` checks everything.

Code that changes state is a class whose methods follow the source step by step. Each method's contract equates the new
state with a function of the old one, and the properties of whole runs are lemmas about those functions.

| module | what it models |
|---|---|
| `Basics`, `Words` | optional values, facts about finite sets, numbers of fixed width |
| `GlobalAdmission`, `GlobalPreload` | the grant state of one process, and the exchange that renews and fences it |
| `LeaseSystem` | all processes, their clocks, messages in flight and a coordinator, as one step system |
| `Crc32`, `PngEnvelope` | the CRC of RFC 2083 and the container checker built on it |
| `PngVerdicts` | which file gets which verdict, over its chunks |
| `HistoryScopes` | owner scopes, history events, UI reads, retirement: globals saved and restored around nested calls |
| `LinkedRing`, `Fnv`, `HistoryDigest`, `Ticker` | walks over linked structures in arbitrary memory, and the history hash |
| `StageSwap` | the one global campaign stage that stands for two players |
| `ContentSpec`, `ContentSafety`, `ContentRuns`, `ContentNetwork` | two concurrent chunked content transactions |
| `ContentFrame` | what a step leaves alone: a transaction that it is not for |
| `ContentProgress`, `ContentImports`, `ContentOpening` | what begins, moves and ends a transaction; each content imported once |
| `ContentCoordinator` | the coordinator's one upload slot, and runs with honest answers |
| `ActorTable`, `ActorLife`, `ActorCommands`, `KeyboardSteering` | actor identities, command queue, input fence, keyboard release |
| `TrackedActors` | the tracking table that must agree with the actor table |
| `TraceLog` | the bounded trace in front of a file that may fail |
| `AwardCheckpoint`, `CheckpointHeader`, `HistoryCheckpoint` | checkpoint encodings |
| `Inventory`, `InventoryProjection` | capture and projection of an inventory |
| `DeathAuthority`, `DeathCompletion`, `DeathClient` | the death hand-over: pending deaths of the authority, the cycle of a client |

## Assumptions

- Lease mutual exclusion assumes a rule of the coordinator, written into `LeaseSystem.Enabled`: a process is told its
  own worker pair; it is answered as the owner only while the coordinator holds it to be the owner; another owner is
  named only when the old owner's process is dead or the lifetime of its last answer has run out since it was issued.
  Clocks run at one rate with constant offsets. The replacement of a disconnected location is an operation of its own,
  documented as called after the old authority transport has closed and the host has verified the worker's process
  exit (`src/network/coordinator.h:118-119`); under that precondition it is an instance of the rule, see below.
- The answers about an observation are honest where a theorem says so: an answer is a failure exactly when the
  coordinator did not take the frame. What its gate, its registry and the decoding of an observation decide is given;
  the completion of an observation assumes that it turns nothing away and drops nothing.
- The clock a process reads does not run backwards, and a scope object's address is not that of a scope still open.
- Runs of the actor table and of deaths are shorter than 2^64 operations, so that no identity or occurrence repeats;
  the wrap-around itself is modelled. Request numbers of the content exchange and nonces stop at 2^64 - 1, as in the
  source.
- The digest of content and the reading of a manifest are functions given with the configuration of `ContentSpec`.
- A memory range is readable when every byte of it is there, and a readable range does not wrap around.
- A trace line is at most 3071 bytes long and the terminal line at most 1026.

## Results worth knowing

- The 57 of the PNG size test is never enough: every accepted file has at least 58 bytes (`PngEnvelope.EnvelopeSize`).
- Naming a newcomer as the owner at once keeps mutual exclusion in every continuation exactly when no process is the
  owner and no mail would make one the owner at that time (`LeaseSystem.ReplacementSafe`). The documented precondition
  of a replacement (`src/network/coordinator.h:118-119`), that the old process has exited, gives this, and so does the
  end of the recorded lease (`LeaseSystem.ReplacementByRule`), or the old process having been fenced by the end of its
  connection (`LeaseSystem.ReplacementAfterFence`). Neither `replace_disconnected_location`
  (`src/network/coordinator.cpp:1699-1757`) nor its caller (`src/network/main.cpp:357-375`) asks the process itself:
  the exit is the host's to verify. Were that skipped while the old process is alive and has not yet seen its own
  transport close, two processes could own (`LeaseSystem.ReplacementCanFail`).
- A process keeps its grant for as long as its updates and its answers come in time: with a lifetime of `ttl`, updates
  at most `gap` apart and answers at most `latency` after the request, `ttl / 6 + gap + latency < ttl` and
  `2 * latency < ttl` are enough, whatever the order of events (`GlobalPreload.GrantKept`).
- A direct assignment of the second player's stage while a stage scope is open is lost when the scope ends. With every
  assignment outside the scopes the code is the two-store model (`StageSwap.TwoStores`); after any calls in a scope,
  an assignment at its end makes a difference exactly when it assigns another stage than those calls left
  (`StageSwap.AssignmentInsideIsLost`). The source assigns on enabling and on restoring, both only while no second
  player is ready; no path on which either runs inside an open scope is shown.
- Every death of the second player completes at most once, unconditionally: its restart runs in that player's stage
  scope, and a completion from inside that scope is refused (`DeathAuthority.SecondCompletedOnce`). For all deaths
  together it holds exactly when no successful completion of an occurrence runs inside another of it
  (`DeathAuthority.CompletedOnce`). Only the first player's restart lacks such a guard: completing that player's death
  from within its own completion would complete it twice (`DeathAuthority.ReentryCompletesTwice`), and one begin and
  such a completion are already a life that does (`DeathAuthority.LifeCompletingTwice`). The one caller is the receipt
  of a network packet (`src/bridge/native_network.cpp:357`), and no path from the restart back into it is shown; a
  caller that never re-enters is safe (`DeathAuthority.AtMostOnce`).
- A checkpoint stores as many entries of a history as its count says, and the first one at count zero. What lies past
  the stored entries is not written: a history comes back exactly when those entries are blank
  (`HistoryCheckpoint.StateReturned`).
- `checkpoint_stage` followed by a snapshot gives the same words exactly for packed words in range, a weaker condition
  than the validity test (`AwardCheckpoint.WordsRoundTrip`).

## Model

| member | source | states |
|---|---|---|
| GlobalAdmission.NativeGlobalAdmission.ArmWith | src/bridge/native_global_admission.h:55-62 | arming succeeds once, with a valid context, and changes nothing else |
| GlobalAdmission.NativeGlobalAdmission.InstallGrant | src/bridge/native_global_admission.h:64-99 | a grant is installed exactly under the whole admission rule; its deadline counts from its own send time |
| GlobalAdmission.NativeGlobalAdmission.PermitNow | src/bridge/native_global_admission.h:101-109 | the permit for this state, time and transport |
| GlobalAdmission.PermitMeaning | src/bridge/native_global_admission.h:101-109 | the owner permit is given exactly for a live, unexpired, unrevoked grant that names this process, for under 30 s from sending |
| GlobalAdmission.RolesNeverChange | src/bridge/native_global_admission.h:64-115 | over any run context, mask and owner worker are constant, the owner generation never decreases, a later grant has a greater nonce |
| GlobalAdmission.LapseIsPermanent | src/bridge/native_global_admission.h:64-115 | once expired or revoked, no later operation at any later time yields a permit |
| GlobalAdmission.GrantsAreSound | src/bridge/native_global_admission.h:64-99 | in any run a process only holds a grant of its world, for one owner, with the producers on exactly for that owner, for at most 30 s |
| GlobalAdmission.InstalledInForce | src/bridge/native_global_admission.h:64-109 | a grant is installed only where the one before still runs, is later, and is in force at once |
| GlobalAdmission.FollowedExactly | src/bridge/native_global_admission.h:64-99 | a running grant is followed by one of the same owner or, where the producers are elsewhere, of a later generation of the same worker, and by no other |
| GlobalPreload.NativeGlobalPreload.AcceptGrant | src/bridge/native_global_preload.cpp:107-129 | a grant answers the one outstanding request or fences the process |
| GlobalPreload.NativeGlobalPreload.KeepGrantCurrent | src/bridge/native_global_preload.cpp:131-152 | renewal under a new nonce and send time, or a fence |
| GlobalPreload.NativeGlobalPreload.UpdatePreload | src/bridge/native_global_preload.cpp:154-175 | at most sixteen events and the upkeep, as the transition function |
| GlobalPreload.RunKeepsRole | src/bridge/native_global_preload.cpp:107-175 | over any run of updates roles are kept, nonces do not decrease, fenced stays fenced |
| GlobalPreload.FencedForever | src/bridge/native_global_preload.cpp:177-189 | a fenced process never has a permit again, whatever it receives |
| GlobalPreload.LostForever | src/bridge/native_global_preload.cpp:107-175 | an expired or revoked grant is never followed by another one |
| GlobalPreload.FirstGrant | src/bridge/native_global_preload.cpp:107-129 | a first grant for this process, received in time, makes it ready, and the owner exactly if it is named |
| GlobalPreload.RenewalDue | src/bridge/native_global_preload.cpp:125-151 | after an accepted grant no update asks in the first sixth of its lifetime, and the first one after that asks once, under the next nonce and its own send time |
| GlobalPreload.GrantKept | src/bridge/native_global_preload.cpp:107-175 | with updates in time and requests answered in time for the same owner, a process is ready at every time of any run and its deadline stays ahead |
| GlobalPreload.CanContinue | src/bridge/native_global_preload.cpp:107-175 | such a run can always go on |
| GlobalPreload.UnwelcomeFences | src/bridge/native_global_preload.cpp:73-81 | an event that is neither a connection nor an answer to the outstanding request fences the process |
| GlobalPreload.LossFences | src/bridge/native_global_preload.cpp:131-135 | an update that finds the transport down or the grant past its deadline fences the process |
| GlobalPreload.UnansweredFences | src/bridge/native_global_preload.cpp:136-138 | a request that is not answered fences the process at an update the timeout after it |
| LeaseSystem.StepKeepsInv | src/bridge/native_global_preload.cpp:83-151 | every step of the system keeps: only the recorded owner can hold or still receive an owner grant, within the recorded lease |
| LeaseSystem.MutualExclusion | src/bridge/native_global_observer.cpp:142-160 | in every reachable state at most one live process is let through as the owner |
| LeaseSystem.OwnerIsRecorded | src/bridge/native_global_admission.h:64-109 | whoever is let through is the recorded owner and its record has not run out |
| LeaseSystem.ReplacementSafe | src/network/coordinator.cpp:1699-1757 | naming a newcomer without waiting keeps mutual exclusion in every continuation exactly when nobody owns and no mail would make anyone the owner |
| LeaseSystem.ReplacementByRule | src/network/coordinator.h:118-125 | a replacement after the verified exit of the old process, or after its recorded lease ran out, is safe in every continuation |
| LeaseSystem.ReplacementAfterFence | src/bridge/native_global_preload.cpp:83-151 | it is safe as well once the old process is fenced |
| LeaseSystem.ReplacementCanFail | src/network/coordinator.h:118-119 | without the documented exit it can fail: in a reachable state the old process is alive and let through, and two processes could own after a replacement |
| LeaseSystem.OwnerReachable | src/bridge/native_global_preload.cpp:107-129 | the rule of the coordinator does let a process become the owner |
| Crc32.Compute | src/bridge/content_png.h:34-41 | the two loops compute the CRC of section 3.4 of RFC 2083 |
| Crc32.StepInjective | src/bridge/content_png.h:38 | the bit step loses nothing |
| Crc32.CrcDetectsBurst | src/bridge/content_png.h:34-43 | equal CRCs around a difference of up to four consecutive bytes mean equal bytes, at any length |
| Crc32.EndCrc | src/bridge/content_png.h:34-43 | the CRC of an empty IEND is the constant every PNG file ends in |
| PngEnvelope.CreationPngEnvelope | src/bridge/content_png.h:12-69 | the verdict for every input, within bounds; accepted exactly when the input is in the language |
| PngEnvelope.AcceptedLanguage | src/bridge/content_png.h:14-68 | accepted are exactly the files of at most 4 MiB that print the grammar of chunks with right CRCs |
| PngEnvelope.PrintedChunkReads | src/bridge/content_png.h:25-43 | a printed chunk is read back whatever follows it |
| PngEnvelope.DecompositionUnique | src/bridge/content_png.h:24-67 | a file has one decomposition into chunks |
| PngEnvelope.EnvelopeSize | src/bridge/content_png.h:14 | every accepted file has at least 58 bytes |
| PngEnvelope.AcceptedEnding | src/bridge/content_png.h:58-62 | every accepted file ends in the twelve bytes of the empty IEND |
| PngEnvelope.DamageRejected | src/bridge/content_png.h:34-43 | an accepted file changed within four consecutive bytes of one chunk's type and body, or in its CRC, is rejected |
| PngEnvelope.SingleByteRejected | src/bridge/content_png.h:12-69 | an accepted file changed in one byte outside the length fields is rejected |
| PngVerdicts.OuterVerdicts | src/bridge/content_png.h:15-20 | size and signature are refused exactly for themselves |
| PngVerdicts.UnfinishedVerdicts | src/bridge/content_png.h:25-32 | good chunks with nothing after them lack an end; with no whole chunk after them, or after 128, they are out of bounds |
| PngVerdicts.DamagedVerdict | src/bridge/content_png.h:35-45 | a damaged chunk after good ones is reported as that |
| PngVerdicts.HeaderVerdicts | src/bridge/content_png.h:46-54 | which intact first chunk is no header, and which header is not qualified |
| PngVerdicts.LaterVerdicts | src/bridge/content_png.h:55-66 | which intact later chunk is empty pixels, a false end, of another type, or accepted |
| PngVerdicts.Decomposes | src/bridge/content_png.h:24-69 | every file with the signature is good chunks and a rest that one of these verdicts is about |
| HistoryScopes.HistoryContext.ManagerHook | src/bridge/native_history_context.cpp:403-417 | a query gets the container the environment says |
| HistoryScopes.HistoryContext.RunScope | src/bridge/native_history_context.cpp:931-956 | a scope over any body gives the interpreter's result and restores every scope variable and depth |
| HistoryScopes.HistoryContext.RunEvent | src/bridge/native_history_context.cpp:558-594 | the same for an event |
| HistoryScopes.HistoryContext.RunRead | src/bridge/native_history_context.cpp:448-473 | the same for a UI read and the displayed root |
| HistoryScopes.HistoryContext.RunAll | src/bridge/native_history_context.cpp:389-417 | the code with globals refines the interpreter without, for every tree of calls |
| HistoryScopes.CallsAreSafe | src/bridge/native_history_context.cpp:389-401 | no query is handed a deleted container, and nothing disposes of the second player's under a running call |
| HistoryScopes.SessionIsSafe | src/bridge/native_history_context.cpp:692-697 | the same from construction on |
| HistoryScopes.RoutedByFrames | src/bridge/native_history_context.cpp:558-570 | a pinned query goes to the second player exactly directly in an event whose innermost scope is that player's |
| HistoryScopes.HandedByFrames | src/bridge/native_history_context.cpp:403-418 | which container each kind of query gets under every stack of enclosing calls |
| HistoryScopes.AnsweredInside | src/bridge/native_history_context.cpp:448-595 | an enclosing call answers as its body does with one frame more: a scope is the second player's by owner, actor and epoch |
| HistoryScopes.SecondPlayerReached | src/bridge/native_history_context.cpp:403-418 | from construction: after enabling, a pinned query in an event of a scope reaches the new container exactly for that owner, actor and epoch |
| HistoryScopes.RetirementWaits | src/bridge/native_history_context.cpp:389-401 | a retirement inside a call leaves the container until the outermost call returns, and then deletes it |
| HistoryScopes.RootsBounded | src/bridge/native_history_context.cpp:898-925 | in any session at most sixteen displayed roots are kept |
| HistoryScopes.RootLife | src/bridge/native_history_context.cpp:860-925 | a displayed root that was read outlives its reset and can be shown again; one that was not is deleted |
| Fnv.ComputeHash | src/bridge/native_history_context.cpp:137-144 | the loop computes the hash, wrap-around included |
| Fnv.ScaleInjective | src/bridge/native_history_context.cpp:141 | the multiplier is invertible modulo 2^64 |
| Fnv.OneByteDecides | src/bridge/native_history_context.cpp:137-144 | with the rest equal, hashes are equal exactly when one byte is |
| Fnv.StepMeaning | src/bridge/native_history_context.cpp:137-144 | one step is the bitwise exclusive or first and the multiplication modulo 2^64 then |
| Fnv.KnownHash | src/bridge/native_history_context.cpp:137-144 | the hash of one byte from the start value |
| LinkedRing.BackLinksPreventRevisit | src/bridge/native_history_context.cpp:170-200 | the back-link check alone prevents visiting a node twice |
| LinkedRing.RingUnique | src/bridge/native_history_context.cpp:166-201 | memory determines the consistent ring at a sentinel |
| LinkedRing.RingClosesBothWays | src/bridge/native_history_context.cpp:166-201 | in a ring every node and the sentinel are what their neighbours point to, both ways |
| HistoryDigest.Payload | src/bridge/native_history_context.cpp:146-161 | the payload exactly when its vector is within bounds |
| HistoryDigest.DigestCategory | src/bridge/native_history_context.cpp:166-201 | in any memory: succeeds exactly on a consistent ring within the event budget, with its length and hash |
| HistoryDigest.DigestBucket | src/bridge/native_history_context.cpp:224-236 | succeeds exactly when the bucket has a complete chain within both budgets |
| HistoryDigest.Digest | src/bridge/native_history_context.cpp:206-240 | succeeds exactly on a container that can be certified; counts and hash are those of its history |
| HistoryDigest.ChainDistinct | src/bridge/native_history_context.cpp:224-236 | a chain that ends holds no node twice |
| HistoryDigest.HashIgnoresPlacement | src/bridge/native_history_context.cpp:223-237 | the hash depends on the date and the multiset of categories only |
| HistoryDigest.PlacementInvisible | src/bridge/native_history_context.cpp:206-244 | two censuses of the same history, wherever it is in memory, compare as the same: categories, events and hash |
| HistoryDigest.DateByteDecides | src/bridge/native_history_context.cpp:215 | one date byte decides the hash |
| HistoryDigest.CategoryByteDecides | src/bridge/native_history_context.cpp:229-233 | one byte of one category decides the hash |
| HistoryDigest.EntryByteDecides | src/bridge/native_history_context.cpp:191-195 | one byte of one entry decides the hash |
| Ticker.TickerWalk.ReadTickerNode | src/bridge/native_global_observer.cpp:489-508 | a node is taken exactly when it and its object are new and it points back |
| Ticker.TickerWalk.WalkTickerList | src/bridge/native_global_observer.cpp:523-548 | in any memory: ends, and succeeds exactly on a consistent ring new to both lists |
| Ticker.TickerCensus | src/bridge/native_global_observer.cpp:552-570 | complete exactly when both lists can be certified; then its counts are the true lengths |
| Ticker.TwoRingsUnique | src/bridge/native_global_observer.cpp:552-561 | there is one pair of lists to count |
| StageSwap.Awards.Run | src/bridge/native_award_context.cpp:435-455 | for every call the swapping code keeps the two stores of the model and shows each call its own stage; the comparison after a death call never finds a change |
| StageSwap.Awards.RunAll | src/bridge/native_award_context.cpp:2060-2069 | the same for every sequence of call trees |
| StageSwap.Awards.SecondaryDeath | src/bridge/native_award_context.cpp:2053-2070 | the guarded death call is the model's, and never reports a change of the first player's stage |
| StageSwap.PrimaryUntouched | src/bridge/native_award_context.cpp:435-455 | nothing in a scope reaches the first player's stage |
| StageSwap.PrimaryIgnoresSecondary | src/bridge/native_award_context.cpp:435-455 | the first player's stage ends the same whatever the second player's is |
| StageSwap.ScopeIgnoresPrimary | src/bridge/native_award_context.cpp:1455-1846 | everything in a scope leaves and observes the same whatever the first player's stage is |
| StageSwap.DeathIgnoresPrimary | src/bridge/native_award_context.cpp:2053-2071 | a guarded death call answers the same and leaves the same second stage whatever the first player's stage is |
| StageSwap.DeathExactly | src/bridge/native_award_context.cpp:2053-2071 | it runs exactly outside scopes, admitted, from the second player's first level, and then answers about the stage that player ends with |
| StageSwap.NestedScopesInvisible | src/bridge/native_award_context.cpp:440-447 | taking nested scopes away changes no stage and no observation |
| StageSwap.TwoStores | src/bridge/native_award_context.cpp:435-455 | with every direct assignment outside the scopes the code leaves exactly the stores of the plain two-store model |
| StageSwap.AssignmentInsideIsLost | src/bridge/native_award_context.cpp:448-454 | after any calls in a scope, an assignment at its end makes the code leave other stores than the plain model exactly when it assigns another stage than they left |
| ContentNetwork.NativeContentNetwork.Remove | src/bridge/native_content_network.cpp:71-80 | removes the job and exactly its requests |
| ContentNetwork.NativeContentNetwork.SendNext | src/bridge/native_content_network.cpp:101-132 | sends the frame of the job's phase, or says why not |
| ContentNetwork.NativeContentNetwork.ReceiveResponse | src/bridge/native_content_network.cpp:300-331 | one correlated response as the transition function |
| ContentNetwork.NativeContentNetwork.BeginJob | src/bridge/native_content_network.cpp:342-374 | a transaction starts exactly under the admission rule |
| ContentNetwork.NativeContentNetwork.ImportJob | src/bridge/native_content_network.cpp:478-505 | one import as the transition function |
| ContentNetwork.NativeContentNetwork.Update | src/bridge/native_content_network.cpp:510-534 | expiry, then one step of the first waiting job |
| ContentSafety.CapacityFree | src/bridge/native_content_network.cpp:87-90 | while a job is handled at most one request is outstanding, so the capacity refusal never fires |
| ContentSafety.SendKeeps | src/bridge/native_content_network.cpp:87-132 | a request goes out exactly when there is one, the output takes it and numbers remain |
| ContentSafety.StepKeeps | src/bridge/native_content_network.cpp:224-536 | every frame, update and fence keeps the whole transfer invariant |
| ContentProgress.BeginsExactly | src/bridge/native_content_network.cpp:342-374 | a transaction begins exactly on an admitted event whose first request goes out, with two minutes to live and nothing received |
| ContentProgress.ManifestAnswerExactly | src/bridge/native_content_network.cpp:224-250 | which chunk of a manifest is taken, what the last one must satisfy, and what the job then is |
| ContentProgress.FetchAnswerExactly | src/bridge/native_content_network.cpp:254-269 | which chunk of the content is taken, and what the job then is |
| ContentProgress.CheckExactly | src/bridge/native_content_network.cpp:421-439 | held parts lead to the fetch, a missing part to a report of exactly that part, anything else to the end |
| ContentProgress.AnswerEnds | src/bridge/native_content_network.cpp:300-331 | failures, answers of another kind and the answers to reports and ends end the job and its request |
| ContentProgress.NoticeEnds | src/bridge/native_content_network.cpp:334-340 | a cancelled or published transaction ends with its requests, and no other request does |
| ContentImports.ImportOutcome | src/bridge/native_content_network.cpp:478-505 | an import goes on exactly for expected, approved content that the original reads: known content by inspection, other content by staging and importing |
| ContentImports.ImportedOnce | src/bridge/native_content_network.cpp:441-463 | in any run content handed over after its import is inspected, under the key of that import |
| ContentImports.InspectedAfterImport | src/bridge/native_content_network.cpp:444-449 | whatever is inspected was imported before, under that key |
| ContentImports.KnownForever | src/bridge/native_content_network.cpp:456 | imported content stays known for the rest of any run |
| ContentImports.LaterImport | src/bridge/native_content_network.cpp:441-463 | so a later transaction for it succeeds by inspection, whatever staging and importing would do |
| ContentOpening.ImportOpens | src/bridge/native_content_network.cpp:113-118 | an import that goes on while the coordinator's slot is free is at the beginning of its upload |
| ContentRuns.OneRequestEach | src/bridge/native_content_network.cpp:87-99 | in any reachable state every request belongs to a present job, matches its phase, is the job's only one; a job has one exactly while it waits for an answer |
| ContentRuns.ImportsAdmitted | src/bridge/native_content_network.cpp:421-505 | content reaches the original only approved and with the transaction's identity; a player's only after the part check of a manifest read from bytes with its digest, which names that content, the transaction's properties and the installed profile and world |
| ContentRuns.ObservationSentWhole | src/bridge/native_content_network.cpp:113-129 | whatever is answered, the observation frames sent since their last begin add up to the observation |
| ContentCoordinator.SlotFollows | src/network/content_control.cpp:105-143 | with all frames of a transaction taken, a slot that is its own holds exactly them, whatever else used the slot |
| ContentCoordinator.ObservationTaken | src/network/content_control.cpp:146-177 | with honest answers, when the coordinator takes the end of a job's observation it holds exactly that observation |
| ContentCoordinator.ObservationCompletes | src/network/content_control.cpp:105-177 | answered honestly by a coordinator that lets it through, an observation ends, taken whole, whatever else happens between the answers: frames for other transactions, whatever they say, and updates before the deadline |
| ContentRuns.ReceivedIsPrefix | src/bridge/native_content_network.cpp:254-269 | against a peer serving fixed bytes the received bytes are always a prefix of them |
| ContentRuns.FetchCompletes | src/bridge/native_content_network.cpp:254-269 | answered honestly a fetch ends, with exactly the served bytes, whatever else happens between the answers |
| ContentRuns.FetchAnswered | src/network/content_control.cpp:59-70 | the honest answers alone are such a run |
| ContentRuns.ManifestCompletes | src/bridge/native_content_network.cpp:224-250 | answered honestly a job receives its manifest and goes on to check the parts, whatever else happens between the answers |
| ContentRuns.ManifestAnswered | src/network/content_control.cpp:59-70 | so are the honest answers about a manifest |
| ContentCoordinator.ObservationAnswered | src/network/content_control.cpp:105-177 | and those about an observation |
| ContentFrame.HarmlessKeeps | src/bridge/native_content_network.cpp:300-536 | a frame, new transaction or update that is not for a transaction leaves its job, its request and its record as they were |
| ContentRuns.NoLateJobs | src/bridge/native_content_network.cpp:398-408 | after an update no job past its deadline is left, and expiry ended no other |
| ContentRuns.SilentForever | src/bridge/native_content_network.cpp:211-219 | once the approvals are gone, at any time of any run, nothing happens any more |
| ContentRuns.FetchStep | src/network/content_control.cpp:59-70 | one reply of the coordinator adds one whole chunk and brings the next request, or the whole file |
| ActorCommands.ActorCommands.Bind | src/bridge/actor_commands.cpp:4-18 | the array refines the table: a live key keeps its binding, a new one takes the first free slot under a new identity |
| ActorCommands.ActorCommands.Authorize | src/bridge/actor_commands.cpp:77-103 | the decision for every command and table |
| ActorCommands.ActorCommands.Enqueue | src/bridge/actor_commands.cpp:105-118 | the ring appends the stamped command, or refuses |
| ActorCommands.ActorCommands.Pop | src/bridge/actor_commands.cpp:120-128 | the ring gives back its oldest command |
| ActorCommands.RingAppend | src/bridge/actor_commands.cpp:115 | a new entry overwrites no pending one |
| ActorTable.RunKeeps | src/bridge/actor_commands.cpp:4-128 | every run keeps: identities unique, live bindings of the current scene with distinct keys, queue ascending and of the current input epoch, empty when fenced |
| ActorTable.ReachableInOrder | src/bridge/actor_commands.cpp:4-128 | every table reachable from construction keeps all that and never gives the stale-scene refusal |
| ActorTable.AcceptedExactly | src/bridge/actor_commands.cpp:77-103 | a command is admitted exactly for a live actor of its owner and, where one is due, a live other target |
| ActorTable.StaleSceneUnreachable | src/bridge/actor_commands.cpp:85-87 | the stale-scene refusal is never given |
| ActorTable.RetiredForever | src/bridge/actor_commands.cpp:38-55 | a retired identity is never authorised again, even when its key is bound anew |
| ActorTable.RetiredTarget | src/bridge/actor_commands.cpp:95-101 | nor accepted as a target |
| ActorTable.RetiredStaysRefused | src/bridge/actor_commands.cpp:38-101 | in any run from construction, what was retired at any time is refused at any later time, as actor and as target |
| ActorTable.IdentityConstant | src/bridge/actor_commands.cpp:4-18 | identity, key, owner and scene of a binding never change |
| ActorTable.StampedRefused | src/bridge/actor_commands.cpp:57-80 | after a fence a stamped command from before it is refused for ever, also at 2^64 - 1 |
| ActorTable.AdmittedThenFenced | src/bridge/actor_commands.cpp:57-118 | in any run from construction, what was admitted before a fence is refused after it |
| ActorTable.AdmittedIsCurrent | src/bridge/actor_commands.cpp:113-117 | what is admitted carries the current epoch and goes last |
| ActorTable.PoppedAscending | src/bridge/actor_commands.cpp:105-128 | popped sequence numbers strictly increase over any run |
| ActorTable.AllPoppedAscending | src/bridge/actor_commands.cpp:105-128 | and over any run from construction |
| ActorTable.ResumedExactly | src/bridge/actor_commands.cpp:57-75 | from construction: inputs are resumed exactly by the epoch the fence returned, below the last one, and owners are authorised again |
| ActorLife.BindsExactly | src/bridge/actor_commands.cpp:4-18 | a live key is given back to its owner only; otherwise a free binding gets the next identity, beside all live bindings |
| ActorLife.InvalidatesExactly | src/bridge/actor_commands.cpp:38-47 | invalidating retires the identity of the key and leaves every other live binding |
| ActorLife.ExitRetires | src/bridge/actor_commands.cpp:49-55 | leaving a scene retires every actor and empties the queue |
| ActorLife.QueueConserved | src/bridge/actor_commands.cpp:105-128 | between fences everything waiting and admitted is popped in order or still waits |
| KeyboardSteering.KeyboardSteeringState.Observe | src/bridge/actor_commands.h:109-126 | the state after any trace is the one its trace says |
| KeyboardSteering.ReleaseIsFirstStop | src/bridge/actor_commands.h:100-127 | a release is held exactly when the trace without jumps ends in a steer and stops, and is the first of them |
| TrackedActors.NativeActors.BindAnimal | src/bridge/native_actors.cpp:462-483 | binding and record after a bind |
| TrackedActors.NativeActors.RestoreCheckpoint | src/bridge/native_actors.cpp:3176-3203 | both bindings, then both records, undone together |
| TrackedActors.FreeSlotExists | src/bridge/native_actors.cpp:473-480 | eight records cannot all be live while a ninth actor has none |
| TrackedActors.OperationKeeps | src/bridge/native_actors.cpp:462-483 | binds, invalidations, scene exits and restores keep one record for every live binding |
| TrackedActors.RestoreAgrees | src/bridge/native_actors.cpp:3176-3203 | a restore keeps it too, and one that succeeds leaves both actors bound |
| TrackedActors.OneRecordInAnyRun | src/bridge/native_actors.cpp:462-483 | in any run from construction every live binding has exactly one record |
| TrackedActors.BindAlwaysRecords | src/bridge/native_actors.cpp:220-227 | after any history a bind that succeeds has its record, with the native number, and no other |
| TraceLog.Trace.FlushBuffer | src/bridge/native_actors.cpp:149-159 | the file gets what the write took, the buffer is empty |
| TraceLog.Trace.RecordLine | src/bridge/native_actors.cpp:162-206 | one record, terminal record included, without overrunning the buffer |
| TraceLog.TraceIsPrefix | src/bridge/native_actors.cpp:149-206 | whatever the disk does: the buffer holds, the file stays within 64 MiB and is a prefix of the accepted lines |
| TraceLog.TraceIsComplete | src/bridge/native_actors.cpp:149-206 | with writes that succeed nothing is lost, and on exhaustion the terminal line is in the file and last |
| TraceLog.BuffersExactly | src/bridge/native_actors.cpp:162-206 | a line that fits is buffered without a write; another is preceded by one write of the buffer |
| TraceLog.FailedWriteEnds | src/bridge/native_actors.cpp:149-159 | a write that is refused or cut short ends the trace |
| AwardCheckpoint.WordsRoundTrip | src/bridge/native_award_context.cpp:1714-1782 | words survive a restore and a snapshot exactly when the packed words are in range |
| AwardCheckpoint.StageRoundTrip | src/bridge/native_award_context.cpp:1714-1782 | a stage survives a snapshot and a restore, with the pending flag |
| AwardCheckpoint.ValidMeansInRange | src/bridge/native_award_context.cpp:1739-1750 | a snapshot is valid exactly for a stage in range |
| AwardCheckpoint.Bijection | src/bridge/native_award_context.cpp:1714-1782 | valid checkpoints and stages in range with a flag correspond one to one |
| CheckpointHeader.WriteHeader | src/bridge/native_checkpoint.cpp:57-81 | writing by index gives the regions one after another, without overlap |
| CheckpointHeader.ReadHeader | src/bridge/native_checkpoint.cpp:153-172 | accepts exactly the printings of contents with a known schema and valid awards, and returns them |
| CheckpointHeader.HeaderInjective | src/bridge/native_checkpoint.cpp:57-81 | a header says one thing only |
| HistoryCheckpoint.CheckpointWords | src/bridge/native_history_context.cpp:745-759 | the loops lay out date, count and eight entries |
| HistoryCheckpoint.CheckpointState | src/bridge/native_history_context.cpp:762-775 | the loops find a history that has exactly these words |
| HistoryCheckpoint.ReadHistory | src/bridge/native_history_context.cpp:801-816 | accepts exactly a valid history's words, and leaves exactly what follows them |
| HistoryCheckpoint.WrittenDecides | src/bridge/native_history_context.cpp:778-788 | histories are told apart by what is written, whatever follows |
| HistoryCheckpoint.StateReturned | src/bridge/native_history_context.cpp:741-775 | the state comes back exactly when the entries left out are blank; counts zero and one write eighteen words |
| Inventory.ApplyThenCapture | src/bridge/native_inventory.cpp:38-113 | applying a state over the same parts and capturing again gives it back exactly when it is valid |
| Inventory.CaptureThenApply | src/bridge/native_inventory.cpp:38-113 | applying what was captured is accepted and changes nothing |
| Inventory.CaptureUnique | src/bridge/native_inventory.cpp:38-73 | there is at most one state to capture |
| Inventory.NotifiedExactly | src/bridge/native_inventory.cpp:207-219 | the parts notified are the newly unlocked ones, once each |
| InventoryProjection.CollectableItems.Capture | src/bridge/native_inventory.cpp:38-73 | the complete state, or a refusal exactly when there is none |
| InventoryProjection.CollectableItems.Apply | src/bridge/native_inventory.cpp:80-113 | accepted exactly over the same group and parts; refused, nothing changes |
| InventoryProjection.CollectableItems.Present | src/bridge/native_inventory.cpp:178-222 | apply, check, notify: the check never fails, and success means every new part was notified |
| InventoryProjection.Notify | src/bridge/native_inventory.cpp:207-221 | the notification loop stops at the first failure, having notified a beginning of the new parts |
| DeathAuthority.NativeDeath.Run | src/bridge/native_death.cpp:169-213 | begin, tick, complete and reset over any tree of re-entering calls, as the evaluator, with the stage scope restored |
| DeathAuthority.NativeDeath.BeginDeath | src/bridge/native_death.cpp:169-213 | a begin as the evaluator: refused, passed on, or pending under a new number and cleared when it fails |
| DeathAuthority.NativeDeath.CompleteDeath | src/bridge/native_death.cpp:683-718 | true exactly when this call completes the death; the second player's is refused while a scope is open |
| DeathAuthority.DeathsBalance | src/bridge/native_death.cpp:179-213 | a slot with a pending death takes no second one: as many deaths were issued in a slot as cleared from it, and one more while one is pending |
| DeathAuthority.SecondCompletedOnce | src/bridge/native_death.cpp:695-716 | a death of the second player completes at most once over a whole life, whatever calls are nested |
| DeathAuthority.CompletedOnce | src/bridge/native_death.cpp:666-718 | over a whole life, resets included, every occurrence completes at most once exactly when no successful completion is nested in another of the same |
| DeathAuthority.AtMostOnce | src/bridge/native_death.cpp:666-718 | a caller that never completes the first player's death within such a completion gets each completed at most once |
| DeathAuthority.ReentryCompletesTwice | src/bridge/native_death.cpp:701-713 | a completion of the first player's death within its own would complete it twice |
| DeathAuthority.LifeCompletingTwice | src/bridge/native_death.cpp:179-213 | so does a whole life of one begin and one completion that is entered again |
| DeathCompletion.SparedCalls | src/bridge/native_death.cpp:169-213 | a pending death survives every tree of calls that neither resets nor completes in its slot |
| DeathCompletion.BeginsPending | src/bridge/native_death.cpp:191-213 | a begin that is presented and left waiting makes its death pending under the next number; one that is not leaves the slot empty |
| DeathCompletion.CompletesDue | src/bridge/native_death.cpp:683-718 | completing a death that is due, for either player, counts it once and empties its slot |
| DeathCompletion.CompletesNothingElse | src/bridge/native_death.cpp:683-700 | a completion of anything else changes nothing |
| DeathCompletion.FailedRestartKeeps | src/bridge/native_death.cpp:705-716 | a restart that does not revive leaves the death pending |
| DeathCompletion.SecondLife | src/bridge/native_death.cpp:169-213 | a life of the second player in which its death begins and completes, once |
| DeathClient.ClientDeath.ObservePause | src/bridge/native_death.cpp:783-797 | pause, resume and failure flags after one observation |
| DeathClient.ClientDeath.InterceptRestart | src/bridge/native_death.cpp:458-492 | the restart message counts exactly under its rule and never reaches the original |
| DeathClient.ClientDeath.Confirmed | src/bridge/native_death.cpp:747-753 | a confirmation is given exactly for the presented occurrence with restart and resume seen and no failure |
| DeathClient.ConfirmedExactly | src/bridge/native_death.cpp:720-797 | a presented death is confirmed exactly when a matching pause preceded a matching resume and the restart message, with no other request seen |
| DeathClient.ConfirmedWasPresented | src/bridge/native_death.cpp:720-753 | nothing is confirmed that was not presented |
| DeathClient.ConfirmingLife | src/bridge/native_death.cpp:720-797 | one presentation that is confirmed, event by event |

## Left out

- The coordinator's ledger (`src/network/coordinator.cpp`, `location_ledger.cpp`) beyond the rule and the replacement
  stated above, and how it closes the preload connections of replaced workers.
- Off-thread calls, image pinning, virtual tables, caller addresses and hooks: a pinned caller is a tag, and what
  depends on the process image is a flag.
- Event records, JSON text, console commands, and observers that only log.
- The expected-entry lookup, receipts and snapshots of `native_history_context.cpp`; entry contents behind a category.
- The world-pending flag that the campaign update swaps (`native_award_context.cpp`, `goal_hook` and `update_hook`),
  award arithmetic and the display counter.
- The wire encoding of content frames, the allow-list file, and the registry behind the coordinator's replies: a frame
  arrives decoded or malformed, and approvals are read or not.
- Containers of histories are numbers, and a number is not used again.
- Resolving an actor against the original's nouns, and what a command then does.
- The original serializer behind a checkpoint: only the words written and read by the bridge are modelled. Floats are
  their words.
- What `native_replica_project` adds around `apply`, and the identity checks before a presentation: one flag each.
- The second player's own death handler, herd and restart routes: their answers are the flags of a call.
- The fade after a client's restart, and one-branch predicates such as `client_ability_route`.
- ClientDeath.PresentDeath: the conditions on actor, cinematic and time managers are one flag.
- `TrackedActors`: whether a checkpoint's fingerprint matches is one flag; `resolve` appears only as an invalidation.
