# Host machinery of the runtime, modelled in Dafny

The runtime leaves execution decisions to a kernel. What its TypeScript keeps is host machinery: queues,
gates, caches, stream buffers, path resolution, clocks and correlation protocols. This project models that
machinery and proves what it is for, over every input and every interleaving of events.

Each module follows one component. Where the source updates objects, a class holds the same fields and every
method states the whole new state by a function of the old one; the protocols' properties are then lemmas about
those functions over all sequences of actions. Promises are steps: queue, grant, release, go outside, retake, settle.

| module | component |
|---|---|
| `BrowserHostQueue`, `BrowserCallers` | the browser host's one running slot, its two lanes, and whose work asks for an outside call |
| `PromiseChain`, `EventQueue` | the server's event queue, a chain of promises, as a first-in first-out mutex |
| `RegistrationGate` | registration epochs, brackets and the lookups that wait for a swap |
| `CredentialRows`, `CredentialStore`, `CredentialSets`, `ChromeRows` | encrypted credential rows, their in-memory index, key rotation, overlapping sets, and the serialised row adapter |
| `OneUseSecrets`, `HttpSecrets` | one-use values shared by instances, minted secrets and pending OAuth grants |
| `RealPath` | lexical normalisation and link resolution |
| `ByteSource` | the back-pressured byte buffer and the short-read loop |
| `Base64` | the strict decoder of RFC 4648, sections 3.2, 3.5 and 4 |
| `EffectWalk`, `Residence`, `MountMerge` | the static walk for effects, residence routing of mount batches, and merging their responses |
| `PushResume`, `PushStreams`, `PushRepeats` | numbered push frames across reconnects, several streams under one key, and frames applied again |
| `Ticks`, `Cron`, `CronText` | the coalesced tick scheduler, cron fields as values and as text, and cron ticks |
| `Channel`, `HeldChannel` | request and reply over a message channel, and the channel that holds early messages |
| `InFlight` | keyed calls that can be cancelled |
| `EventBus` | the re-entrant bus and its depth breaker |
| `Decimals`, `Wrappers` | decimal spellings, and the option and result types the modules share |

Assumptions, all of them parameters or stated preconditions:

- Encryption is an ideal cipher: a box opens only under the key and identity that sealed it, keys have distinct
  fingerprints, and `credentialStorageKey` is injective, so an identity is its own key.
- A file system is a fixed function from path to what is there: missing, a failure, a link with its target, or something else.
- `isStaticallyFalse` and `effectSiteFor` are parameters. The evaluator the effect walk is compared with skips a
  branch whose condition is statically false, takes `let` names and `fn` parameters as binders, and evaluates
  conditions without effects; a closure may be invoked any number of times.
- A push stream opened on the boot it was left at starts at or before the frame after `since` and sends on in order.
- A bus listener may react to anything that happened before, but does not subscribe or unsubscribe.
- Clocks are arguments.

Some promises of the code or its comments hold only under a condition. Each has a lemma that gives a failing case,
and, where the code decides it, one that says exactly when the promise holds:

- A browser turn that settles while its own outside call is pending takes the slot again and loses it
  (`BrowserHostQueue.AnEarlySettleLosesTheSlot`); no finished turn holds or waits exactly when no run does that
  (`OrderlyRunsStayLive`).
- Work of a browser turn that is outside can ask for another outside call, which takes the slot of the turn that runs
  (`BrowserCallers.AnotherOutsideCallRobsTheRunning`); at most one request works exactly when no call does
  (`OneWorksExactlyWhenOwn`).
- A `set` with an empty service or variable is indexed and never read back, and no other (`CredentialStore.SetKeepsSynced`).
- Two overlapping sets of one identity can leave the index wrong, exactly when they do overlap
  (`CredentialSets.AnOverlapDrifts`, `IndexStaysRightExactlyWhenApart`).
- Removing a credential leaves the index and the rows apart when two readable rows share an identity
  (`CredentialStore.RemoveNeedsDistinctIdentities`), as two stores over one table can bring about
  (`TwoInstancesLeaveADuplicate`).
- A server run that settles while its own outside call is pending takes the queue again and blocks it for good
  (`EventQueue.AnEarlySettleWedgesTheQueue`, `AFinishedHolderBlocksTheQueue`). Every hold keeps a run to release it
  exactly when no run settles so and none goes outside after it settled (`HoldsHaveRunsExactlyWhenOrderly`).
- A `set` that lands while a rotation runs survives exactly on rows already stamped with the current key
  (`CredentialStore.ASetDuringRotationSurvivesOnlyOnCurrentRows`).
- Two holds of one slot can give the first value twice and lose the second (`OneUseSecrets.AReplacedValueIsGivenTwice`);
  each write is given at most once exactly when no hold lands under a take whose write was already given
  (`EachWriteOnceExactlyWhenRiskFree`).
- Without a conditional delete a one-use value can be taken twice (`OneUseSecrets.UnconditionalDeleteGivesTwice`);
  the source says so too.
- A frame whose data is not JSON is lost, so applied frames are contiguous exactly when all are readable
  (`PushResume.AnUnreadableFrameLeavesAGap`, `ContiguousWhenAllReadable`); two channels under one key can starve each other
  (`SharedKeyStarvesAChannel`), exactly when both have a stream open (`PushStreams.StarvesExactlyWhenShared`); and going
  back to an earlier boot repeats frames (`ReturningToABootRepeats`), exactly when a stream off the remembered boot
  delivers what was applied before (`PushRepeats.ForwardExactlyWhenNoneFallsBack`, `RepeatsExactlyWhenUnguarded`).
- A cron step of zero or less makes the field loop endless when its start is in range (`Cron.AZeroStepIsEndless`, `StepsMustClimb`).
- A request dropped by an unregister never settles (`Channel.AnUnregisterForgets`, `ForgottenNeverSettles`).
- A merged mount response has no `transitions` (`MountMerge.MergeDropsTransitions`).
- A tick's own event is never a server leg (`Residence.TickLegsIgnoreServerEffects`).
- An unsubscribe called again after its type was subscribed anew drops the new listeners
  (`EventBus.AStaleUnsubscribeDropsTheType`, `OthersKeptExactlyWhenNotStale`).
- A wildcard listener that also listens by type is called twice (`EventBus.WildcardsAreCalledAgain`).

## Model

| member | source | states |
|---|---|---|
| `BrowserHostQueue.StepKeepsInv` | src/evaluation/browser-store-transport.ts:168-226 | every arrival, outside call, return, settle and pump resumption keeps the invariant: one holder, named by `running`; a pump that never sleeps over a waiting turn; lanes first in first out; no turn forgotten |
| `BrowserHostQueue.OneHolder` | src/evaluation/browser-store-transport.ts:174-195 | over every interleaving a turn that holds the slot is the one `running` names, and `running` names only a holder |
| `BrowserHostQueue.NoLostWakeup` | src/evaluation/browser-store-transport.ts:175-199 | over a waiting turn the pump is active and has either a step to take or a holder to wait for |
| `BrowserHostQueue.LanesServeInOrder` | src/evaluation/browser-store-transport.ts:175-182 | over every interleaving, what was granted in a lane, then what waits there, is what the run queued in it, in that order: requests as they arrive and turns as their outside work ends |
| `BrowserHostQueue.BackgroundWaitsForForeground` | src/evaluation/browser-store-transport.ts:175-182 | a background turn comes to hold the slot only while no foreground turn waits, and is its lane's first |
| `BrowserHostQueue.LiveIffOrderly` | src/evaluation/browser-store-transport.ts:203-226 | a step keeps the slot from finished turns exactly when it is not a settle of a turn whose outside call is pending |
| `BrowserHostQueue.OrderlyRunsStayLive` | src/evaluation/browser-store-transport.ts:203-226 | over any run, from any state where no finished turn holds the slot or waits for it, that stays so exactly when every step of the run was such a step |
| `BrowserHostQueue.DrainServesEveryTurn` | src/evaluation/browser-store-transport.ts:175-208 | when every holder settles, all waiting turns are granted: the foreground lane in order, then the background lane in order, and the host ends idle |
| `BrowserHostQueue.ReturnTakesTheSlot` | src/evaluation/browser-store-transport.ts:216-226 | a turn that comes back to an idle host takes the slot even when its work is already over |
| `BrowserHostQueue.AnAwayTurnIsReachable` | src/evaluation/browser-store-transport.ts:216-226 | an away turn is reachable: one request makes an outside call and the host is idle meanwhile |
| `BrowserHostQueue.AnEarlySettleLosesTheSlot` | src/evaluation/browser-store-transport.ts:200-226 | the failing run from an idle host: a request goes outside, settles, comes back and takes the slot; its turn is done, and no continuation without an outside call grants another |
| `BrowserHostQueue.LostSlotStaysLost` | src/evaluation/browser-store-transport.ts:203-226 | a slot held by a finished turn is never granted again, unless some work asks for an outside call |
| `BrowserCallers.OneWorksExactlyWhenOwn` | src/evaluation/browser-store-transport.ts:168-226 | over any run from an idle host: at most one request works outside an outside call, however the run is cut short and goes on, exactly when every outside call gives up the slot of its own work or of work that is over |
| `BrowserCallers.OthersStepsBreakIt` | src/evaluation/browser-store-transport.ts:216-226 | an outside call asked by any other work takes the slot from the running turn, whose work goes on without it |
| `BrowserCallers.AnotherComesToWork` | src/evaluation/browser-store-transport.ts:216-226 | from any such state there is a continuation, without any further such call, in which a second request works too |
| `BrowserCallers.TwoIsReached` | src/evaluation/browser-store-transport.ts:216-226 | from an idle host: one request goes outside and the next one runs |
| `BrowserCallers.AnotherOutsideCallRobsTheRunning` | src/evaluation/browser-store-transport.ts:216-226 | the failing run: there the first request asks for another outside call, and two requests come to work |
| `BrowserHostQueue.BrowserQueue.Grant` | src/evaluation/browser-store-transport.ts:186-197 | the granted turn holds the slot, `running` names it, nothing else changes |
| `BrowserHostQueue.BrowserQueue.Pump` | src/evaluation/browser-store-transport.ts:175-182 | an idle pump starts a round; an active one does nothing |
| `BrowserHostQueue.BrowserQueue.PumpRound` | src/evaluation/browser-store-transport.ts:178-181 | one round refines the machine's: first foreground, else first background, else stop |
| `BrowserHostQueue.BrowserQueue.Take` | src/evaluation/browser-store-transport.ts:183-199 | a turn is queued at the end of its own lane and the pump is woken |
| `BrowserHostQueue.BrowserQueue.Arrive` | src/evaluation/browser-store-transport.ts:200-202 | a new request refines the machine's arrival and keeps the invariant |
| `BrowserHostQueue.BrowserQueue.OutsideCall` | src/evaluation/browser-store-transport.ts:216-220 | an outside call releases the slot exactly when a running turn holds it |
| `BrowserHostQueue.BrowserQueue.GiveUp` | src/evaluation/browser-store-transport.ts:190-195 | release clears `held`, and `running` only when it names this turn |
| `BrowserHostQueue.BrowserQueue.Return` | src/evaluation/browser-store-transport.ts:221-225 | the outside work over, with a result or a failure, the turn queues again in its lane |
| `BrowserHostQueue.BrowserQueue.Settle` | src/evaluation/browser-store-transport.ts:203-208 | a settled turn is done and releases the slot if it holds it, result or failure alike |
| `BrowserHostQueue.BrowserQueue.ResumePump` | src/evaluation/browser-store-transport.ts:178-181 | the pump goes on once the grant it awaited was freed |
| `PromiseChain.ReadyMeansEarlierClosed` | src/server/OrbitalServerRuntime.ts:1963-1969 | a continuation chained on the promise tail runs only after every earlier link has resolved |
| `EventQueue.OneHolder` | src/server/OrbitalServerRuntime.ts:1962-1970 | no two tickets of the promise chain are held at once |
| `EventQueue.GrantsFollowAcquisition` | src/server/OrbitalServerRuntime.ts:1962-1970 | the only ticket that can be granted is the oldest one not yet granted, and only while none is held |
| `EventQueue.ChainRefinesMutex` | src/server/OrbitalServerRuntime.ts:1962-1970 | acquire, grant and release on the chain of promises are the steps of a first-in first-out mutex; a link that settles changes nothing |
| `EventQueue.NeverStuck` | src/server/OrbitalServerRuntime.ts:1962-1970 | a queue that nobody holds, its links settled, can grant its next ticket |
| `EventQueue.DrainGrantsEveryTicket` | src/server/OrbitalServerRuntime.ts:1962-1985 | when every holder releases, every ticket is granted, in the order of acquisition |
| `EventQueue.TicketStepsAreTheMutexs` | src/server/OrbitalServerRuntime.ts:1962-1970 | each step on the tickets is enabled only as the mutex allows and leaves exactly the mutex's next state |
| `EventQueue.QueueRefinesMutex` | src/server/OrbitalServerRuntime.ts:1978-2004 | every step of the calls (arrive, enter, go outside, return, settle, early settles included) is a step of the mutex |
| `EventQueue.OneRunAtATime` | src/server/OrbitalServerRuntime.ts:1978-2004 | over every interleaving, runs that settle during their own outside call included, at most one run holds the queue, and a held ticket belongs to a call whose hold has it |
| `EventQueue.ReturnRejoinsBehind` | src/server/OrbitalServerRuntime.ts:1994-2004 | a run that left for a service rejoins behind everything queued meanwhile |
| `EventQueue.SettlingFreesTheQueue` | src/server/OrbitalServerRuntime.ts:1978-1985 | a run that settles with the queue in hand, result or failure, releases its hold and the next ticket is grantable once the chain catches up; one that settles without it touches no ticket |
| `EventQueue.LiveExactlyWhenOrderly` | src/server/OrbitalServerRuntime.ts:1978-2004 | over any run, no finished run is left queued or holding exactly when every settle came with the queue in hand and no finished run asked to go outside |
| `EventQueue.HoldsHaveRunsExactlyWhenOrderly` | src/server/OrbitalServerRuntime.ts:1978-2004 | over every run from an idle queue: exactly when its steps are such does every held ticket, in every orderly continuation, have a run still to release it |
| `EventQueue.StrandedRunsComeToHold` | src/server/OrbitalServerRuntime.ts:1994-2004 | from any state where a finished run is still outside or queued there is an orderly continuation after which a hold has no run left to release it |
| `EventQueue.AFinishedHolderBlocksTheQueue` | src/server/OrbitalServerRuntime.ts:1982-2004 | a ticket held by a finished run stays held and nothing more is granted, unless that run asks for another outside call |
| `EventQueue.AnEarlySettleWedgesTheQueue` | src/server/OrbitalServerRuntime.ts:1978-2004 | the failing run: arrive, enter, go outside, settle, return, enter ends with ticket 1 held, its run finished, and no other step that frees it |
| `EventQueue.AnUnreleasedHoldBlocksTheQueue` | src/server/OrbitalServerRuntime.ts:1994-2003 | on the tickets alone: a held ticket that is never released stays held and keeps every later one waiting, whatever else is done; its release is the one step that frees the queue |
| `EventQueue.OrbitalEventQueue.Acquire` | src/server/OrbitalServerRuntime.ts:1962-1970 | acquiring adds one ticket at the end of the chain |
| `EventQueue.OrbitalEventQueue.Enter` | src/server/OrbitalServerRuntime.ts:1978-1981 | the awaited acquisition resolves: the hold is held under its own ticket |
| `EventQueue.OrbitalEventQueue.Outside` | src/server/OrbitalServerRuntime.ts:1994-1997 | a held hold is released; a hold not held changes nothing |
| `EventQueue.OrbitalEventQueue.Return` | src/server/OrbitalServerRuntime.ts:1998-2003 | the hold is acquired again, at the end of the queue |
| `EventQueue.OrbitalEventQueue.Settle` | src/server/OrbitalServerRuntime.ts:1982-1984 | the run's end releases its hold, failed or not |
| `RegistrationGate.OutermostMutationsNeverOverlap` | src/server/OrbitalServerRuntime.ts:660-677 | over every interleaving, while one outermost bracket or registration runs, every later one is still queued |
| `RegistrationGate.BracketsWaitForAllBefore` | src/server/OrbitalServerRuntime.ts:1330-1353 | whatever goes on, an outermost bracket begins only once every outermost mutation that had joined before it has ended |
| `RegistrationGate.NestedBracketsRunAtOnce` | src/server/OrbitalServerRuntime.ts:1342-1350 | a bracket opened inside a running one begins at once |
| `RegistrationGate.RegisteringInsideABracketNeverWaits` | src/server/OrbitalServerRuntime.ts:660-667 | a registration or clearing made inside an open bracket leaves the epoch as it is, so it never waits for its own gate |
| `RegistrationGate.LookupsResumeAfterTheSwap` | src/server/OrbitalServerRuntime.ts:1650-1657 | from any reachable state and whatever goes on, a lookup that misses reads the map again only after every outermost bracket, registration and clearing that had joined the epoch at the miss has ended |
| `RegistrationGate.EndingOpensTheGate` | src/server/OrbitalServerRuntime.ts:1354-1357 | ending opens the gate, and a failed end is the same as a good one |
| `RegistrationGate.NeverStuck` | src/server/OrbitalServerRuntime.ts:1330-1358 | until all is over something can go on: a link, a waiting body, a running body or a waiting lookup |
| `RegistrationGate.GoingOnLeavesLess` | src/server/OrbitalServerRuntime.ts:1330-1358 | each link that settles, body that begins or ends and lookup that reads again leaves exactly one thing less to do |
| `RegistrationGate.AllComesToAnEnd` | src/server/OrbitalServerRuntime.ts:1330-1358 | from every reachable state, with nothing new asked for, every mutation ends and every lookup reads again |
| `RegistrationGate.RegisteringOutsideJoins` | src/server/OrbitalServerRuntime.ts:660-677 | with no bracket open, a registration and a clearing join the epoch and wait behind every outermost mutation that is not over |
| `RegistrationGate.DepthCountsOpenBrackets` | src/server/OrbitalServerRuntime.ts:658-658 | `registrationMutationDepth` is the number of open brackets after every step |
| `RegistrationGate.RegistrationEpoch.OpenBracket` | src/server/OrbitalServerRuntime.ts:1330-1341 | the gate is published and the depth raised before anything is awaited |
| `RegistrationGate.RegistrationEpoch.Finish` | src/server/OrbitalServerRuntime.ts:1354-1357 | the depth is lowered and the gate opened |
| `RegistrationGate.RegistrationEpoch.Register` | src/server/OrbitalServerRuntime.ts:660-677 | a registration joins the epoch exactly when no bracket is open |
| `RegistrationGate.RegistrationEpoch.Stamp` | src/server/OrbitalServerRuntime.ts:1284-1287 | a clearing stamps the epoch exactly when no bracket is open |
| `RegistrationGate.RegistrationEpoch.ReadEpoch` | src/server/OrbitalServerRuntime.ts:1650-1655 | a missed lookup waits for every gate published so far, the machine's miss |
| `CredentialRows.UpdateAt` | src/host/chrome/credentials.ts:41-44 | an update rewrites the one row of that id, merging fields, and leaves every other row |
| `CredentialRows.DeleteAt` | src/host/chrome/credentials.ts:45-48 | a delete removes the one row of that id and keeps the others in order |
| `CredentialStore.TryKeysOpens` | src/host/credentials/store.ts:206-213 | trying the candidate keys yields exactly the value the row's own key sealed for that identity, and nothing when that key is not held |
| `CredentialStore.ReadableExactlyWhen` | src/host/credentials/store.ts:221-244 | a warm reads exactly the rows whose fields are in place and whose box a held key, the stamped one if there is a stamp, sealed for their own identity |
| `CredentialStore.ReadingsKeepTheFields` | src/host/credentials/store.ts:245-256 | and it reads every field as the row has it |
| `CredentialStore.RotationSealsAnew` | src/host/credentials/store.ts:332-375 | a readable row is left sealed under the current key for the same identity, with service, label and value kept; exactly the rows under another key are re-encrypted and dated anew, and unreadable ones are untouched |
| `CredentialStore.RotatedRowReadsTheSame` | src/host/credentials/store.ts:323-379 | a rotated row reads the same under the current key alone as under both keys before |
| `CredentialStore.RotationKeepsEveryValue` | src/host/credentials/store.ts:323-379 | after a rotation a store with the current key alone resolves every identity to what the two-key store resolved, and nothing more |
| `CredentialStore.RotationLeavesUnreadableRows` | src/host/credentials/store.ts:334-352 | a row no held key reads, malformed ones included, is not written |
| `CredentialStore.SecondRotationWritesNothing` | src/host/credentials/store.ts:353-362 | a second rotation writes no row, with or without the previous key |
| `CredentialStore.SecondRotationRotatesNone` | src/host/credentials/store.ts:323-379 | a second rotation counts none rotated, the first's rotated and current as current, and the same unreadable |
| `CredentialStore.RotatedRowIsCurrent` | src/host/credentials/store.ts:353-362 | a rotated row is classified current, with or without the previous key, and rewriting it changes nothing |
| `CredentialStore.Count` | src/host/credentials/store.ts:328-375 | rotated, alreadyCurrent and unreadable add up to the number of rows |
| `CredentialStore.TheReportCountsRows` | src/host/credentials/store.ts:328-375 | rotated counts exactly the rows read under another key than the current one, unreadable exactly those no held key reads, alreadyCurrent the rest |
| `CredentialStore.RotationRewritesTheTable` | src/host/credentials/store.ts:323-379 | without a master key a rotation fails and changes nothing; else no row is left under another key, those readable are sealed anew, the others untouched, and the report counts them |
| `CredentialStore.IndexedRow` | src/host/credentials/store.ts:221-259 | an index entry is the last readable row of its identity, and holds that row's value, label and id |
| `CredentialStore.SetKeepsSynced` | src/host/credentials/store.ts:292-315 | a `set` leaves the index a fresh warm would build, and readable identities distinct, exactly when it fails or names a non-empty service and variable |
| `CredentialStore.SetsFailInOrder` | src/host/credentials/store.ts:292-300 | a `set` fails for an empty principal, else for an empty account, else without a key, exactly then, and a failed one writes no row |
| `CredentialStore.UnnamedSetBreaksSynced` | src/host/credentials/store.ts:292-315 | a successful `set` with an empty service or variable indexes what no warm reads back |
| `CredentialStore.RemoveKeepsSynced` | src/host/credentials/store.ts:424-433 | after `remove` the index is what a fresh warm would build and no row of the identity is left; the answer is whether a readable one was there, warmed before or not |
| `CredentialStore.RotateKeepsSynced` | src/host/credentials/store.ts:323-379 | the same after `rotate` |
| `CredentialStore.IndexAgreesWithRows` | src/host/credentials/store.ts:221-433 | after any sequence of warm, remove, rotate and `set`s that name a service and a variable, the index is what a fresh warm would build and readable identities are distinct |
| `CredentialStore.RemoveNeedsDistinctIdentities` | src/host/credentials/store.ts:424-433 | removing an identity leaves the index a fresh warm would build exactly when no other readable row has that identity |
| `CredentialStore.TwoInstancesLeaveADuplicate` | src/host/credentials/store.ts:292-433 | two stores that each set the same new identity leave two rows of it; after a warm the later one resolves, and after its removal the index has none while a fresh warm resolves the earlier value |
| `CredentialSets.AloneItIsTheSet` | src/host/credentials/store.ts:297-310 | looking the entry up, writing the row and indexing the entry, one after another, are the store's `set` |
| `CredentialSets.SetsKeptApartStayRight` | src/host/credentials/store.ts:292-315 | sets of different identities may interleave as they like: every identity with no set under way is indexed as a fresh warm would index it |
| `CredentialSets.AnOverlapDrifts` | src/host/credentials/store.ts:292-315 | a set that begins while another of its identity is under way, new or stored, has a continuation after which both are over and a warm would index the identity otherwise |
| `CredentialSets.IndexStaysRightExactlyWhenApart` | src/host/credentials/store.ts:292-315 | over any run of sets that write different rows, the index stays right, however the run is cut short and goes on, exactly when no two sets of one identity overlap |
| `CredentialStore.ASetDuringRotationSurvivesOnlyOnCurrentRows` | src/host/credentials/store.ts:331-374 | a `set` that lands between rotation's listing and its write of that row survives exactly when the listed row was stamped with the current key; otherwise the listed value is put back |
| `CredentialStore.Credentials.Warm` | src/host/credentials/store.ts:221-259 | the loop over the rows builds the index and counts it |
| `CredentialStore.Credentials.Set` | src/host/credentials/store.ts:292-315 | `set` updates or creates the row and the index together, or fails and changes nothing |
| `CredentialStore.Credentials.Remove` | src/host/credentials/store.ts:424-433 | `remove` deletes the row and the entry together, and says whether there was one |
| `CredentialStore.Credentials.RotateAll` | src/host/credentials/store.ts:323-375 | the loop rewrites every row as a whole-table rotation does, and its three counters are that rotation's |
| `CredentialStore.Credentials.Rotate` | src/host/credentials/store.ts:323-379 | rotation fails without a master key; else rows, report and re-warmed index are those of the specification |
| `ChromeRows.NoUpdateIsLost` | src/host/chrome/credentials.ts:17-28 | over any interleaving the stored array is the submitted changes that did not fail, applied in the order submitted, and the queue is what is still to run |
| `ChromeRows.EverySubmissionIsChained` | src/host/chrome/credentials.ts:24-28 | the changes submitted are exactly those asked for, in order: a failure ahead of a change does not drop it |
| `ChromeRows.QueuedChangesLand` | src/host/chrome/credentials.ts:24-28 | the chain goes on: each queued change reads and writes in its turn until none is left, on what landed before it |
| `ChromeRows.FailuresStopNobody` | src/host/chrome/credentials.ts:24-28 | a change that fails is over, leaves the rows as they are, and those after it land all the same |
| `ChromeRows.ChangesTouchOneId` | src/host/chrome/credentials.ts:35-49 | an added row comes last with its id, a merge and a drop touch just the rows of their id |
| `OneUseSecrets.TakesNeverOutnumberHolds` | src/host/credentials/store.ts:387-421 | over any interleaving of instances with a conditional delete, takes that return a value never outnumber holds of that slot |
| `OneUseSecrets.NoExpiredValueIsReturned` | src/host/credentials/store.ts:403-420 | a returned value is that of a write to the same slot, sealed under a key the taker holds, and unexpired at the time asked |
| `OneUseSecrets.ATakeEndsWithItsDelete` | src/host/credentials/store.ts:408-420 | a take gives the value it read exactly when its delete was not refused, a key it holds opens it and it has not expired; then the row is gone and the take is over |
| `OneUseSecrets.UnconditionalDeleteGivesTwice` | src/host/credentials/store.ts:410-416 | without a conditional delete two instances both return the value of one hold |
| `HttpSecrets.TakesGiveNoMoreThanPut` | src/kernel/http-exchange.ts:240-284 | over any sequence of operations on both tiers, takes give no more values than were put and left |
| `HttpSecrets.MintedValuesAreAnswered` | src/kernel/http-exchange.ts:230-245 | whatever is done meanwhile with other names, a minted value is answered exactly until its expiry |
| `HttpSecrets.HeldValuesAreTaken` | src/kernel/http-exchange.ts:260-284 | a held value is given, in either tier, to the first take before its expiry and to no later take or get |
| `HttpSecrets.LooksChangeNoLaterAnswer` | src/kernel/http-exchange.ts:230-239 | a get drops a value only once it has expired, so no later answer changes |
| `HttpSecrets.ForgettingTakesOneName` | src/kernel/http-exchange.ts:246-259 | a forgotten value is not answered and no other name is touched |
| `HttpSecrets.Secrets.HoldOnce` | src/kernel/http-exchange.ts:260-271 | a hold replaces the minted copy: shared when the store shares, else minted, and a lifetime of zero or less keeps neither anew |
| `HttpSecrets.Secrets.TakeOnce` | src/kernel/http-exchange.ts:272-284 | a take consumes the shared copy first, else the minted one; an expired one is consumed and not returned |
| `HttpSecrets.Secrets.GetMinted` | src/kernel/http-exchange.ts:230-239 | a minted value is answered strictly before its expiry and dropped after |
| `HttpSecrets.Secrets.SetMinted` | src/kernel/http-exchange.ts:240-245 | a positive lifetime mints the value until then; otherwise the minted value goes |
| `OneUseSecrets.OneHoldIsGivenOnce` | src/host/credentials/store.ts:387-421 | a slot held once is given once: of all the takes by all the instances at most one returns its value |
| `OneUseSecrets.EachWriteOnceExactlyWhenRiskFree` | src/host/credentials/store.ts:387-421 | over any run: no write is given to two takes, however the run is cut short and one more delete lands, exactly when no hold lands in a slot where a take that has looked has yet to delete a write already given to another |
| `OneUseSecrets.RiskyHoldsDouble` | src/host/credentials/store.ts:387-421 | from any state, after a hold that lands so, the delete of the waiting take gives a write a second time |
| `OneUseSecrets.UndisturbedTakesAreSafe` | src/host/credentials/store.ts:387-421 | a slot may be held again any number of times: while no hold lands between a take's look and its delete, each write is given at most once |
| `OneUseSecrets.AReplacedValueIsGivenTwice` | src/host/credentials/store.ts:387-421 | the failing run: a slot held again while two takes are on their way gives the first value twice and the second never, conditional delete or not |
| `HttpSecrets.PendingNamesAreDistinct` | src/kernel/oauth-port.ts:128-138 | different states have different slots |
| `HttpSecrets.FreshStateAnswers` | src/kernel/oauth-port.ts:128-145 | a fresh state answers its grant up to and including its expiry by the port's clock, expired after, and missing once the secrets' clock reaches the end of the grace: each exactly then |
| `HttpSecrets.GrantsComeFromTakes` | src/kernel/oauth-port.ts:135-145 | every grant answered comes from a take that gave a value |
| `HttpSecrets.SharedAnswersFollowTheWrite` | src/kernel/oauth-port.ts:135-145 | a take that gave a value answers the grant written, up to its inclusive expiry, and expired after |
| `HttpSecrets.StateIsGrantedAtMostOnce` | src/kernel/oauth-port.ts:128-145 | a state put once is granted at most once, whatever else is done with the secrets |
| `HttpSecrets.SharedStateIsGrantedAtMostOnce` | src/kernel/oauth-port.ts:128-145 | across instances that share a store, of the takes of a state put once at most one answers its grant, and only up to its inclusive expiry |
| `RealPath.Lexical` | src/kernel/os-node-fs.ts:92-104 | the loop computes the normal form, and fails exactly when a `..` climbs above the root |
| `RealPath.NormalFailsExactlyOnClimbs` | src/kernel/os-node-fs.ts:92-104 | a path has no normal form exactly when some prefix of it holds more `..` than names |
| `RealPath.NormalIsIdempotent` | src/kernel/os-node-fs.ts:92-104 | normalising a normal path changes nothing |
| `RealPath.ComponentsOfRender` | src/kernel/os-node-fs.ts:125-127 | a rendered list of names splits back into it |
| `RealPath.ParentOfRender` | src/kernel/os-node-fs.ts:110-113 | the parent of a rendered path is the rendered path without its last name, the root its own parent |
| `RealPath.RenderAppend` | src/kernel/os-node-fs.ts:106-108 | joining a name to a rendered path renders the longer list |
| `RealPath.ResolveReal` | src/kernel/os-node-fs.ts:130-160 | the loop ends on every file system and answers as the recursive resolution does, errors included |
| `RealPath.FollowedPathIsLinkFree` | src/kernel/os-node-fs.ts:130-160 | from a link-free directory, whatever is resolved with the last link followed is link-free |
| `RealPath.ResolvedPathHasNoLink` | src/kernel/os-node-fs.ts:130-160 | with the last link followed, no prefix of the result is a link |
| `RealPath.ResolvingIsIdempotent` | src/kernel/os-node-fs.ts:130-160 | resolving such a result again gives it back, whether or not the last link is followed |
| `RealPath.UnfollowedPathIsNearlyLinkFree` | src/kernel/os-node-fs.ts:130-160 | with the last link left alone, everything before the last name of the result is link-free |
| `RealPath.UnfollowedResolvingIsIdempotent` | src/kernel/os-node-fs.ts:130-160 | resolving again with the last link left alone gives the same |
| `RealPath.WithoutLinksResolvingIsNormalising` | src/kernel/os-node-fs.ts:92-160 | on a file system without links a path with a normal form resolves to it unless a lookup fails, and the normal form resolves to itself |
| `RealPath.BudgetOnlyLimits` | src/kernel/os-node-fs.ts:149-151 | a larger link budget never changes an answer other than the too-many-links error |
| `RealPath.CircularLinksNeverResolve` | src/kernel/os-node-fs.ts:149-151 | links that lead to one another, absolutely or from their own directories, in a circle of any length, fail with too many links under every budget |
| `RealPath.SelfLinkNeverResolves` | src/kernel/os-node-fs.ts:149-151 | a link to its own path fails with too many links under every budget |
| `ByteSource.ReadFile` | src/kernel/os-node-fs.ts:531-548 | with reads of any positive size, the loop returns exactly the file's bytes from the position, as many as asked or as are left, and advances by that much |
| `ByteSource.StepKeepsInv` | src/kernel/os-node-support.ts:258-339 | every stream event, call and poll keeps the accounting invariant |
| `ByteSource.BytesAreConserved` | src/kernel/os-node-support.ts:258-339 | over every interleaving, what the reads handed out in call order, then what is held, is exactly the chunks the run delivered; the reads answered, then those queued, are the reads asked for |
| `ByteSource.QueuedReadsAreServed` | src/kernel/os-node-support.ts:293-318 | once the stream is over, every queued read is answered, in the order asked for |
| `ByteSource.PausedExactlyAboveTheMark` | src/kernel/os-node-support.ts:267-272 | `held` is the sum of the chunk lengths and the stream is paused exactly while it exceeds the high-water mark |
| `ByteSource.OnlyDataConsumes` | src/kernel/os-node-support.ts:301-318 | over every interleaving, sleeping reads woken by their timer included: a timed-out or failed read takes nothing and happens only over an empty buffer; a read over held bytes gives some |
| `ByteSource.HeldBytesAreGiven` | src/kernel/os-node-support.ts:301-305 | over held bytes a read is given as many as it wants and there are, the first ones; a read of nothing gets nothing |
| `ByteSource.AnEmptyBufferAnswers` | src/kernel/os-node-support.ts:301-318 | over an empty buffer, in every run: failure exactly when the stream broke, empty data exactly when it ended unbroken, timeout exactly when neither happened and the timeout has passed since the read's turn came; else it sleeps |
| `ByteSource.NoReadSleepsOverData` | src/kernel/os-node-support.ts:287-318 | a sleeping read is never left asleep over bytes, an end or a failure |
| `ByteSource.FlattenDrop` | src/kernel/os-node-support.ts:320-335 | dropping bytes chunk by chunk drops that many bytes of the whole |
| `ByteSource.ByteBuffer.OnData` | src/kernel/os-node-support.ts:267-272 | a chunk is appended, counted, pauses the stream above the mark and wakes the reader |
| `ByteSource.ByteBuffer.Slice` | src/kernel/os-node-support.ts:320-339 | the loop takes at most the wanted bytes off the front, and resumes the stream at or below the mark |
| `ByteSource.ByteBuffer.PollOnce` | src/kernel/os-node-support.ts:304-318 | one round answers data, failure, end or timeout, or goes on waiting |
| `ByteSource.ByteBuffer.Take` | src/kernel/os-node-support.ts:294-298 | a read waits behind those called before it |
| `Base64.SymbolsAreTheAlphabet` | src/kernel/os-node-support.ts:68-68 | the alphabet is that of section 4 of RFC 4648, in its order |
| `Base64.CheckAcceptsCanonical` | src/kernel/os-node-support.ts:71-89 | the decoder accepts exactly groups of four symbols with the padding of section 3.2 and no stray bits (section 3.5) |
| `Base64.DecodeStandardBase64` | src/kernel/os-node-support.ts:71-90 | the scan answers as the specification decodes, with its failure and offset |
| `Base64.BadBytesAreReported` | src/kernel/os-node-support.ts:72-76 | a byte is reported with its offset exactly when it is the first outside the alphabet before the padding |
| `Base64.BadLengthsAreReported` | src/kernel/os-node-support.ts:77-82 | otherwise the length is at fault exactly with one symbol over, and the padding with any but the one that completes the last group |
| `Base64.StrayBitsAreReported` | src/kernel/os-node-support.ts:83-87 | and the last symbol exactly when it holds bits the padded group has no room for |
| `Base64.DecodeInvertsEncode` | src/kernel/os-node-support.ts:71-102 | decoding the encoding of any bytes gives them back |
| `Base64.EncodeInvertsDecode` | src/kernel/os-node-support.ts:71-102 | re-encoding any accepted text gives that text, and a text is accepted exactly when it encodes some bytes |
| `EffectWalk.WalkByShape` | src/traits/trait-index.ts:138-170 | the walk looks at exactly what is evaluated: bound values but no names, bodies but no parameters, no statically false branch |
| `EffectWalk.WalkIsSound` | src/traits/trait-index.ts:138-170 | if the walk answers false, no run reaches a matching call |
| `EffectWalk.WalkIsComplete` | src/traits/trait-index.ts:138-170 | if the walk answers true, it names a run that reaches a matching call |
| `EffectWalk.WalkIsExact` | src/traits/trait-index.ts:138-170 | the walk answers true exactly when some run reaches a matching call |
| `EffectWalk.WalkDistributes` | src/traits/trait-index.ts:138-197 | the verdict for either of two predicates is the verdict for one or the other |
| `Residence.VerdictsCoverServerCalls` | src/traits/trait-index.ts:177-228 | whatever server-registered call a live transition can make, its leg is the server's or the browser store's |
| `Residence.ServerVerdictIsExact` | src/traits/trait-index.ts:215-228 | a leg is a server leg exactly when some run of a live transition on its event reaches a call placed on the server |
| `Residence.BrowserVerdictIsExact` | src/traits/trait-index.ts:230-256 | a leg is a browser leg exactly when some run of a live transition, or of a client tick of that event, reaches a call browser storage took off the server |
| `Residence.ConcernsWhoIsInTheLeg` | src/evaluation/residence-transport.ts:27-39 | a leg reaches the traits the request names as target, source, cascade or mount, and when it names none those of its orbital |
| `Residence.JudgedByItsEvent` | src/evaluation/residence-transport.ts:28-39 | each is judged by the event its last entry names, else by the request's |
| `Residence.RoutesFollowReach` | src/evaluation/residence-transport.ts:46-60 | a request whose runs reach data on both sides is refused; one that reaches browser data alone stays local; any other goes to the server exactly when there is one, and with none is refused exactly when it reaches server data |
| `Residence.TickLegsIgnoreServerEffects` | src/traits/trait-index.ts:220-227 | a tick with server effects touches the server, yet its own event, which no transition has, is routed locally with no server to call, where a transition with the same effects is refused |
| `Residence.GroupSeeds` | src/evaluation/residence-transport.ts:62-68 | the loop groups the seeds by their own routing, the residences in the order first reached, and fails exactly when some seed has none |
| `Residence.MountLegs` | src/evaluation/residence-transport.ts:62-84 | one leg per residence reached, in the order first reached, each carrying its own seeds, traits and entities; it fails exactly when some seed's routing does |
| `Residence.LegSeedsAreTheRouted` | src/evaluation/residence-transport.ts:69-78 | a leg's seeds are those its own routing sends there, in their order |
| `Residence.LegsPartitionTheBatch` | src/evaluation/residence-transport.ts:62-84 | the legs' seeds together are the batch: none lost and none doubled |
| `MountMerge.MergeLast` | src/evaluation/residence-transport.ts:111-142 | merging one response more combines it, field by field, with the merge so far |
| `MountMerge.CombineIsAssociative` | src/evaluation/residence-transport.ts:111-142 | combining responses is associative |
| `MountMerge.MergeInParts` | src/evaluation/residence-transport.ts:111-142 | merging a concatenation is combining the merges of its parts |
| `MountMerge.MergeOfMerges` | src/evaluation/residence-transport.ts:111-142 | merging the two merged halves gives the merge of the whole list |
| `MountMerge.NoRowIsLost` | src/evaluation/residence-transport.ts:116-117 | an entity's merged rows are every response's rows for it, in order |
| `MountMerge.MergeDropsTransitions` | src/evaluation/residence-transport.ts:120-141 | one response alone keeps every field but `transitions`, which no merge carries |
| `MountMerge.AddEntries` | src/evaluation/residence-transport.ts:117-117 | the loop over one response's entities appends their rows to those gathered, whatever the order of the entries |
| `MountMerge.GatherData` | src/evaluation/residence-transport.ts:116-117 | the loop over the responses gathers every entity's rows in response order |
| `PushResume.RenderedFramesParse` | src/server/EventTransport.ts:188-193 | what `since` carries parses back whole, dashes in the boot included; only an empty boot does not |
| `PushResume.ParsedFramesAreSpelled` | src/server/EventTransport.ts:188-193 | among decimal spellings an id parses exactly when it is a non-empty boot, a dash and digits, and an id with no digits numbers zero |
| `PushResume.HandedUnlessCovered` | src/server/EventTransport.ts:217-231 | a readable message is handed on unless the key remembers its frame or a later one of its boot; exactly the numbered ones handed on under a key are remembered |
| `PushResume.NoFrameIsAppliedTwice` | src/server/EventTransport.ts:226-229 | however many channels share a key and however they reopen, between changes of boot applied frames only go forward |
| `PushResume.OneChannelIsOneAtATime` | src/server/EventTransport.ts:202-246 | any run of a single channel has its streams open one at a time |
| `PushResume.ReconnectsSkipNothing` | src/server/EventTransport.ts:202-246 | while streams of a key are open one at a time, whichever channels take turns and across any reconnects and restarts, an applied frame is followed by the boot's next readable frame or a frame of another boot |
| `PushResume.AppliedAreTheReadable` | src/server/EventTransport.ts:202-246 | on one boot the applied frames are exactly the readable ones between the first and the last |
| `PushResume.ContiguousWhenAllReadable` | src/server/EventTransport.ts:217-229 | while streams are open one at a time, the applied frames of one boot are a contiguous run exactly when no frame between the first and the last failed to parse |
| `PushResume.AnUnreadableFrameLeavesAGap` | src/server/EventTransport.ts:217-229 | the failing run: of three frames sent, the second unreadable, the first and the third are applied |
| `PushResume.ResumedFromTheRemembered` | src/server/EventTransport.ts:317-321 | the address given to a reopened stream reads back as the remembered frame: the server starts it no later than the frame after exactly on that boot |
| `PushResume.SharedKeyStarvesAChannel` | src/server/EventTransport.ts:226-229 | an example: of two channels open under one key, what one has applied the other drops |
| `PushStreams.OneStreamAtATimeStarvesNobody` | src/server/EventTransport.ts:202-246 | while streams of a key are open one at a time, channels handing over to one another included, no stream has a readable frame it was not resumed past and would drop |
| `PushStreams.TwoStreamsCanStarve` | src/server/EventTransport.ts:226-229 | from any state with two open streams there is a continuation, by those channels alone, in which the one drops a readable frame because the other ran ahead |
| `PushStreams.StarvesExactlyWhenShared` | src/server/EventTransport.ts:202-246 | the open channels of a key, all up with what was applied, can come to starve one another exactly when there are two of them |
| `PushResume.ReturningToABootRepeats` | src/server/EventTransport.ts:226-229 | an example: a stream that goes back to an earlier boot applies that boot's frame a second time |
| `PushRepeats.ForwardExactlyWhenNoneFallsBack` | src/server/EventTransport.ts:226-229 | over any run, the applied frames of every boot only go forward exactly when no stream of a boot other than the remembered one delivers a readable frame at or below one already applied there; then none is applied twice |
| `PushRepeats.RepeatsExactlyWhenUnguarded` | src/server/EventTransport.ts:202-246 | opening a stream can lead that stream to apply a frame a second time exactly when its boot is not the remembered one and it starts at or below a frame applied of that boot |
| `PushRepeats.GuardedRunsRepeatNothing` | src/server/EventTransport.ts:202-246 | a run of one stream at a time in which every opening is on the remembered boot, or above all applied of its own, applies no frame twice |
| `PushResume.PushChannel.Since` | src/server/EventTransport.ts:317-321 | an address is given exactly when the channel has a resume key with a remembered frame; it reads back as that frame, and binds where the server starts by that frame alone |
| `PushResume.PushChannel.OnMessage` | src/server/EventTransport.ts:217-231 | a message is dropped when unreadable or already applied; else remembered and handed to every subscriber in order |
| `PushResume.PushChannel.Unsubscribe` | src/server/EventTransport.ts:252-259 | the subscriber leaves and the channel closes for good when it was the last |
| `Ticks.PhaseIsKept` | src/time/TickScheduler.ts:192-214 | over any history a tick's accumulator is its active time modulo its interval |
| `Ticks.SchedulerTicksKeepPhase` | src/time/TickScheduler.ts:192-215 | every tick of the scheduler, over all it has lived through: its accumulator is its active time modulo its interval, and its firings are at most the whole intervals, equal exactly when every pass took in at most one |
| `Ticks.FiresWhenABeatIsPassed` | src/time/TickScheduler.ts:208-213 | a pass fires exactly when the number of whole intervals of active time grows, and at most once |
| `Ticks.MissedBeatsAreDropped` | src/time/TickScheduler.ts:208-213 | firings never exceed the whole intervals of active time, and equal them exactly when every pass took in at most one |
| `Ticks.HealthyPassesFireEveryBeat` | src/time/TickScheduler.ts:204-213 | with no gap over one interval a tick fires once for every whole interval of active time |
| `Ticks.PausedTimeNeverCounts` | src/time/TickScheduler.ts:148-157 | however long a pause lasts, all that follows it runs the same, its clock shifted |
| `Ticks.TheFirstPassBackCountsNothing` | src/time/TickScheduler.ts:148-157 | after a pause the first pass counts nothing and fires nothing, for interval ticks and cron ticks alike |
| `Ticks.FrameTicksFireEveryPass` | src/time/TickScheduler.ts:81-81 | an interval of zero or less fires on every pass |
| `Ticks.APassAdvancesEachOnce` | src/time/TickScheduler.ts:192-215 | a pass advances every registered tick once from where it stood, and fires exactly those then due |
| `Ticks.TickScheduler.Add` | src/time/TickScheduler.ts:76-92 | a tick is registered under a new id and the loop runs unless paused |
| `Ticks.TickScheduler.AddCron` | src/time/TickScheduler.ts:100-119 | the same for a cron tick; its first pass only starts the clock and its second checks the calendar, whatever the time between |
| `Ticks.TickScheduler.Stop` | src/time/TickScheduler.ts:86-90 | just that tick goes, and the loop stops with the last one |
| `Ticks.TickScheduler.Suspend` | src/time/TickScheduler.ts:135-139 | a pause stops the loop and keeps every tick |
| `Ticks.TickScheduler.Continue` | src/time/TickScheduler.ts:148-157 | ending a pause forgets every tick's last pass; otherwise nothing changes |
| `Ticks.TickScheduler.Pass` | src/time/TickScheduler.ts:192-215 | one pass leaves the ticks and firings the walk over them in order of registration gives |
| `Cron.KeysFollowTheCalendar` | src/time/cron.ts:73-81 | the minute key orders minutes as the calendar does, is one number per minute and is never the initial -1 |
| `Cron.StepsMustClimb` | src/time/cron.ts:27-31 | a stepped part's loop ends exactly when some number of steps passes the maximum |
| `Cron.AZeroStepIsEndless` | src/time/cron.ts:27-31 | the failing input: a step of zero from a start in range never passes the maximum |
| `Cron.WalkSteps` | src/time/cron.ts:31-31 | the loop yields exactly the values reached by whole steps from the start up to the maximum |
| `Cron.PartValues` | src/time/cron.ts:24-37 | a part yields exactly the values it denotes |
| `Cron.ParseField` | src/time/cron.ts:22-40 | the parts of a field together yield exactly the values some part denotes |
| `CronText.ParseCronField` | src/time/cron.ts:18-40 | a field as written, split at its commas, slashes and dashes, yields exactly the values its parts denote |
| `CronText.SpelledFieldsRead` | src/time/cron.ts:18-40 | a field written from any stars, stepped starts, ranges and numbers reads back as those parts |
| `CronText.ParseCron` | src/time/cron.ts:36-52 | an expression is refused exactly when it has not five fields; a date matches exactly when each field says its minute, hour, day, month counted from one, and weekday |
| `CronText.SpelledExpressionsRead` | src/time/cron.ts:36-52 | however it is spaced, an expression written from such fields reads back as them |
| `Cron.OncePerMinute` | src/time/TickScheduler.ts:218-233 | under a forward clock a cron tick fires at most once in a calendar minute, in order, and only in matching minutes |
| `Cron.AWatchedMinuteFires` | src/time/TickScheduler.ts:218-233 | passes that span a second of a matching minute have fired it |
| `Cron.FirstCountedPassChecks` | src/time/TickScheduler.ts:218-233 | a fresh cron tick never fires on its first pass and fires on its second exactly when that minute matches |
| `Cron.ChecksAreASecondApart` | src/time/TickScheduler.ts:218-226 | a pass that does not check ignores the date and fires nothing; after one that does the next check is a second later |
| `Cron.ChecksFireNewMatchingMinutes` | src/time/TickScheduler.ts:227-233 | a check fires exactly when its minute matches and is not the one last fired |
| `Cron.PausedTimeIsNotCounted` | src/time/TickScheduler.ts:148-157 | the pass that ends a pause, however long, only takes up the clock |
| `Channel.SettlesOnceWithItsAnswer` | src/server/channel-transport.ts:33-72 | over every interleaving no request settles twice, and each settles with what the host computed for that request or with the closed failure |
| `Channel.SendsGetReplies` | src/server/channel-transport.ts:73-79 | a `send` is never answered out of protocol |
| `Channel.AnsweredHostsSettleEverything` | src/server/channel-transport.ts:106-122 | when the host has taken and answered everything and its replies have arrived, nothing is left waiting |
| `Channel.ArrivingRepliesSettleEverything` | src/server/channel-transport.ts:36-42 | once the host has answered everything, the replies on their way settle all that waits as they arrive |
| `Channel.PendingStaysInOrder` | src/server/channel-transport.ts:47-64 | what waits stays in the order it was asked, the order a close fails it in |
| `Channel.ClosingSettlesEverything` | src/server/channel-transport.ts:43-57 | once closed nothing is pending, and every request has settled exactly unless an unregister dropped it |
| `Channel.TheCloseFailsWhatIsOpenAndWhatFollows` | src/server/channel-transport.ts:43-64 | from the close on, over any continuation, exactly the requests pending then and those made since settle with the closed failure, and nothing else settles |
| `Channel.ForgottenNeverSettles` | src/server/channel-transport.ts:70-72 | what an unregister drops never settles |
| `Channel.AnUnregisterForgets` | src/server/channel-transport.ts:54-72 | the failing run: a request, then an unregister, leaves the request neither pending nor settled |
| `Channel.ChannelTransport.Request` | src/server/channel-transport.ts:54-64 | a request gets a fresh id and is posted, or settles closed at once |
| `Channel.ChannelTransport.OnMessage` | src/server/channel-transport.ts:36-42 | a reply settles its pending request once and is ignored otherwise |
| `Channel.ChannelTransport.Close` | src/server/channel-transport.ts:47-52 | every pending request settles with the closed failure and none is pending |
| `Channel.ChannelTransport.Unregister` | src/server/channel-transport.ts:70-72 | nothing is pending any more and nothing settles |
| `HeldChannel.ListenersMissNothing` | src/server/channel-transport.ts:137-158 | whoever is listening has been handed, once each and in order, all that arrived since it began |
| `HeldChannel.LeavingEndsTheHanding` | src/server/channel-transport.ts:152-156 | whoever leaves is handed nothing more, and the others keep their turns |
| `HeldChannel.NewListenersComeLast` | src/server/channel-transport.ts:145-146 | a new listener comes after those before it |
| `HeldChannel.TheFirstListenerGetsEverything` | src/server/channel-transport.ts:137-158 | the first listener, however late, is handed everything that ever arrived, for as long as it listens |
| `HeldChannel.Holder.OnMessage` | src/server/channel-transport.ts:139-143 | a message is kept while nobody has listened, else handed to each listener |
| `HeldChannel.Holder.Subscribe` | src/server/channel-transport.ts:145-151 | the first listener takes over what was kept, in order; a later one starts now |
| `InFlight.CancelledExactlyBetween` | src/effects/in-flight-calls.ts:23-37 | for every interleaving a call is cancelled exactly when a cancel of its key fell between its start and its settle |
| `InFlight.InFlightByHistory` | src/effects/in-flight-calls.ts:12-14 | a key is in flight exactly when a call under it has started, not settled, and not been cancelled meanwhile |
| `InFlight.ASetPerKeyInFlight` | src/effects/in-flight-calls.ts:10-14 | a key has a set exactly when it is in flight, and the set's members are exactly its live calls |
| `InFlight.LateSettlesTouchNoKey` | src/effects/in-flight-calls.ts:35-36 | a cancelled call that settles late leaves every key's set as it is, a newer one under its own key included |
| `InFlight.InFlightCalls.Query` | src/effects/in-flight-calls.ts:12-14 | the answer is whether a live call under the key exists |
| `InFlight.InFlightCalls.Begin` | src/effects/in-flight-calls.ts:21-25 | a new call joins its key's set or starts one |
| `InFlight.InFlightCalls.Finish` | src/effects/in-flight-calls.ts:27-37 | a call reports cancelled exactly when it was cancelled by then, and leaves its own set |
| `InFlight.InFlightCalls.CancelAll` | src/effects/in-flight-calls.ts:40-47 | exactly the live calls of the key are aborted, and the answer is whether there was one |
| `EventBus.AnEmitCallsEachTargetOnce` | src/events/EventBus.ts:56-137 | whatever the listeners emit in turn, cycles included: each keyed listener is called once and then each wildcard, at the next depth; every other call is deeper; none is deeper than the limit; at the limit nobody is called |
| `EventBus.EveryEmitIsDealtWith` | src/events/EventBus.ts:56-137 | as a multiset, what an emit adds to the history is its own calls, or its drop, together with those of every event the listeners called on the way emit in turn: nothing is lost and nothing made up |
| `EventBus.KeyedListenersOnce` | src/events/EventBus.ts:84-112 | keyed delivery reaches exactly those under the key or the type, each once |
| `EventBus.WildcardsAreCalledAgain` | src/events/EventBus.ts:121-132 | a listener subscribed both by key or type and as a wildcard is called twice for one event |
| `EventBus.Emitter.Emit` | src/events/EventBus.ts:56-137 | an emit returns, restores the depth, and does exactly what the specification says |
| `EventBus.Emitter.DeliverTo` | src/events/EventBus.ts:104-117 | the loop calls those not yet delivered to, in order, and marks them |
| `EventBus.Emitter.Subscribe` | src/events/EventBus.ts:142-152 | a listener is added once, at the end of its type's set, and the handle keeps that set |
| `EventBus.NewListenersComeLast` | src/events/EventBus.ts:142-148 | a new listener is called after those before it, and one that listens already keeps its turn |
| `EventBus.WhoeverSubscribesListens` | src/events/EventBus.ts:142-158 | after any run of subscribing, unsubscribing and clearing, whoever subscribes then listens, behind those before it, and no other type changes |
| `EventBus.ClearingEndsAllListening` | src/events/EventBus.ts:187-190 | after a clear nobody listens to anything |
| `EventBus.Emitter.Unsubscribe` | src/events/EventBus.ts:152-158 | the listener leaves the set it was added to, on a first call or a later one; a set left empty takes its type's entry with it |
| `EventBus.OthersKeptExactlyWhenNotStale` | src/events/EventBus.ts:142-158 | an unsubscribe touches nobody but its own listener exactly when its set, if left empty, is still the type's or nobody else listens to the type |
| `EventBus.EndingAStandingSubscription` | src/events/EventBus.ts:142-158 | over any run in which every unsubscribe ends a subscription that stands, and nothing is cleared, it removes just that listener |
| `EventBus.AStaleUnsubscribeDropsTheType` | src/events/EventBus.ts:152-158 | the failing run: an unsubscribe called again after its type was subscribed anew drops the new listener |

## Left out

- EventQueue.HoldsHaveRunsExactlyWhenOrderly: which work settles before its own outside call is back is not derived from `runEvent`; the model allows it at every step.
- BrowserCallers.OneWorksExactlyWhenOwn: a request counts as outside while the call that gave its own slot up is pending; a call made with the slot free, which just runs, is not counted.
- RegistrationGate.OutermostMutationsNeverOverlap: takes a registration as made inside a bracket or while none is open; the depth test does not tell an outside concurrent caller apart, and such a registration is not ordered.
- CredentialStore.IndexAgreesWithRows: each method is one step. Overlapping sets are the subject of `CredentialSets`, and a `set` inside a rotation of `ASetDuringRotationSurvivesOnlyOnCurrentRows`; other interleavings of two methods of one store, a `set` during the first warm among them, and change listeners are not modelled.
- CredentialSets.IndexStaysRightExactlyWhenApart: for sets that differ in service, value or time from those they overlap; two that write the very same row are not told apart.
- OneUseSecrets.TakesNeverOutnumberHolds: for an adapter with a conditional delete; an update of a row that has gone is taken to do nothing.
- HttpSecrets.TakesGiveNoMoreThanPut: one process and one store; a hold with a lifetime of zero or less leaves a value already shared, as the source does. `rotate`, `persist` and the mock token tables are not modelled.
- RealPath.ResolveReal: the file system does not change during the walk, so a link found can be read.
- ByteSource.BytesAreConserved: timers and sockets are reduced to the polls and events they cause; `destroy` is not modelled.
- Base64.DecodeStandardBase64: the bytes of an accepted text are those of RFC 4648, as `Buffer` yields; failure texts are constructors.
- EffectWalk.WalkIsExact: the evaluator is the reference semantics given above; the kernel's own is not part of this model.
- Residence.MountLegs: a seed is its trait's name; the transports are the local one and the remote one.
- MountMerge.MergeMountResponses: rows and list items are opaque; key order inside a record is not modelled.
- PushResume.ParsedFramesAreSpelled: numbers are decimal digits; the other spellings `Number` accepts, and rounding beyond 2^53, are not modelled.
- PushResume.ReconnectsSkipNothing: the stream's address is built and opened with no frame of the key in between; a second call of one unsubscribe is not modelled.
- PushStreams.TwoStreamsCanStarve: for a server whose stream has readable frames without end.
- Ticks.PhaseIsKept: times are real numbers; floating-point rounding of the accumulator is not modelled.
- Ticks.TickScheduler.Pass: callbacks neither add, stop nor pause ticks during a pass, and a pass reads the calendar once; timer handles are left out.
- CronText.ParseCronField: white space is the ASCII kind, and the bounds of a range are digits or empty; the other spellings `Number` accepts are not modelled. It is called where every part's loop ends.
- Cron.OncePerMinute: a calendar that goes back, as at the end of summer time, is excluded.
- Channel.AnsweredHostsSettleEverything: the host half serves for the whole run; its `stop`, pushes and host dispatches are not modelled.
- HeldChannel.TheFirstListenerGetsEverything: the hand-over of kept messages is one step, and a listener listens once.
- InFlight.InFlightCalls.Finish: the work's settling and the bookkeeping after it are one step; `untilAborted` is not modelled.
- The kernel, `@almadar/core`, `@almadar/std` and `@almadar/db` are not part of this model.
- Real cryptography, hashing, UTF-8, sockets, DNS, child processes, `fetch`, Express routes, SSE writing, IndexedDB and `chrome.*` calls: only the events they deliver appear.
- Wire decoders, the request switch, schema, HTTP and file loaders, UI slots, performance records, the verification bridge, preview preparation, page composition and theme sigils: branch-local code, each branch read off its own body.
- Logging and debug flags.
