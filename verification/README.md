# Qronos: a verified model of its approval and side-effect plane

Qronos lets a person approve real actions by voice, by a click or with a typed secret. Between the
approval and the effect lie small protocols run by several processes and threads that can crash, be
stopped or race. This project models them in Dafny and proves what each of them is for. Beside them it
models the algorithmic cores of the repository: graph closures, a manifest with its parser, a script
checker, a number printer with its parser, a recorder loop, a log and a registry.

Check everything with `dafny verify dfyconfig.toml`.

## How the models are built

- **Protocols** are state machines. One `with self._lock` block, one file operation, one transaction or
  one clock reading is one atomic step; processes and threads interleave at these steps without any
  limit on their number. A *run* is a sequence of worlds, each following from the one before by an
  enabled step, and the main results speak of every world of every run.
- **Objects** that the program updates in place are classes. Their methods are proved against functions on
  an abstract state, and the steps of the runs use the same functions.
- **Loops** are loops, with invariants; their `ensures` state the result outright.
- Cryptography is symbolic: SHA-256, HMAC and scrypt are injective constructors. The file system, the
  permission gate, the audio detector, case folding and similar surroundings are arbitrary functions or
  arbitrary answers, over which every result is quantified.

| file | what it models |
|---|---|
| `ActionBroker.dfy` | single use of an approval across any number of elevated brokers; the ordered checks |
| `ApprovalEnvelope.dfy` | the envelope from the runtime that builds it to the broker that checks it |
| `BrokerClient.dfy` | Stop against key release and commit in the runtime's session |
| `SideEffectJournal.dfy` | the durable journal of side effects, shared by processes that crash |
| `ApprovalSecret.dfy` | the lockout of the typed secret |
| `ActionCancellation.dfy` | Stop for running actions and for turns about to start one |
| `ApprovalLedger.dfy`, `AppWorkflowRuntime.dfy` | single-use prompts, and the steps started on their answers |
| `ChatterboxRuntime.dfy` | the voice sidecar's startup, release and reservation |
| `Reachability.dfy`, `DesktopNotices.dfy`, `NoticeDestinations.dfy` | the third-party notices |
| `InstallManifest.dfy` | the ownership manifest of an installation and the removal it drives |
| `InstallerScriptCheck.dfy` | the static check of a generated installer script |
| `PersianNumbers.dfy` | spoken numbers, printed and parsed |
| `CalculatorSemantic.dfy` | a calculation compiled to button presses |
| `CommandRecorder.dfy` | the recording of one spoken command |
| `AppendOnlyLog.dfy` | the rotating log |
| `ArtifactOwnership.dfy` | who owns each artifact |
| `PythonText.dfy`, `Options.dfy` | character classes, numerals and optional values shared by the others |

## Where the code does less than its words

Each of these is proved in the form "the property holds exactly when ...", with an input or a run that
breaks it otherwise.

- **Single use** (`ActionBroker.SingleUseExactly`). Markers are pruned after 370 seconds, so an approval
  is used at most once exactly when no more than 185 seconds pass between a broker's freshness check and
  its claim. Nothing in the code bounds that delay, and the secret prompt's check lies inside it.
- **One request per action id** (`BrokerClient.OncePerActionIdExactly`). `perform` looks an id up and
  records it in two separate steps, outside any lock; wherever a run has two undisturbed calls for one id
  between the two, both requests can leave (`OverlapSendsTwice`). The record belongs to one session, and the
  program makes a session per action under a busy lock (`core/elevated_actions.py`, line 381), so no such
  overlap arises there today.
- **Granted at most once** (`SideEffectJournal.GrantedAtMostOnce`, `GrantedOnceExactly`). A begin that
  returns has left its entry and the marker, so no operation is granted twice however processes crash and
  whenever the journal file is lost or damaged. The exception is the removal of both file and marker: such a
  journal reads as empty, and then every operation can be granted again (`ForgottenIsGrantedAgain`). An entry
  whose begin did not return may vanish and be recorded a second time, never granted a second time
  (`UnmarkedEntryVanishes`).
- **Single-flight startup** (`ChatterboxRuntime.SingleFlightExactly` and its two companions). The comment
  in the code says exactly one caller starts the sidecar, one event and one reservation. That holds
  exactly when three overlaps stay away from a startup: a release; the blocks of a speech request that
  found the sidecar alive just before it died; and a failed startup that has written its failure but not
  yet set the event, because its last block overwrites whichever startup is `STARTING` by then.
  Without any one of them two sidecars can start, the event can be set under a startup in flight, and a
  loaded runtime can be left without a reservation.
- **A failed startup's reservation** (`ChatterboxRuntime.PortLeaks`, `IdleHoldsExactly`). When the port or the
  environment of the sidecar cannot be prepared, only the outer handler runs, and it settles no reservation
  (`core/chatterbox_runtime.py`, lines 540-575). With the three overlaps excluded, a runtime without a process,
  whose reservation is in no thread's hands, holds one exactly if a startup failed at that point since a
  reservation was last ended.
- **The ledger while speaking** (`ChatterboxRuntime.SpeakingReadsRunningExactly`, `RestsWhileSpeaking`). A
  prewarm that ends during a speech leaves the state alone but writes "hot idle" into the resource ledger; the
  ledger says "running" of a speaking runtime exactly if no prewarm ended since the speech began.
- **Thousand million** (`PersianNumbers.MillionMultipliesExactly`, `ThousandMillion`). A scale word with
  nothing directly before it counts as one, also right after another scale word: "million" multiplies what was
  said exactly if it follows an addend or nothing was said, and "two thousand million" is read as 2001 million.
- **Reading the log** (`AppendOnlyLog.ReadsExactly`). `json.dumps` leaves U+0085, U+2028 and U+2029 raw
  and `splitlines` splits there. A record with one of them is not read back, and one with two can be read
  as a record nobody wrote.
- **Stop and `begin`** (`ActionCancellation.SurvivorsStraddle`). `begin` looks at the epoch in one block and
  registers in another; the actions that survive a Stop uncancelled are exactly those that straddle it.
- **Never back to Qronos** (`ArtifactOwnership.TransferStaysExactly`). A transferred record stays the user's
  through every later change and restart exactly if the transfer's own save, or a later one before the first
  restart, succeeds. Otherwise that restart gives it back (`FailedSaveIsUndone`, `HandedOverAndBack`); the caller
  was told.
- **Recovery of the calculator** (`CalculatorSemantic.RecoveryExactly`, `StrayFirstPressStays`). After a
  failure with any press out, Clear is tried exactly if the first step landed and there is one Clear button:
  a press that went out and then failed its identity check is not on the list that recovery looks at, so a
  first press on another runtime id stays typed.

## Model

| member | source | states |
|---|---|---|
| ActionBroker.FreshnessBoundsExpiry | core/action_broker.py:378-385 | an approval found fresh at a time expires at most 185 seconds later |
| ActionBroker.ConsumedApprovals.Prune | core/action_broker.py:274-281 | a sweep removes exactly the markers older than 370 seconds that can be unlinked |
| ActionBroker.ConsumedApprovals.Claim | core/action_broker.py:261-272 | a claim wins exactly if the nonce is well formed and its marker is absent after the sweep, and then leaves the marker |
| ActionBroker.InvRun | core/action_broker.py:247-281 | in every run a claimed approval still has its marker, or has expired for every broker that could still claim it |
| ActionBroker.SingleUse | core/action_broker.py:257-281 | over every interleaving of any number of brokers an envelope is accepted at most once while check and claim lie at most 185 seconds apart |
| ActionBroker.ReplayBeyondTheBound | core/action_broker.py:261-281 | for every larger delay there is a run that accepts one envelope twice |
| ActionBroker.SingleUseExactly | core/action_broker.py:351-444 | single use over all runs holds if and only if the delay is at most 185 seconds |
| ActionBroker.SweepSteps | core/action_broker.py:274-281 | a sweep may be cut into its looks and unlinks, with other brokers in between |
| ActionBroker.ClaimIsARun | core/action_broker.py:261-281 | a whole claim is one sequence of atomic steps, so what runs prove holds of the method |
| ActionBroker.FieldsPassIff | core/action_broker.py:401-409 | the ordered field checks pass exactly when every parameter has its type and no text names code or a shell |
| ActionBroker.TypesAccept | core/action_broker.py:401-409 | what each declared type accepts: a truth value is no number, a whole number will do for a decimal |
| ActionBroker.VerifyRequest | core/action_broker.py:351-444 | a request refused by any check leaves the used approvals alone; one that passes is accepted exactly if its claim wins; a guess at the secret is counted exactly for an authentic, fresh, exact request that brings one |
| ActionBroker.PassIffExactlyApproved | core/action_broker.py:351-441 | the checks before the claim pass exactly when the approval is authentic, fresh and for exactly this action, and the secret and the gate agree |
| ActionBroker.OneSignatureOneAction | core/action_broker.py:224-229 | requests that pass under one signature are for the same action, parameters and identity, in any broker and at any time |
| ActionBroker.BeforeSecretIffExact | core/action_broker.py:362-416 | the checks before the secret pass exactly for an authentic, fresh request for exactly the registered action |
| ActionBroker.SecretAskedLast | core/action_broker.py:418-439 | no answer of the secret store or the gate changes the outcome of a request that is not exact |
| ApprovalEnvelope.BuiltExactly | core/action_broker_client.py:214-229 | an envelope is built exactly if the grant names the request's action id, category and target and has not expired |
| ApprovalEnvelope.BuiltApprovalPassesExactly | core/action_broker_client.py:214-242 | for every request and grant: an envelope is built and passes the broker's checks exactly if the grant is for the request and lives, in the same session, for the same action, within skew, grant and longest lifetime, and the broker may perform it |
| ApprovalEnvelope.AcceptedIsGranted | core/action_broker_client.py:214-242 | whatever the broker accepts carries the grant's action id, and its registered category and its target are the grant's |
| ApprovalEnvelope.DiesWithItsGrant | core/action_broker_client.py:226-241 | with clocks in step no envelope is accepted after its grant expired |
| BrokerClient.Cancellation.Cancel | core/action_broker_client.py:127-139 | a cancel succeeds exactly before the commit, and hands out the wakers registered then |
| BrokerClient.Cancellation.Claim | core/action_broker_client.py:160-167 | key release and commit are granted exactly while neither the cancellation nor the owner's condition says stop |
| BrokerClient.Cancellation.EnterWaking | core/action_broker_client.py:170-176 | registers a waker and tells whether it must fire at once |
| BrokerClient.Cancellation.LeaveWaking | core/action_broker_client.py:179-181 | removes that waker only |
| BrokerClient.StopOrCommit | core/action_broker_client.py:127-167 | an effective cancel and a granted commit never both happen, and no key is released after an effective cancel |
| BrokerClient.FlagsExactly | core/action_broker_client.py:127-167 | in every run the flags say exactly what happened: a cancel that took effect, a released key, the commit; a cancel still takes effect after the key |
| BrokerClient.StoppedExactly | core/action_broker_client.py:131-167 | a call ends as stopped exactly if one of its looks at the flag, the owner's condition or its interrupt found a stop, or a wait ended by one; and then nothing was sent |
| BrokerClient.GrantedOnlyAfterFreePolls | core/action_broker_client.py:160-167 | a key is released or a commit granted only to a call that looked at the start, after the launch and last of all for this claim, and found no stop |
| BrokerClient.StoppedOnlyIfAsked | core/action_broker_client.py:127-181 | no call ends as stopped unless its cancellation was cancelled or its owner said stop while it ran |
| BrokerClient.EndHasACause | core/action_broker_client.py:273-360 | every way a call ends has its own cause: used id, failed step, lost answer, failed wait, answer |
| BrokerClient.OutcomeTellsWhetherItLeft | core/action_broker_client.py:276-360 | a finished call reports "outcome unknown", an answer or an error of the wait after it exactly if its request left, and then it was committed and not cancelled |
| BrokerClient.NoLostWakeUp | core/action_broker_client.py:169-181 | once every cancel has finished waking, no call still waits uninterrupted under a cancelled cancellation |
| BrokerClient.SendsUndisturbed | core/action_broker_client.py:276-336 | a call nobody cancels gets to send its request whatever other calls do |
| BrokerClient.OverlapSendsTwice | core/action_broker_client.py:279-290 | every run with two undisturbed calls for one id between lookup and record extends to one in which both requests leave |
| BrokerClient.OverlappingCallsSendTwice | core/action_broker_client.py:279-290 | for every id there is such a run |
| BrokerClient.OncePerActionIdExactly | core/action_broker_client.py:279-290 | a request leaves at most once per action id in all runs if and only if calls for one id do not overlap between lookup and record |
| SideEffectJournal.Journal.Save | core/app_workflow.py:556-559 | a save writes all entries and then the marker; it returns only with both standing |
| SideEffectJournal.Journal.Begin | core/app_workflow.py:589-617 | begins exactly an unknown operation whose content has no unresolved attempt, refuses otherwise without a change, and returns only if its save did |
| SideEffectJournal.BeginRecords | core/app_workflow.py:589-617 | a begin returns exactly for an operation not on record whose content has no open attempt, and adds exactly that attempt as submitting |
| SideEffectJournal.Journal.Settle | core/app_workflow.py:663-683 | settles only unresolved entries, and uncertain ones only to confirmed |
| SideEffectJournal.SettleRecords | core/app_workflow.py:663-683 | a settle returns exactly for an outcome its entry may take, and then the entry has exactly that outcome, its content and its owner, and nothing else changed |
| SideEffectJournal.Journal.SettleIfUnresolved | core/app_workflow.py:619-628 | true exactly if it settled; false exactly when a second look, after others may have acted, finds the entry settled |
| SideEffectJournal.Journal.Acknowledge | core/app_workflow.py:685-695 | releases exactly an uncertain entry |
| SideEffectJournal.AcknowledgeRecords | core/app_workflow.py:685-695 | returns exactly for an uncertain entry, which is then acknowledged with its content and owner, and nothing else changed |
| SideEffectJournal.Journal.ReconcileInterrupted | core/app_workflow.py:630-652 | exactly the submitting entries whose owner is certainly gone become uncertain |
| SideEffectJournal.ReconcileRecords | core/app_workflow.py:630-652 | after it exactly the submitting entries whose owner is gone read uncertain, with content and owner kept |
| SideEffectJournal.NothingToReconcile | core/app_workflow.py:641-652 | with nothing interrupted nothing is written, so no failing save matters |
| SideEffectJournal.OneUnresolvedPerContent | core/app_workflow.py:599-607 | in every run, whatever crashes or is lost, each content has at most one submitting or uncertain attempt |
| SideEffectJournal.OpenOutcomeBlocks | core/app_workflow.py:599-607 | in every run, while an outcome is open no begin with that content returns until that very entry is confirmed, found not submitted (from submitting only) or acknowledged |
| SideEffectJournal.UncertainBlocks | core/app_workflow.py:674-677 | from a settle as uncertain on, every begin with that content is refused until the entry is confirmed or acknowledged |
| SideEffectJournal.GrantedAtMostOnce | core/app_workflow.py:525-617 | over every run with crashes, failed saves, losses and damage, no operation's begin returns twice while the marker is not removed |
| SideEffectJournal.GrantedStaysOnRecord | core/app_workflow.py:525-617 | from then on its entry is there whenever the journal can be read |
| SideEffectJournal.ForgottenIsGrantedAgain | core/app_workflow.py:525-532 | every run that ends with journal and marker gone extends to one that grants any operation once more |
| SideEffectJournal.GrantedOnceExactly | core/app_workflow.py:525-617 | each operation is granted at most once in all runs if and only if no run loses both journal and marker after a grant |
| SideEffectJournal.UnmarkedEntryVanishes | core/app_workflow.py:525-559 | a run in which an entry is lost before its first marker: recorded twice, granted once |
| SideEffectJournal.EntriesNeverDisappear | core/app_workflow.py:663-695 | between any two points with journal and marker never both gone, entries stay, keep content and owner, and move only as permitted: uncertain leaves only to confirmed or acknowledged |
| SideEffectJournal.OracleSound | core/app_workflow.py:710-736 | the liveness test answers "gone" only for owners that are gone |
| SideEffectJournal.OracleExact | core/app_workflow.py:710-736 | a definite and true answer about an owner with a known start time says "gone" exactly if no running process is that owner |
| SideEffectJournal.GoneNeedsProof | core/app_workflow.py:710-736 | "gone" is answered only for a known owner whose process is not there or is another |
| SideEffectJournal.LiveAttemptUntouched | core/app_workflow.py:630-652 | no reconciliation touches an attempt whose owner lives, unless journal and marker were both gone in between |
| ApprovalSecret.ExponentCapIsInvisible | core/approval_secret.py:208-210 | the exponent cap of 16 changes no lock time |
| ApprovalSecret.LockTimes | core/approval_secret.py:208-210 | the lock after the fifth wrong guess is one minute and doubles up to an hour |
| ApprovalSecret.ApprovalSecretStore.Status | core/approval_secret.py:235-249 | reports the lock and the guesses left without changing anything |
| ApprovalSecret.ApprovalSecretStore.Check | core/approval_secret.py:349-381 | one attempt: refused while locked, else counted or resetting the counter |
| ApprovalSecret.ApprovalSecretStore.Verify | core/approval_secret.py:251-271 | one attempt on the stored secret |
| ApprovalSecret.ApprovalSecretStore.SetSecret | core/approval_secret.py:273-346 | a change of the secret spends an attempt of the same counter on the current one |
| ApprovalSecret.AttemptExactly | core/approval_secret.py:251-381 | one attempt is right or wrong by what is stored and counted only then; the secret becomes the proposal exactly if that is admissible and either the first or brings the secret in force while unlocked |
| ApprovalSecret.SecretInForce | core/approval_secret.py:273-346 | over every run the stored secret is the proposal of the last such change |
| ApprovalSecret.VerifiesExactly | core/approval_secret.py:251-271 | in every run `verify` says right exactly for the secret in force while unlocked |
| ApprovalSecret.StrangersChangeNothing | core/approval_secret.py:273-381 | attempts that do not type the secret in force neither pass nor change it, however many there are |
| ApprovalSecret.GuessRate | core/approval_secret.py:298-308 | the n-th wrong guess since the last success, n at least 11, comes at least 3780 + 3600 (n - 11) seconds after the fifth, across both operations |
| ApprovalSecret.FastestGuessing | core/approval_secret.py:349-381 | for every n there is a run that guesses as early as the locks allow |
| ApprovalSecret.FastestMeetsTheBound | core/approval_secret.py:208-210 | that run meets the bound exactly |
| ApprovalSecret.RemainingIsExact | core/approval_secret.py:235-249 | the reported remaining attempts are exactly the further wrong guesses that lock |
| ActionCancellation.ActiveActionRegistry.Begin | core/action_cancellation.py:159-175 | an action is registered, cancelled at birth exactly if the registry is closed or a Stop came since its turn began |
| ActionCancellation.ActiveActionRegistry.CancelAll | core/action_cancellation.py:192-208 | advances the epoch and cancels exactly the registered actions not yet cancelled |
| ActionCancellation.ActiveActionRegistry.Close | core/action_cancellation.py:186-190 | closes for good, cancels all that is registered and returns those it newly cancelled |
| ActionCancellation.InvRun | core/action_cancellation.py:137-175 | in every run an action's fate follows from the epochs it was marked, looked and entered in |
| ActionCancellation.FirstReasonStays | core/action_cancellation.py:57-66 | in every run cancelling is one-way and the first reason stays |
| ActionCancellation.SurvivorsStraddle | core/action_cancellation.py:159-175 | of the turns marked before the last Stop, exactly the actions whose `begin` straddles a Stop run on uncancelled |
| ActionCancellation.AtomicBeginLeavesNoSurvivor | core/action_cancellation.py:159-175 | with `begin` as one step Stop reaches every action of an earlier turn |
| ActionCancellation.LaterTurnUnaffected | core/action_cancellation.py:137-157 | a turn marked after the Stop is never cancelled by it |
| ActionCancellation.BornCancelledAfterClose | core/action_cancellation.py:186-190 | after close every action is born cancelled |
| ActionCancellation.StopMissesStraddlingBegin | core/action_cancellation.py:159-208 | a run in which Stop misses such an action |
| ApprovalLedger.ApprovalLedgerStore.SettleLocked | core/approval_ledger.py:230-234 | a settlement is remembered last and at most 256 are kept |
| ApprovalLedger.ApprovalLedgerStore.DropLocked | core/approval_ledger.py:223-228 | the tickets a rule picks are settled in their order, the others stay |
| ApprovalLedger.ApprovalLedgerStore.IssueTicket | core/approval_ledger.py:110-144 | an open ledger issues an identity that is neither open nor settled |
| ApprovalLedger.ApprovalLedgerStore.TakeTicket | core/approval_ledger.py:160-187 | takes exactly an open, unexpired ticket of an accepted kind, and says why not otherwise |
| ApprovalLedger.TakenExactly | core/approval_ledger.py:160-187 | a take succeeds exactly for an open, unexpired ticket of an accepted kind in an open ledger, and closes that one as answered |
| ApprovalLedger.ApprovalLedgerStore.RevokeWhere | core/approval_ledger.py:189-209 | returns and settles exactly the chosen tickets |
| ApprovalLedger.RevokedExactly | core/approval_ledger.py:196-206 | a ticket stays open exactly if its kind is not revoked; the tickets returned are exactly the others, each settled with the reason given |
| ApprovalLedger.ApprovalLedgerStore.CloseLedger | core/approval_ledger.py:211-221 | settles everything and closes for good |
| ApprovalLedger.ClosedExactly | core/approval_ledger.py:211-221 | nothing stays open, and every open ticket is settled in order as closed over |
| ApprovalLedger.ExpiredExactly | core/approval_ledger.py:223-228 | a ticket stays open exactly while its time has not come; the others are settled as expired |
| ApprovalLedger.NextIsTheOperation | core/approval_ledger.py:110-234 | every step of a run changes the ledger as issue, take, revoke, expiry or close does |
| ApprovalLedger.RememberAllIsRecent | core/approval_ledger.py:230-234 | forgetting the oldest one by one keeps exactly the most recent settlements |
| ApprovalLedger.LedgerSafe | core/approval_ledger.py:110-234 | in every run each identity is taken at most once, open and settled are disjoint, and settled is exactly the last 256 settlements |
| ApprovalLedger.NeverTakenAfterSettled | core/approval_ledger.py:160-187 | no identity is taken after its expiry, revocation or taking, even once forgotten, nor any after close |
| ApprovalLedger.TakesOnlyLiveTickets | core/approval_ledger.py:160-187 | a take returns the very ticket issued, of an accepted kind, before its expiry |
| ApprovalLedger.RefusalTellsWhy | core/approval_ledger.py:172-187 | a refusal gives the remembered reason, and a wrong-kind take changes nothing beyond expiry |
| AppWorkflowRuntime.LedgerRun | core/app_workflow_runtime.py:243-310 | any history of prompts, answers, Stop and pause is a run of the ledger |
| AppWorkflowRuntime.RuntimeInvRun | core/app_workflow_runtime.py:269-310 | every answer in progress carries the step its prompt was issued for |
| AppWorkflowRuntime.StepStartsAtMostOnce | core/app_workflow_runtime.py:269-310 | a prompted step starts at most once however often it is answered |
| AppWorkflowRuntime.StartsOnlyApproved | core/app_workflow_runtime.py:279-310 | a started step was approved, is the step prompted for, and had its secret accepted where one is needed |
| AppWorkflowRuntime.SettledPromptNeverStarts | core/app_workflow_runtime.py:255-296 | a prompt settled by Stop, expiry or shutdown never starts its step afterwards |
| AppWorkflowRuntime.StoppedPromptNeverStarts | core/app_workflow_runtime.py:255-264 | over every history: a prompt open when Stop discards is open no longer, its step has not started and never starts |
| AppWorkflowRuntime.RefusedForGood | core/app_workflow_runtime.py:269-299 | an answer that finds the runtime paused, its prompt gone or its secret not accepted stays refused and consumes nothing |
| AppWorkflowRuntime.AnswerTakesEffect | core/app_workflow_runtime.py:269-310 | from every history an answer to an open prompt, if nothing comes in between, starts the step prompted for, or closes the prompt without starting it |
| ChatterboxRuntime.Chatterbox.CreateReservation | core/chatterbox_runtime.py:979-1009 | a live reservation is kept, otherwise a new one is named, or none if the ledger refuses |
| ChatterboxRuntime.Chatterbox.UpdateReservationState | core/chatterbox_runtime.py:1011-1035 | writes the named reservation only while it is live |
| ChatterboxRuntime.Chatterbox.SettleReservation | core/chatterbox_runtime.py:1037-1087 | ends the named reservation and forgets its name |
| ChatterboxRuntime.Chatterbox.EnsureRunning | core/chatterbox_runtime.py:433-474 | answers up, join or start, and claims the startup in the last case |
| ChatterboxRuntime.Chatterbox.BeginRelease | core/chatterbox_runtime.py:776-794 | takes the process away and marks the reservation as being evicted |
| ChatterboxRuntime.Chatterbox.EndRelease | core/chatterbox_runtime.py:829-835 | ends the reservation and the state |
| ChatterboxRuntime.Chatterbox.RecordStartupFailure | core/chatterbox_runtime.py:658-667 | records the error and overwrites the state only if it is STARTING |
| ChatterboxRuntime.Chatterbox.AfterSpeechFailure | core/chatterbox_runtime.py:354-371 | ready again if the sidecar lives, else failed with its reservation ended |
| ChatterboxRuntime.LiveReservationIsNamed | core/chatterbox_runtime.py:979-1087 | on every path and in every interleaving the only reservation that can be live is the one named |
| ChatterboxRuntime.NothingHeldAfterRelease | core/chatterbox_runtime.py:829-835 | a finished release or failed launch leaves nothing reserved |
| ChatterboxRuntime.EndsWith | core/chatterbox_runtime.py:354-371 | a reservation ends as released by a release, and as broken by a failed startup, launch or speech or a sidecar found dead; and the state says which |
| ChatterboxRuntime.PortLeaks | core/chatterbox_runtime.py:540-575 | under every exclusion there is a run that ends idle, failed and without a process, with a live reservation |
| ChatterboxRuntime.IdleHoldsExactly | core/chatterbox_runtime.py:519-673 | with the overlaps excluded, a runtime without a process and with its reservation in no thread's hands holds one exactly if a startup failed at port or environment since a reservation was last ended |
| ChatterboxRuntime.WorkFitsRun | core/chatterbox_runtime.py:1014-1040 | with the overlaps excluded, the ledger says running of a ready runtime and resting of a resting one, and holds nothing for an unloaded one |
| ChatterboxRuntime.SpeakingReadsRunningExactly | core/chatterbox_runtime.py:321-327 | of a speaking one it says running, exactly unless a prewarm ended since the speech began |
| ChatterboxRuntime.RestsWhileSpeaking | core/chatterbox_runtime.py:321-327 | a run in which it says resting while the runtime speaks |
| ChatterboxRuntime.SuccessRests | core/chatterbox_runtime.py:321-386 | a prewarm or a speech that succeeded leaves the runtime resting, with its process and its reservation |
| ChatterboxRuntime.TimerReleasesExactly | core/chatterbox_runtime.py:837-851 | the idle timer starts a release exactly for a resting runtime whose idle time is over, and that leaves nothing loaded and nothing reserved |
| ChatterboxRuntime.InvRun | core/chatterbox_runtime.py:418-673 | with the three overlaps excluded, what every thread's place says about state, process, event and reservation |
| ChatterboxRuntime.ReleaseDoubles | core/chatterbox_runtime.py:771-835 | a run with two startups after a release during the first |
| ChatterboxRuntime.LateExcuseDoubles | core/chatterbox_runtime.py:658-673 | a run with two startups after a late failure of an earlier one |
| ChatterboxRuntime.SpeechDoubles | core/chatterbox_runtime.py:341-348 | a run with two startups after a speaker writes over a claimed restart |
| ChatterboxRuntime.SingleFlightExactly | core/chatterbox_runtime.py:418-474 | at most one startup is active and the state says so, in all runs if and only if the three overlaps are excluded |
| ChatterboxRuntime.ServedExactly | core/chatterbox_runtime.py:431-515 | a call goes on exactly if it found the sidecar alive and resident, at once or after waiting, or its own startup succeeded |
| ChatterboxRuntime.JoinersWait | core/chatterbox_runtime.py:455-515 | a call during a startup waits for its event and starts nothing |
| ChatterboxRuntime.EventHonestExactly | core/chatterbox_runtime.py:469-473 | the event is set exactly when no startup is in flight, under exactly the same condition |
| ChatterboxRuntime.LoadIsReservedExactly | core/chatterbox_runtime.py:519-656 | a loaded runtime holds a live reservation, under exactly the same condition |
| Reachability.ReachIsLeastClosed | build_support/desktop_notices.py:335-343 | the reachable set is the least set that holds the roots and is closed under edges |
| Reachability.ReachIffPath | build_support/desktop_notices.py:335-343 | a node is reachable exactly if a path from a root leads to it |
| DesktopNotices.Resolve | build_support/desktop_notices.py:371-379 | the walk up the folders finds the entry the specification names |
| DesktopNotices.ResolvesToTheNearest | build_support/desktop_notices.py:371-379 | the entry is the nearest enclosing one, and none is missed |
| DesktopNotices.BasesAreTheFoldersAbove | build_support/desktop_notices.py:371-379 | the folders looked in are the owner's, those before each separator in its path, nearest first, and the root |
| DesktopNotices.CandidateLiesInItsFolder | build_support/desktop_notices.py:371-379 | the folder above a package is the one it was looked up in |
| DesktopNotices.RootEdgesExactly | build_support/desktop_notices.py:381-383 | the edges of the root are its required and its optional dependencies |
| DesktopNotices.EntryEdgesExactly | build_support/desktop_notices.py:398-403 | the edges of an entry are those and its peers, optional where marked so |
| DesktopNotices.NpmProductionKeys | build_support/desktop_notices.py:365-404 | returns exactly the reachable entries, and fails exactly if a reachable required edge is unresolved or a reachable entry is dev |
| DesktopNotices.RustClosure | build_support/desktop_notices.py:329-345 | returns exactly the packages reachable over normal edges minus the workspace members |
| NoticeDestinations.CheckDestinations | build_support/desktop_notices.py:668-681 | accepts exactly portable paths of which no two are equal ignoring case and none is a folder of another |
| NoticeDestinations.WriteAllWorks | build_support/desktop_notices.py:721-726 | harmless paths can all be created exclusively one after another, each file keeping its bytes |
| NoticeDestinations.CheckedExactlyWritable | build_support/desktop_notices.py:833-840 | the check passes exactly the lists whose exclusive creation succeeds in an empty case-insensitive tree |
| NoticeDestinations.AnyOrderWorks | build_support/desktop_notices.py:833-840 | every order of the writes succeeds or none does, and every order leaves the same files and folders |
| NoticeDestinations.SoundForExactly | build_support/desktop_notices.py:668-681 | the check guarantees the writes in a tree with another case folding if and only if that one identifies no more names |
| InstallManifest.EntryOf | build_support/install_manifest.py:50-59 | an accepted entry is a backslash path of names Windows keeps |
| InstallManifest.OrdinaryNames | build_support/install_manifest.py:42-58 | an ordinary name is accepted exactly if it is no device, and a device is refused with any extension |
| InstallManifest.NamesRefused | build_support/install_manifest.py:42-58 | a name Windows would change or not take is refused |
| InstallManifest.EntryStable | build_support/install_manifest.py:92-98 | such an entry passes the parser's own check unchanged |
| InstallManifest.RenderRefusesExactly | build_support/install_manifest.py:73-84 | `render` refuses exactly a bad entry, two entries differing only in case, or an entry that is also a folder |
| InstallManifest.ParseManifest | build_support/install_manifest.py:87-98 | the loop over the lines computes the parse |
| InstallManifest.RoundTrip | build_support/install_manifest.py:73-98 | parsing what was rendered gives exactly the canonical files in ascending order and every proper folder prefix, deepest first |
| InstallManifest.RemoveOwned | desktop/src-tauri/installer-hooks/qronos-install-root.nsh:825-867 | deleting the files and then removing empty folders leaves exactly the unlisted files, the unlisted folders and the folders above them |
| InstallManifest.ManifestDrivesRemoval | build_support/install_manifest.py:82-83 | a rendered manifest lists its folders in an order the removal can follow |
| InstallManifest.OnlyTheUnlistedStay | build_support/install_manifest.py:10-12 | what stays is a tree, and with every folder listed it is exactly the unlisted files and the folders above them |
| InstallerScriptCheck.Scan | build_support/desktop_prerequisites.py:485-494 | the pending scan passes exactly if every material statement is followed by a step with only neutral ones between, and else names the first that is not |
| InstallerScriptCheck.ScanIsExact | build_support/desktop_prerequisites.py:430-434 | the scan passes a section exactly if no run of it, whatever fails and wherever it jumps, passes over a failure |
| InstallerScriptCheck.StepsPassExactly | build_support/desktop_prerequisites.py:495-498 | the required steps pass exactly if they first occur, all of them, strictly in the fixed order |
| InstallerScriptCheck.StepIsNamed | build_support/desktop_prerequisites.py:487-495 | a step statement is recognised and names what stands between its quotes |
| InstallerScriptCheck.VerifyInstall | build_support/desktop_prerequisites.py:480-505 | the Install section passes exactly if fence, folder, steps, completion and receipt are as required and nothing is deleted |
| PersianNumbers.SumWords | core/arithmetic_fast_path.py:214-248 | the loop over total and current computes the meaning of the words |
| PersianNumbers.ParseInteger | core/arithmetic_fast_path.py:184-253 | the parser computes numeral, negative or words |
| PersianNumbers.SaysUnderThousand | core/arithmetic_fast_path.py:256-302 | what is printed below a thousand adds exactly that number to the running sum |
| PersianNumbers.SaysNumber | core/arithmetic_fast_path.py:305-340 | the words printed for a number below a billion sum to it |
| PersianNumbers.RoundTrip | core/arithmetic_fast_path.py:184-340 | parsing what was printed gives the number back for every integer above -10^9, and nothing for every other |
| PersianNumbers.SpokenApart | core/arithmetic_fast_path.py:305-340 | no two integers above -10^9 are printed alike |
| PersianNumbers.BareScales | core/arithmetic_fast_path.py:231-242 | a bare scale word is one thousand or one million |
| PersianNumbers.MillionMultipliesExactly | core/arithmetic_fast_path.py:231-242 | "million" multiplies what was said exactly if it follows an addend or nothing was said |
| PersianNumbers.ThousandMillion | core/arithmetic_fast_path.py:231-242 | "n thousand million" is read as 1000 n + 1 million |
| PersianNumbers.ParsesNumerals | core/arithmetic_fast_path.py:190-194 | numerals in ASCII, Arabic-Indic or Persian digits, signed or not, are their number |
| PersianNumbers.SpaceDoesNotMatter | core/arithmetic_fast_path.py:185-188 | white space around a number does not change what it is read as |
| PersianNumbers.OtherSpellings | core/arithmetic_fast_path.py:14-82 | the spellings that are never printed mean the same numbers |
| PythonText.NumeralRoundTrip | core/arithmetic_fast_path.py:312-313 | `int` undoes `str` |
| CommandRecorder.Frames | core/command_recorder.py:182-197 | the least positive number of frames that lasts the given time |
| CommandRecorder.Highest | core/command_recorder.py:199-209 | the greatest of a frame's probabilities, if there are any |
| CommandRecorder.Record | core/command_recorder.py:423-554 | ends within timeout + max(1, maximum - 1) frames; times out exactly without an onset; otherwise the output is the one slice from the pre-roll to the first frame at which a limit is met, with its speech count, cause and peak |
| CalculatorSemantic.TypesNumber | core/calculator_semantic.py:394-413 | typing a digit string enters its value, leading zeros or not |
| CalculatorSemantic.PlanIsCorrect | core/calculator_semantic.py:274-446 | a command compiles exactly if its result is a whole number from zero up, and the presses end with the expected display from any state |
| CalculatorSemantic.Execute | core/calculator_semantic.py:716-898 | the loop, the check of the display and the recovery end as the function of the happenings says |
| CalculatorSemantic.EndsExactly | core/calculator_semantic.py:716-898 | succeeds exactly if every step lands and the bound window shows the expected display; cancelled exactly if Stop meets the first step that does not land; the invoked steps are exactly those before it, and it too if Stop came while waiting after it |
| CalculatorSemantic.RecoveryExactly | core/calculator_semantic.py:860-898 | after a failure with any press out, Clear is tried exactly if the first step landed and one Clear button exists, and never after Stop or success |
| CalculatorSemantic.StrayFirstPressStays | core/calculator_semantic.py:716-898 | whenever the first press goes to another runtime id the run fails with one press out, none invoked and no Clear |
| CalculatorSemantic.CompiledCommandSucceeds | core/calculator_semantic.py:274-446 | compiler and loop together: if every press lands on the ideal calculator, a compiled command succeeds |
| AppendOnlyLog.Log.RotateIfNeeded | core/append_only_log.py:90-115 | the live file becomes the previous one exactly if it can be measured, would exceed the cap and can be replaced |
| AppendOnlyLog.Log.Append | core/append_only_log.py:65-88 | the record is added after any rotation, and the answer tells whether it reached the file |
| AppendOnlyLog.Log.ReadRecords | core/append_only_log.py:117-148 | the loop over the lines gives the records of the live file |
| AppendOnlyLog.KeepsASuffix | core/append_only_log.py:65-115 | over any run with failures the previous file followed by the live one is a contiguous suffix of the records written |
| AppendOnlyLog.OverTheCapOnlyBy | core/append_only_log.py:90-115 | after a write the live file is over its cap only if that record alone is, or its measurement or rotation failed |
| AppendOnlyLog.RotatesExactly | core/append_only_log.py:90-115 | a file is rotated away exactly if it can be measured and replaced and would grow over the cap, and the record follows what is left |
| AppendOnlyLog.WhatFitsStays | core/append_only_log.py:90-115 | over any run, while the live file and all that is to come fit the cap, nothing is rotated and the live file gains exactly the records written |
| AppendOnlyLog.ReadsTheLiveRecords | core/append_only_log.py:117-148 | reading gives exactly the live records when none holds a line separator raw |
| AppendOnlyLog.ReadsExactly | core/append_only_log.py:134-148 | reading is faithful to every log of a kind of records if and only if none of that kind holds a raw separator |
| AppendOnlyLog.SeparatorsForgeARecord | core/append_only_log.py:134-148 | a concrete record that reads back as the empty object |
| ArtifactOwnership.Registry.Register | core/artifact_ownership.py:318-364 | adds a new path and id as Qronos's and saves, or refuses without a change |
| ArtifactOwnership.RegistersExactly | core/artifact_ownership.py:338-364 | accepted exactly for a new path and id of no negative size; then that record is there and all others stay |
| ArtifactOwnership.Registry.TransferToUser | core/artifact_ownership.py:366-436 | hands Qronos's record over and saves, or refuses without a change |
| ArtifactOwnership.TransfersExactly | core/artifact_ownership.py:366-436 | accepted exactly for Qronos's record and a measurable file at a destination no other record has; then that record is the user's with the new path, size and time, and the others stay |
| ArtifactOwnership.Registry.Forget | core/artifact_ownership.py:438-461 | drops Qronos's record only |
| ArtifactOwnership.ForgetsExactly | core/artifact_ownership.py:449-461 | refused exactly for the user's record; else no record has that id any more and the others stay |
| ArtifactOwnership.Registry.PruneMissing | core/artifact_ownership.py:463-485 | drops exactly Qronos's records whose files are gone, and saves if there were any |
| ArtifactOwnership.PruneTakesExactly | core/artifact_ownership.py:463-485 | exactly those go, the user's all stay |
| ArtifactOwnership.QuotasAddUp | core/artifact_ownership.py:300-314 | the budgets of the components add up to the total |
| ArtifactOwnership.TransferLowersQuota | core/artifact_ownership.py:366-436 | a transfer takes exactly the record's old size out of the budgets it counted in |
| ArtifactOwnership.StaysWellFormed | core/artifact_ownership.py:338-364 | ids and paths stay pairwise distinct in memory and in the store |
| ArtifactOwnership.TimesFitAlways | core/artifact_ownership.py:338-436 | in memory and store a record has a time of transfer exactly if it is the user's |
| ArtifactOwnership.TransferIsForGood | core/artifact_ownership.py:366-461 | after a successful transfer the user's record is in memory and store through every later change, failed save and restart |
| ArtifactOwnership.SavedIsMemory | core/artifact_ownership.py:244-245 | while no save fails the store holds what memory holds |
| ArtifactOwnership.TransferStaysExactly | core/artifact_ownership.py:366-485 | for every history before and after, a transferred record stays the user's throughout if and only if the transfer's save, or a later one before the first restart, succeeds |
| ArtifactOwnership.FailedSaveIsUndone | core/artifact_ownership.py:422-436 | a transfer whose save failed, with no save before the next restart, is Qronos's again after it |
| ArtifactOwnership.HandedOverAndBack | core/artifact_ownership.py:422-436 | a concrete such history |

## Left out

- Win32, DPAPI, certificate chains, UI Automation, browsers, Telegram and the audio devices: at most an
  arbitrary answer.
- `core/supervisor_ipc.py` beyond one fact: the key is written only after the release gate agreed.
- Broker: construction of the action registry, the regular expressions of the text scan, the audit line,
  and what an accepted action then does.
- Broker: a wall clock that is set back. All clocks only move forward.
- Journal: details and timestamps of an entry, the file lock itself, and the fields of a damaged file other
  than its being unreadable.
- `StepGuard`, `require_for` and `grant_for` in `core/app_workflow.py`: sequences of guards, each settled by
  reading it.
- Secret store: schema, migrations, key-derivation parameters and encoding limits.
- Ledger and workflow: notices, audit events and the adapters a started step calls. A ticket's summary text.
- Voice sidecar: ports, the process guard, HTTP requests, timers as objects (a timer may fire at any time), and
  the kill after a release (the sidecar may die at any time).
- Notices: reading licences, classifying components, coverage of the shipped files.
- Installer script: preprocessing of the text into statements, the marker of the template, and the Uninstall
  section.
- InstallManifest.RoundTrip: is stated before the UTF-16LE encoding of the text, which is not part of this
  model.
- InstallManifest.RemoveOwned: leaves out a deletion that fails, which stops the removal, and the manifest
  itself, which is removed last and lies in no listed folder.
- InstallManifest.EntryOf: the device names are an arbitrary predicate on the stem. Folders that differ only in
  case are put in the order of their letters, where Python leaves the order open.
- DesktopNotices.NpmProductionKeys: gives a set, as RustClosure does; the sorted order of the lists is not stated.
- PersianNumbers.ParseInteger: knows ASCII, Persian and Arabic-Indic digits, not the decimal digits of other
  scripts, and no limit on the length of a numeral.
- Arithmetic intents: the regular expressions that find operands and operators, and spoken fractions.
- CommandRecorder.Record: probabilities and times are real numbers; errors of the microphone are left out.
- CalculatorSemantic.PlanIsCorrect: the calculator is the ideal one; the real one limits digits and groups them.
  Finding the operands in the spoken text is left out.
- AppendOnlyLog.Log.Append: takes the JSON text. A payload that JSON or UTF-8 cannot encode raises, against the
  promise of the docstring, and is not modelled. A write is atomic.
- AppendOnlyLog.ReadsExactly: JSON is an arbitrary codec with the stated laws: a dump parses back, is not
  blank, escapes control characters, and a piece of a cut dump never parses to the same object.
- ArtifactOwnership.Registry.Register: resolving a path is done by the caller; ids come from the caller too.
- Keyword scoring, prompt texts, pins and registries of pins, build steps, desktop, mobile and relay shells.
